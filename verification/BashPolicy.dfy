/** Evaluation of a bash command against the tool policy, internal/agent/policy.go. Regular
    expressions are abstract: a pattern compiles or not, and a compiled one matches or not. */
module BashPolicy {
  import opened Options
  import opened Text
  import opened ShellScan

  datatype Rule = Rule(name: string, pattern: string, action: string, enabled: Option<bool>)

  datatype Engine = Engine(compiles: string -> bool, matches: (string, string) -> bool)

  datatype Policy = Policy(tools: map<string, bool>, rules: seq<Rule>, defaultBehavior: string, denyBehavior: string)

  /** Why a command was denied. */
  datatype Reason = NoReason | ToolDisabled | UnsupportedConstruct | RuleDenies | DefaultDenies

  datatype Decision = Decision(allowed: bool, denyBehavior: string, reason: Reason, command: string, segment: string, ruleName: string)

  /** Reading the tool input may fail, and so may compiling a rule. */
  datatype Result = Ok(decision: Decision) | BadInput | BadRule(index: nat)

  const ALLOW := "allow"
  const BLOCK := "block"

  predicate IsRuleEnabled(rule: Rule) {
    rule.enabled.None? || rule.enabled.value
  }

  predicate IsToolEnabled(p: Policy, tool: string) {
    tool in p.tools && p.tools[tool]
  }

  function RuleName(rule: Rule, i: nat): string {
    if rule.name != "" then rule.name else "rule_" + Decimal(i)
  }

  // ---------- what the policy means ----------

  ghost predicate Applies(e: Engine, rule: Rule, segment: string) {
    rule.enabled != Some(false) && e.matches(rule.pattern, segment)
  }

  /** Rule `i` decides the segment: it is the first enabled rule that matches. */
  ghost predicate Decides(e: Engine, rules: seq<Rule>, segment: string, i: int) {
    0 <= i < |rules| && Applies(e, rules[i], segment) && forall j :: 0 <= j < i ==> !Applies(e, rules[j], segment)
  }

  ghost predicate SegmentAllowed(e: Engine, rules: seq<Rule>, defaultBehavior: string, segment: string) {
    || (exists i :: Decides(e, rules, segment, i) && rules[i].action == ALLOW)
    || ((forall i :: 0 <= i < |rules| ==> !Applies(e, rules[i], segment)) && defaultBehavior == ALLOW)
  }

  ghost predicate AllCompile(e: Engine, rules: seq<Rule>) {
    forall i :: 0 <= i < |rules| && rules[i].enabled != Some(false) ==> e.compiles(rules[i].pattern)
  }

  /** Rule `i` is the first enabled one that does not compile. */
  ghost predicate FirstBad(e: Engine, rules: seq<Rule>, i: nat) {
    i < |rules| && rules[i].enabled != Some(false) && !e.compiles(rules[i].pattern) && AllCompile(e, rules[..i])
  }

  /** The policy switches the tool on; a tool it does not mention is off. */
  predicate BashOn(p: Policy) {
    ("bash", true) in p.tools.Items
  }

  ghost predicate CommandAllowed(e: Engine, p: Policy, command: string) {
    forall k :: 0 <= k < |Segments(command)| ==> SegmentAllowed(e, p.rules, p.defaultBehavior, Segments(command)[k])
  }

  /** The meaning of the whole evaluation; None when it reports an error instead. */
  ghost function Allowed(e: Engine, p: Policy, input: Option<string>): Option<bool> {
    if !BashOn(p) then Some(false)
    else if input.None? then None
    else
      var command := Trim(input.value);
      if command == "" then Some(true)
      else if HasConstruct(command) then Some(false)
      else if !AllCompile(e, p.rules) then None
      else Some(CommandAllowed(e, p, command))
  }

  /** Segment `k` is the first that is not allowed, and the decision names it and its rule. */
  ghost predicate FirstDenied(e: Engine, p: Policy, segments: seq<string>, k: int, d: Decision) {
    && 0 <= k < |segments| && d.segment == segments[k]
    && !SegmentAllowed(e, p.rules, p.defaultBehavior, segments[k])
    && (forall j :: 0 <= j < k ==> SegmentAllowed(e, p.rules, p.defaultBehavior, segments[j]))
    && (forall i :: Decides(e, p.rules, segments[k], i) ==> d.ruleName == (if p.rules[i].name == "" then "rule_" + Decimal(i) else p.rules[i].name))
    && (d.reason == if exists i :: Decides(e, p.rules, segments[k], i) then RuleDenies else DefaultDenies)
    && (d.ruleName == "" <== forall i :: 0 <= i < |p.rules| ==> !Applies(e, p.rules[i], segments[k]))
  }

  // ---------- the evaluation ----------

  datatype Compiled = Compiled(name: string, action: string, pattern: string)

  /** The enabled rules, in order. */
  function CompiledRules(rules: seq<Rule>): seq<Compiled> {
    if rules == [] then []
    else
      var n := |rules| - 1;
      var rest := CompiledRules(rules[..n]);
      if IsRuleEnabled(rules[n]) then rest + [Compiled(RuleName(rules[n], n), rules[n].action, rules[n].pattern)] else rest
  }

  method CompileEnabledBashRules(e: Engine, rules: seq<Rule>) returns (out: seq<Compiled>, bad: Option<nat>)
    ensures bad.None? <==> AllCompile(e, rules)
    ensures bad.None? ==> out == CompiledRules(rules)
    ensures bad.Some? ==> FirstBad(e, rules, bad.value)
  {
    out, bad := [], None;
    for i := 0 to |rules|
      invariant AllCompile(e, rules[..i]) && out == CompiledRules(rules[..i])
    {
      assert rules[..i + 1][..i] == rules[..i];
      if IsRuleEnabled(rules[i]) {
        if !e.compiles(rules[i].pattern) {
          return [], Some(i);
        }
        out := out + [Compiled(RuleName(rules[i], i), rules[i].action, rules[i].pattern)];
      }
    }
    assert rules[..|rules|] == rules;
  }

  /** The first compiled rule that matches is the enabled rule that decides. */
  method MatchCompiledBashRule(e: Engine, compiled: seq<Compiled>, segment: string, ghost rules: seq<Rule>)
    returns (matched: bool, name: string, action: string)
    requires compiled == CompiledRules(rules)
    ensures matched ==> exists i :: Decides(e, rules, segment, i) && action == rules[i].action && name == RuleName(rules[i], i)
    ensures !matched ==> forall i :: 0 <= i < |rules| ==> !Applies(e, rules[i], segment)
    ensures !matched ==> name == "" && action == ""
  {
    for k := 0 to |compiled|
      invariant forall j :: 0 <= j < k ==> !e.matches(compiled[j].pattern, segment)
    {
      if e.matches(compiled[k].pattern, segment) {
        FirstCompiled(e, rules, segment, k);
        return true, compiled[k].name, compiled[k].action;
      }
    }
    NoneCompiled(e, rules, segment);
    return false, "", "";
  }

  lemma {:induction false} FirstCompiled(e: Engine, rules: seq<Rule>, segment: string, k: nat)
    requires k < |CompiledRules(rules)| && e.matches(CompiledRules(rules)[k].pattern, segment)
    requires forall j :: 0 <= j < k ==> !e.matches(CompiledRules(rules)[j].pattern, segment)
    ensures exists i :: Decides(e, rules, segment, i) && CompiledRules(rules)[k].action == rules[i].action
                        && CompiledRules(rules)[k].name == RuleName(rules[i], i)
  {
    var n := |rules| - 1;
    var rest := CompiledRules(rules[..n]);
    assert forall j :: 0 <= j < |rest| ==> rest[j] == CompiledRules(rules)[j];
    if k < |rest| {
      FirstCompiled(e, rules[..n], segment, k);
      var i :| Decides(e, rules[..n], segment, i) && rest[k].action == rules[i].action && rest[k].name == RuleName(rules[i], i);
      assert forall j :: 0 <= j < i ==> rules[j] == rules[..n][j];
      assert Decides(e, rules, segment, i);
    } else {
      NoneCompiled(e, rules[..n], segment);
      assert forall j :: 0 <= j < n ==> rules[j] == rules[..n][j];
      assert Decides(e, rules, segment, n);
    }
  }

  lemma {:induction false} NoneCompiled(e: Engine, rules: seq<Rule>, segment: string)
    requires forall j :: 0 <= j < |CompiledRules(rules)| ==> !e.matches(CompiledRules(rules)[j].pattern, segment)
    ensures forall i :: 0 <= i < |rules| ==> !Applies(e, rules[i], segment)
  {
    if rules != [] {
      var n := |rules| - 1;
      var rest := CompiledRules(rules[..n]);
      assert forall j :: 0 <= j < |rest| ==> rest[j] == CompiledRules(rules)[j];
      NoneCompiled(e, rules[..n], segment);
      if IsRuleEnabled(rules[n]) {
        assert CompiledRules(rules)[|rest|].pattern == rules[n].pattern;
      }
    }
  }

  /** Goes through the segments up to the first one that is not allowed. */
  method EvaluateSegments(e: Engine, p: Policy, compiled: seq<Compiled>, command: string, segments: seq<string>)
    returns (d: Decision)
    requires compiled == CompiledRules(p.rules)
    ensures d.allowed <==> forall k :: 0 <= k < |segments| ==> SegmentAllowed(e, p.rules, p.defaultBehavior, segments[k])
    ensures d.command == command && (d.allowed ==> d == Decision(true, "", NoReason, command, "", ""))
    ensures !d.allowed ==> d.denyBehavior == p.denyBehavior && exists k :: FirstDenied(e, p, segments, k, d)
  {
    for k := 0 to |segments|
      invariant forall j :: 0 <= j < k ==> SegmentAllowed(e, p.rules, p.defaultBehavior, segments[j])
    {
      var matched, name, action := MatchCompiledBashRule(e, compiled, segments[k], p.rules);
      OneDecides(e, p.rules, segments[k]);
      if matched {
        if action != ALLOW {
          d := Decision(false, p.denyBehavior, RuleDenies, command, segments[k], name);
          assert FirstDenied(e, p, segments, k, d);
          return;
        }
      } else if p.defaultBehavior != ALLOW {
        d := Decision(false, p.denyBehavior, DefaultDenies, command, segments[k], "");
        assert FirstDenied(e, p, segments, k, d);
        return;
      }
    }
    return Decision(true, "", NoReason, command, "", "");
  }

  /** Evaluates a command. The answer is exactly what the policy means, and a denial by policy
      names the first segment that is not allowed and the rule that decided it. */
  method EvaluateBashPolicyResolved(e: Engine, p: Policy, input: Option<string>) returns (r: Result)
    ensures match Allowed(e, p, input)
            case None => if input.None? then r.BadInput? else r.BadRule? && FirstBad(e, p.rules, r.index)
            case Some(b) => r.Ok? && r.decision.allowed == b
    ensures r.Ok? && !r.decision.allowed ==>
              r.decision.denyBehavior == if BashOn(p) then p.denyBehavior else BLOCK
    ensures r.Ok? && !BashOn(p) ==> r.decision.reason == ToolDisabled && r.decision.command == ""
    ensures r.Ok? && BashOn(p) && input.Some? ==>
              var command := Trim(input.value);
              && (HasConstruct(command) ==> r.decision.reason == UnsupportedConstruct)
              && r.decision.command == (if !r.decision.allowed || Segments(command) != [] then command else "")
              && (r.decision.allowed ==> r.decision.reason == NoReason)
    ensures r.Ok? && !r.decision.allowed && BashOn(p) && input.Some? && !HasConstruct(Trim(input.value)) ==>
              exists k :: FirstDenied(e, p, Segments(Trim(input.value)), k, r.decision)
  {
    if !IsToolEnabled(p, "bash") {
      return Ok(Decision(false, BLOCK, ToolDisabled, "", "", ""));
    }
    if input.None? {
      return BadInput;
    }
    var command := Trim(input.value);
    if command == "" {
      return Ok(Decision(true, "", NoReason, "", "", ""));
    }
    var unsupported := HasUnsupportedShellConstructs(command);
    if unsupported {
      return Ok(Decision(false, p.denyBehavior, UnsupportedConstruct, command, "", ""));
    }
    var compiled, bad := CompileEnabledBashRules(e, p.rules);
    if bad.Some? {
      return BadRule(bad.value);
    }
    var segments := SplitShellCommandSegments(command);
    if segments == [] {
      return Ok(Decision(true, "", NoReason, "", "", ""));
    }
    var d := EvaluateSegments(e, p, compiled, command, segments);
    return Ok(d);
  }

  /** At most one rule decides a segment. */
  lemma OneDecides(e: Engine, rules: seq<Rule>, segment: string)
    ensures forall i, j :: Decides(e, rules, segment, i) && Decides(e, rules, segment, j) ==> i == j
  {
  }

  // ---------- a deny rule only ever denies ----------

  function Insert(rules: seq<Rule>, i: nat, rule: Rule): seq<Rule>
    requires i <= |rules|
  {
    rules[..i] + [rule] + rules[i..]
  }

  lemma InsertShifts(rules: seq<Rule>, i: nat, rule: Rule)
    requires i <= |rules|
    ensures var more := Insert(rules, i, rule);
            && |more| == |rules| + 1 && more[i] == rule
            && (forall j :: 0 <= j < i ==> more[j] == rules[j])
            && (forall j :: i <= j < |rules| ==> more[j + 1] == rules[j])
  {
  }

  /** A segment allowed with an extra deny rule is allowed without it. */
  lemma DenySegment(e: Engine, rules: seq<Rule>, i: nat, rule: Rule, defaultBehavior: string, segment: string)
    requires i <= |rules| && rule.action != ALLOW
    requires SegmentAllowed(e, Insert(rules, i, rule), defaultBehavior, segment)
    ensures SegmentAllowed(e, rules, defaultBehavior, segment)
  {
    InsertShifts(rules, i, rule);
    var more := Insert(rules, i, rule);
    if d :| Decides(e, more, segment, d) && more[d].action == ALLOW {
      if d < i {
        assert Decides(e, rules, segment, d);
      } else {
        assert forall j :: i <= j < d - 1 ==> rules[j] == more[j + 1];
        assert Decides(e, rules, segment, d - 1);
      }
    } else {
      forall j | 0 <= j < |rules| ensures !Applies(e, rules[j], segment) {
        assert rules[j] == more[if j < i then j else j + 1];
      }
    }
  }

  /** Inserting a deny rule that compiles, anywhere, never turns a denied command into an
      allowed one, and never makes an evaluation fail that did not fail before. */
  lemma DenyRuleOnlyDenies(e: Engine, p: Policy, i: nat, rule: Rule, input: Option<string>)
    requires i <= |p.rules| && rule.action != ALLOW && e.compiles(rule.pattern)
    ensures var q := p.(rules := Insert(p.rules, i, rule));
            && (Allowed(e, q, input) == Some(true) ==> Allowed(e, p, input) == Some(true))
            && (Allowed(e, q, input).None? <==> Allowed(e, p, input).None?)
  {
    var q := p.(rules := Insert(p.rules, i, rule));
    InsertShifts(p.rules, i, rule);
    assert AllCompile(e, q.rules) <==> AllCompile(e, p.rules) by {
      if AllCompile(e, q.rules) {
        forall j | 0 <= j < |p.rules| && IsRuleEnabled(p.rules[j]) ensures e.compiles(p.rules[j].pattern) {
          assert p.rules[j] == q.rules[if j < i then j else j + 1];
        }
      }
      if AllCompile(e, p.rules) {
        forall j | 0 <= j < |q.rules| && IsRuleEnabled(q.rules[j]) ensures e.compiles(q.rules[j].pattern) {
          assert j != i ==> q.rules[j] == p.rules[if j < i then j else j - 1];
        }
      }
    }
    if input.Some? && CommandAllowed(e, q, Trim(input.value)) {
      var segments := Segments(Trim(input.value));
      forall k | 0 <= k < |segments| ensures SegmentAllowed(e, p.rules, p.defaultBehavior, segments[k]) {
        DenySegment(e, p.rules, i, rule, p.defaultBehavior, segments[k]);
      }
    }
  }
}
