/** Cost accounting of internal/agent/session.go: a running total is raised before a message
    with its own cost is stored and before a delegate is marked completed; a restored session
    rebuilds the total from what was stored. */
module Costs {
  import opened Options

  datatype Usage = Usage(promptTokens: nat, completionTokens: nat)

  datatype Pricing = Pricing(input: real, output: real)

  datatype Kind = AssistantMessage | OtherMessage

  datatype Message = Message(kind: Kind, usage: Option<Usage>, cost: Option<real>)

  function CalculateCost(p: Pricing, u: Usage): real {
    u.promptTokens as real * p.input / 1000000.0 + u.completionTokens as real * p.output / 1000000.0
  }

  /** The amount that recording `m` adds to the running total. */
  function Charge(p: Pricing, m: Message): real {
    if m.kind.AssistantMessage? && m.usage.Some? then CalculateCost(p, m.usage.value) else 0.0
  }

  function CostOf(m: Message): real {
    if m.cost.Some? then m.cost.value else 0.0
  }

  /** The message as stored: a loop's message always gets a positive charge as its cost, an
      external one only when it carries none. */
  function Priced(p: Pricing, m: Message, external: bool): Message {
    if Charge(p, m) > 0.0 && (external ==> m.cost.None?) then m.(cost := Some(Charge(p, m))) else m
  }

  function SumMessages(ms: seq<Message>): real {
    if ms == [] then 0.0 else SumMessages(ms[..|ms| - 1]) + CostOf(ms[|ms| - 1])
  }

  datatype Status = Running | Completed

  datatype Delegate = Delegate(status: Status, cost: real)

  ghost function SumDelegates(ds: map<string, Delegate>): real {
    if ds == map[] then 0.0
    else
      var id :| id in ds;
      ds[id].cost + SumDelegates(ds - {id})
  }

  lemma {:induction false} SumDelegatesRemove(ds: map<string, Delegate>, id: string)
    requires id in ds
    ensures SumDelegates(ds) == ds[id].cost + SumDelegates(ds - {id})
  {
    var k :| k in ds && SumDelegates(ds) == ds[k].cost + SumDelegates(ds - {k});
    if k != id {
      SumDelegatesRemove(ds - {k}, id);
      assert ds - {k} - {id} == ds - {id} - {k};
      SumDelegatesRemove(ds - {id}, k);
    }
  }

  lemma SumDelegatesUpdate(ds: map<string, Delegate>, id: string, d: Delegate)
    ensures SumDelegates(ds[id := d]) == SumDelegates(ds - {id}) + d.cost
    ensures SumDelegates(ds[id := d]) == SumDelegates(ds) + d.cost - if id in ds then ds[id].cost else 0.0
  {
    SumDelegatesRemove(ds[id := d], id);
    assert ds[id := d] - {id} == ds - {id};
    if id in ds {
      SumDelegatesRemove(ds, id);
    } else {
      assert ds - {id} == ds;
    }
  }

  lemma SumMessagesSnoc(ms: seq<Message>, m: Message)
    ensures SumMessages(ms + [m]) == SumMessages(ms) + CostOf(m)
  {
    assert (ms + [m])[..|ms|] == ms;
  }

  /** A delegate as listed in the store. */
  datatype Listed = Listed(id: string, delegate: Delegate)

  function SumListed(ds: seq<Listed>): real {
    if ds == [] then 0.0 else SumListed(ds[..|ds| - 1]) + ds[|ds| - 1].delegate.cost
  }

  function Known(ds: seq<Listed>): map<string, Delegate> {
    if ds == [] then map[] else Known(ds[..|ds| - 1])[ds[|ds| - 1].id := ds[|ds| - 1].delegate]
  }

  ghost predicate DistinctListed(ds: seq<Listed>) {
    forall i, j :: 0 <= i < j < |ds| ==> ds[i].id != ds[j].id
  }

  lemma {:induction false} KnownIDs(ds: seq<Listed>, id: string)
    ensures id in Known(ds) <==> exists k :: 0 <= k < |ds| && ds[k].id == id
  {
    if ds != [] {
      KnownIDs(ds[..|ds| - 1], id);
      assert ds[|ds| - 1].id == id ==> exists k :: 0 <= k < |ds| && ds[k].id == id;
    }
  }

  lemma {:induction false} KnownSum(ds: seq<Listed>)
    requires DistinctListed(ds)
    ensures SumDelegates(Known(ds)) == SumListed(ds)
  {
    if ds != [] {
      var n := |ds| - 1;
      KnownSum(ds[..n]);
      KnownIDs(ds[..n], ds[n].id);
      SumDelegatesUpdate(Known(ds[..n]), ds[n].id, ds[n].delegate);
    }
  }

  /** What recording `m` puts into the total beyond what it puts into storage. */
  function Mismatch(p: Pricing, m: Message, external: bool): real {
    Charge(p, m) - CostOf(Priced(p, m, external))
  }

  /** A message is charged exactly its stored cost if and only if its charge becomes its cost,
      or it has the same cost already, or there is nothing to charge and nothing preset. */
  lemma MismatchIff(p: Pricing, m: Message, external: bool)
    ensures Mismatch(p, m, external) == 0.0 <==>
            (Charge(p, m) > 0.0 && (external ==> m.cost.None?)) || Charge(p, m) == CostOf(m)
    ensures p.input >= 0.0 && p.output >= 0.0 && m.cost.None? ==> Mismatch(p, m, external) == 0.0
  {
    if m.kind.AssistantMessage? && m.usage.Some? && p.input >= 0.0 && p.output >= 0.0 {
      var u := m.usage.value;
      assert u.promptTokens as real * p.input >= 0.0 && u.completionTokens as real * p.output >= 0.0;
    }
  }

  /** The cost fields of a session manager. */
  class Ledger {
    var totalCost: real
    var pricing: Pricing
    var messages: seq<Message>
    var delegates: map<string, Delegate>

    /** The total beyond what storage accounts for. */
    ghost function Drift(): real
      reads this
    {
      totalCost - SumMessages(messages) - SumDelegates(delegates)
    }

    /** Restores a session: the total is rebuilt from its messages and its delegates, all of
        those listed, while of delegates with the same id only the last is kept. */
    constructor (pricing: Pricing, history: seq<Message>, stored: seq<Listed>)
      ensures messages == history && delegates == Known(stored)
      ensures totalCost == SumMessages(history) + SumListed(stored)
      ensures DistinctListed(stored) ==> Drift() == 0.0
    {
      this.pricing := pricing;
      var total := 0.0;
      for i := 0 to |history|
        invariant total == SumMessages(history[..i])
      {
        assert history[..i + 1] == history[..i] + [history[i]];
        SumMessagesSnoc(history[..i], history[i]);
        if history[i].cost.Some? {
          total := total + history[i].cost.value;
        }
      }
      assert history[..|history|] == history;
      var known: map<string, Delegate> := map[];
      for i := 0 to |stored|
        invariant known == Known(stored[..i]) && total == SumMessages(history) + SumListed(stored[..i])
      {
        assert stored[..i + 1][..i] == stored[..i];
        total := total + stored[i].delegate.cost;
        known := known[stored[i].id := stored[i].delegate];
      }
      assert stored[..|stored|] == stored;
      totalCost, messages, delegates := total, history, known;
      if DistinctListed(stored) {
        KnownSum(stored);
      }
    }

    method AddCost(cost: real)
      modifies this`totalCost
      ensures totalCost == old(totalCost) + cost && Drift() == old(Drift()) + cost
    {
      totalCost := totalCost + cost;
    }

    method AppendMessage(m: Message)
      modifies this`messages
      ensures messages == old(messages) + [m] && Drift() == old(Drift()) - CostOf(m)
    {
      SumMessagesSnoc(messages, m);
      messages := messages + [m];
    }

    method RecordMessage(m: Message, external: bool)
      modifies this`totalCost, this`messages
      ensures messages == old(messages) + [Priced(pricing, m, external)]
      ensures Drift() == old(Drift()) + Mismatch(pricing, m, external)
    {
      var msg := m;
      if m.kind.AssistantMessage? && m.usage.Some? {
        var cost := CalculateCost(pricing, m.usage.value);
        if cost > 0.0 && (!external || m.cost.None?) {
          msg := m.(cost := Some(cost));
        }
        AddCost(cost);
      }
      AppendMessage(msg);
    }

    method SetDelegateStarted(id: string)
      modifies this`delegates
      ensures delegates == old(delegates)[id := Delegate(Running, 0.0)]
      ensures id !in old(delegates) ==> Drift() == old(Drift())
    {
      SumDelegatesUpdate(delegates, id, Delegate(Running, 0.0));
      delegates := delegates[id := Delegate(Running, 0.0)];
    }

    method SetDelegateCompleted(id: string, cost: real)
      modifies this`delegates
      ensures delegates == if id in old(delegates) then old(delegates)[id := Delegate(Completed, cost)] else old(delegates)
      ensures Drift() == old(Drift()) - if id in old(delegates) then cost - old(delegates)[id].cost else 0.0
    {
      if id in delegates {
        SumDelegatesUpdate(delegates, id, Delegate(Completed, cost));
        delegates := delegates[id := Delegate(Completed, cost)];
      }
    }
  }

  // ---------- every interleaving ----------

  /** The running total of a session, its stored messages, and the messages that are charged
      already and not stored yet. */
  datatype Account = Account(total: real, messages: seq<Message>, charged: seq<Message>)

  function ChargeTo(a: Account, p: Pricing, m: Message, external: bool): Account {
    a.(total := a.total + Charge(p, m), charged := a.charged + [Priced(p, m, external)])
  }

  function StoreTo(a: Account, k: nat): Account
    requires k < |a.charged|
  {
    a.(messages := a.messages + [a.charged[k]], charged := a.charged[..k] + a.charged[k + 1..])
  }

  function Stored(a: Account): real {
    SumMessages(a.messages)
  }

  /** A delegate runs in a session of its own, whose total is added to the parent's when it ends. */
  datatype Delegated = Delegated(account: Account, running: bool)

  datatype State = State(own: Account, subs: seq<Delegated>)

  /** Goroutines record messages and run delegates at the same time. Charging a message and storing
      it are separate steps; `p` is the pricing in force when the charge was computed. A delegate
      ends when its loop has returned, so with all its messages stored. */
  datatype Op =
    | ChargeMessage(p: Pricing, m: Message, external: bool)
    | StoreMessage(k: nat)
    | StartDelegate
    | DelegateCharges(d: nat, p: Pricing, m: Message)
    | DelegateStores(d: nat, k: nat)
    | DelegateEnds(d: nat)

  predicate Runs(s: State, d: nat) {
    d < |s.subs| && s.subs[d].running
  }

  function SetSub(s: State, d: nat, a: Account, running: bool): State
    requires d < |s.subs|
  {
    s.(subs := s.subs[d := Delegated(a, running)])
  }

  /** A delegate's messages are recorded as external ones; a step that is not enabled does nothing. */
  function Do(s: State, op: Op): State {
    match op
    case ChargeMessage(p, m, external) => s.(own := ChargeTo(s.own, p, m, external))
    case StoreMessage(k) => if k < |s.own.charged| then s.(own := StoreTo(s.own, k)) else s
    case StartDelegate => s.(subs := s.subs + [Delegated(Account(0.0, [], []), true)])
    case DelegateCharges(d, p, m) =>
      if Runs(s, d) then SetSub(s, d, ChargeTo(s.subs[d].account, p, m, true), true) else s
    case DelegateStores(d, k) =>
      if Runs(s, d) && k < |s.subs[d].account.charged| then SetSub(s, d, StoreTo(s.subs[d].account, k), true) else s
    case DelegateEnds(d) =>
      if Runs(s, d) && s.subs[d].account.charged == []
      then SetSub(s, d, s.subs[d].account, false).(own := s.own.(total := s.own.total + s.subs[d].account.total))
      else s
  }

  function Run(s: State, ops: seq<Op>): State {
    if ops == [] then s else Do(Run(s, ops[..|ops| - 1]), ops[|ops| - 1])
  }

  function SumSubs(subs: seq<Delegated>, f: Delegated -> real): real {
    if subs == [] then 0.0 else SumSubs(subs[..|subs| - 1], f) + f(subs[|subs| - 1])
  }

  function AnyStored(): Delegated -> real {
    (d: Delegated) => Stored(d.account)
  }

  function EndedStored(): Delegated -> real {
    (d: Delegated) => if d.running then 0.0 else Stored(d.account)
  }

  function RunningStored(): Delegated -> real {
    (d: Delegated) => if d.running then Stored(d.account) else 0.0
  }

  /** What a reactivated session computes: the stored costs of its messages and of the messages of
      all its sub-sessions, whether those have ended or not. */
  function RestoredCost(s: State): real {
    Stored(s.own) + SumSubs(s.subs, AnyStored())
  }

  /** The state of a reactivated session, given its stored messages and those of its sub-sessions. */
  function Reactivated(messages: seq<Message>, subs: seq<seq<Message>>): State {
    var ds := seq(|subs|, k requires 0 <= k < |subs| => Delegated(Account(SumMessages(subs[k]), subs[k], []), false));
    State(Account(SumMessages(messages) + SumSubs(ds, AnyStored()), messages, []), ds)
  }

  /** What a delegate's charges put into its total beyond what they put into storage. */
  function SubDrift(start: State, ops: seq<Op>, d: nat): real {
    if ops == [] then 0.0
    else
      var n := |ops| - 1;
      var op := ops[n];
      SubDrift(start, ops[..n], d) +
      if op.DelegateCharges? && op.d == d && Runs(Run(start, ops[..n]), d) then Mismatch(op.p, op.m, true) else 0.0
  }

  /** The same for the whole session: the mismatches of its own messages, and those of each delegate
      when it ends. */
  function Drift(start: State, ops: seq<Op>): real {
    if ops == [] then 0.0
    else
      var n := |ops| - 1;
      var op, s := ops[n], Run(start, ops[..n]);
      Drift(start, ops[..n]) +
      if op.ChargeMessage? then Mismatch(op.p, op.m, op.external)
      else if op.DelegateEnds? && Runs(s, op.d) && s.subs[op.d].account.charged == [] then SubDrift(start, ops[..n], op.d)
      else 0.0
  }

  lemma {:induction false} SumMessagesConcat(a: seq<Message>, b: seq<Message>)
    ensures SumMessages(a + b) == SumMessages(a) + SumMessages(b)
  {
    if b == [] {
      assert a + b == a;
    } else {
      SumMessagesConcat(a, b[..|b| - 1]);
      assert a + b == (a + b[..|b| - 1]) + [b[|b| - 1]];
      SumMessagesSnoc(a + b[..|b| - 1], b[|b| - 1]);
    }
  }

  lemma StoreSum(ms: seq<Message>, k: nat)
    requires k < |ms|
    ensures SumMessages(ms) == SumMessages(ms[..k] + ms[k + 1..]) + CostOf(ms[k])
  {
    var a, m, b := ms[..k], ms[k], ms[k + 1..];
    SumMessagesConcat(a + [m], b);
    SumMessagesSnoc(a, m);
    SumMessagesConcat(a, b);
    assert ms == (a + [m]) + b;
  }

  lemma SumSubsSnoc(subs: seq<Delegated>, d: Delegated, f: Delegated -> real)
    ensures SumSubs(subs + [d], f) == SumSubs(subs, f) + f(d)
  {
    assert (subs + [d])[..|subs|] == subs;
  }

  lemma {:induction false} SumSubsUpdate(subs: seq<Delegated>, k: nat, d: Delegated, f: Delegated -> real)
    requires k < |subs|
    ensures SumSubs(subs[k := d], f) == SumSubs(subs, f) - f(subs[k]) + f(d)
  {
    var n := |subs| - 1;
    if k < n {
      SumSubsUpdate(subs[..n], k, d, f);
      assert subs[k := d][..n] == subs[..n][k := d];
    } else {
      assert subs[k := d][..n] == subs[..n];
    }
  }

  lemma {:induction false} SumSubsSplit(subs: seq<Delegated>)
    ensures SumSubs(subs, AnyStored()) == SumSubs(subs, EndedStored()) + SumSubs(subs, RunningStored())
  {
    if subs != [] {
      SumSubsSplit(subs[..|subs| - 1]);
    }
  }

  /** Charged but not stored counts as stored, for the balance of one account. */
  function Worth(a: Account): real {
    Stored(a) + SumMessages(a.charged)
  }

  lemma ChargeWorth(a: Account, p: Pricing, m: Message, external: bool)
    ensures ChargeTo(a, p, m, external).total - Worth(ChargeTo(a, p, m, external)) == a.total - Worth(a) + Mismatch(p, m, external)
    ensures Stored(ChargeTo(a, p, m, external)) == Stored(a)
  {
    SumMessagesSnoc(a.charged, Priced(p, m, external));
  }

  lemma StoreWorth(a: Account, k: nat)
    requires k < |a.charged|
    ensures Worth(StoreTo(a, k)) == Worth(a)
  {
    StoreSum(a.charged, k);
    SumMessagesSnoc(a.messages, a.charged[k]);
  }

  /** A running delegate's account is off by its own mismatches. */
  ghost predicate SubInv(start: State, ops: seq<Op>, d: nat) {
    Runs(Run(start, ops), d) ==>
      var a := Run(start, ops).subs[d].account;
      a.total == Worth(a) + SubDrift(start, ops, d)
  }

  /** The session's account is off by the drift and what its ended delegates have stored. */
  ghost predicate OwnInv(start: State, ops: seq<Op>) {
    var s := Run(start, ops);
    s.own.total == Worth(s.own) + SumSubs(s.subs, EndedStored()) + Drift(start, ops)
  }

  lemma FreshSub(start: State, ops: seq<Op>, d: nat)
    requires |start.subs| <= d && |Run(start, ops).subs| <= d
    ensures SubDrift(start, ops, d) == 0.0
  {
    if ops != [] {
      SubsGrow(Run(start, ops[..|ops| - 1]), ops[|ops| - 1]);
      FreshSub(start, ops[..|ops| - 1], d);
    }
  }

  lemma SubsGrow(s: State, op: Op)
    ensures |s.subs| <= |Do(s, op).subs|
  {
  }

  lemma {:induction false} SubsGrowAll(s: State, ops: seq<Op>)
    ensures |s.subs| <= |Run(s, ops).subs|
  {
    if ops != [] {
      SubsGrowAll(s, ops[..|ops| - 1]);
      SubsGrow(Run(s, ops[..|ops| - 1]), ops[|ops| - 1]);
    }
  }

  ghost predicate IsReactivated(start: State) {
    exists messages, subs :: start == Reactivated(messages, subs)
  }

  lemma {:induction false} SubBalance(start: State, ops: seq<Op>, d: nat)
    requires IsReactivated(start)
    ensures SubInv(start, ops, d)
  {
    if ops != [] {
      var n := |ops| - 1;
      var s, op := Run(start, ops[..n]), ops[n];
      SubBalance(start, ops[..n], d);
      match op
      case ChargeMessage(_, _, _) =>
      case StoreMessage(_) =>
      case StartDelegate =>
        SubsGrowAll(start, ops[..n]);
        if d == |s.subs| {
          FreshSub(start, ops[..n], d);
        }
      case DelegateCharges(e, p, m) => if Runs(s, e) { ChargeWorth(s.subs[e].account, p, m, true); }
      case DelegateStores(e, k) => if Runs(s, e) && k < |s.subs[e].account.charged| { StoreWorth(s.subs[e].account, k); }
      case DelegateEnds(_) =>
    }
  }

  lemma SetSubSums(s: State, d: nat, a: Account, running: bool)
    requires d < |s.subs|
    ensures SumSubs(SetSub(s, d, a, running).subs, EndedStored()) ==
            SumSubs(s.subs, EndedStored()) - EndedStored()(s.subs[d]) + if running then 0.0 else Stored(a)
  {
    SumSubsUpdate(s.subs, d, Delegated(a, running), EndedStored());
  }

  lemma EndsBalance(start: State, ops: seq<Op>, d: nat)
    requires IsReactivated(start) && OwnInv(start, ops)
    requires Runs(Run(start, ops), d) && Run(start, ops).subs[d].account.charged == []
    ensures var s, t := Run(start, ops), Do(Run(start, ops), DelegateEnds(d));
            t.own.total == Worth(t.own) + SumSubs(t.subs, EndedStored()) + Drift(start, ops) + SubDrift(start, ops, d)
  {
    var s := Run(start, ops);
    SubBalance(start, ops, d);
    SetSubSums(s, d, s.subs[d].account, false);
  }

  /** What the session's total is beyond what is accounted for. */
  function Excess(s: State): real {
    s.own.total - Worth(s.own) - SumSubs(s.subs, EndedStored())
  }

  lemma OwnStep(s: State, op: Op)
    ensures match op
            case ChargeMessage(p, m, external) => Excess(Do(s, op)) == Excess(s) + Mismatch(p, m, external)
            case DelegateEnds(_) => true
            case _ => Excess(Do(s, op)) == Excess(s)
  {
    match op
    case ChargeMessage(p, m, external) => ChargeWorth(s.own, p, m, external);
    case StoreMessage(k) => if k < |s.own.charged| { StoreWorth(s.own, k); }
    case StartDelegate => SumSubsSnoc(s.subs, Delegated(Account(0.0, [], []), true), EndedStored());
    case DelegateCharges(d, p, m) => if Runs(s, d) { SetSubSums(s, d, ChargeTo(s.subs[d].account, p, m, true), true); }
    case DelegateStores(d, k) =>
      if Runs(s, d) && k < |s.subs[d].account.charged| { SetSubSums(s, d, StoreTo(s.subs[d].account, k), true); }
    case DelegateEnds(_) =>
  }

  lemma {:induction false} OwnBalance(start: State, ops: seq<Op>)
    requires IsReactivated(start)
    ensures OwnInv(start, ops)
  {
    if ops == [] {
      ReactivatedBalance(start);
    } else {
      var n := |ops| - 1;
      var s, op := Run(start, ops[..n]), ops[n];
      OwnBalance(start, ops[..n]);
      if op.DelegateEnds? {
        if Runs(s, op.d) && s.subs[op.d].account.charged == [] {
          EndsBalance(start, ops[..n], op.d);
        }
      } else {
        OwnStep(s, op);
      }
    }
  }

  lemma ReactivatedBalance(start: State)
    requires IsReactivated(start)
    ensures start.own.total == Worth(start.own) + SumSubs(start.subs, EndedStored())
    ensures start.own.total == RestoredCost(start)
  {
    EndedOnly(start.subs);
  }

  lemma {:induction false} EndedOnly(subs: seq<Delegated>)
    requires forall k :: 0 <= k < |subs| ==> !subs[k].running
    ensures SumSubs(subs, AnyStored()) == SumSubs(subs, EndedStored())
  {
    if subs != [] {
      EndedOnly(subs[..|subs| - 1]);
    }
  }

  /** From any reactivated session on, in every interleaving and with no message of its own between
      charging and storing: the live total is what the session would be reactivated with if and
      only if the mismatches add up to what delegates still at work have stored. */
  lemma RestoredTotal(start: State, ops: seq<Op>)
    requires IsReactivated(start) && Run(start, ops).own.charged == []
    ensures var s := Run(start, ops);
            s.own.total == RestoredCost(s) <==> Drift(start, ops) == SumSubs(s.subs, RunningStored())
  {
    OwnBalance(start, ops);
    SumSubsSplit(Run(start, ops).subs);
  }

  function StoredBy(subs: seq<Delegated>): seq<seq<Message>> {
    seq(|subs|, k requires 0 <= k < |subs| => subs[k].account.messages)
  }

  lemma {:induction false} SameStored(a: seq<Delegated>, b: seq<Delegated>)
    requires |a| == |b| && forall k :: 0 <= k < |a| ==> a[k].account.messages == b[k].account.messages
    ensures SumSubs(a, AnyStored()) == SumSubs(b, AnyStored())
  {
    if a != [] {
      SameStored(a[..|a| - 1], b[..|b| - 1]);
    }
  }

  /** A session reactivated from what is stored starts with that cost. */
  lemma ReactivatedCost(s: State)
    ensures Reactivated(s.own.messages, StoredBy(s.subs)).own.total == RestoredCost(s)
  {
    SameStored(Reactivated(s.own.messages, StoredBy(s.subs)).subs, s.subs);
  }

  // ---------- what the total is made of ----------

  /** Prompt tokens at the input price and completion tokens at the output price, per million, for a
      model's message that tells its usage. */
  function Bill(p: Pricing, m: Message): real {
    match m
    case Message(AssistantMessage, Some(Usage(x, y)), _) => (p.input * x as real + p.output * y as real) / 1000000.0
    case _ => 0.0
  }

  /** What delegate `d` was billed so far. */
  function SubBill(start: State, ops: seq<Op>, d: nat): real {
    if ops == [] then 0.0
    else
      var n := |ops| - 1;
      var op := ops[n];
      SubBill(start, ops[..n], d) + if op.DelegateCharges? && op.d == d && Runs(Run(start, ops[..n]), d) then Bill(op.p, op.m) else 0.0
  }

  /** What the session was billed: its own messages, and each delegate's when it ended. */
  function TotalBill(start: State, ops: seq<Op>): real {
    if ops == [] then 0.0
    else
      var n := |ops| - 1;
      var op, s := ops[n], Run(start, ops[..n]);
      TotalBill(start, ops[..n]) +
      match op
      case ChargeMessage(p, m, _) => Bill(p, m)
      case DelegateEnds(d) => if Runs(s, d) && s.subs[d].account.charged == [] then SubBill(start, ops[..n], d) else 0.0
      case _ => 0.0
  }

  lemma ChargeIsBill(p: Pricing, m: Message)
    ensures Charge(p, m) == Bill(p, m)
  {
    if m.kind.AssistantMessage? && m.usage.Some? {
      var u := m.usage.value;
      assert u.promptTokens as real * p.input == p.input * u.promptTokens as real;
      assert u.completionTokens as real * p.output == p.output * u.completionTokens as real;
    }
  }

  lemma FreshBill(start: State, ops: seq<Op>, d: nat)
    requires |start.subs| <= d && |Run(start, ops).subs| <= d
    ensures SubBill(start, ops, d) == 0.0
  {
    if ops != [] {
      SubsGrow(Run(start, ops[..|ops| - 1]), ops[|ops| - 1]);
      FreshBill(start, ops[..|ops| - 1], d);
    }
  }

  lemma SubStep(s: State, op: Op, d: nat)
    requires Runs(Do(s, op), d)
    ensures d < |s.subs| ==> Runs(s, d)
    ensures Do(s, op).subs[d].account.total ==
            (if d < |s.subs| then s.subs[d].account.total else 0.0) + if op.DelegateCharges? && op.d == d then Charge(op.p, op.m) else 0.0
  {
  }

  lemma {:induction false} SubIsBilled(start: State, ops: seq<Op>, d: nat)
    requires IsReactivated(start) && Runs(Run(start, ops), d)
    ensures Run(start, ops).subs[d].account.total == SubBill(start, ops, d)
  {
    if ops != [] {
      var n := |ops| - 1;
      var s, op := Run(start, ops[..n]), ops[n];
      SubStep(s, op, d);
      if d < |s.subs| {
        SubIsBilled(start, ops[..n], d);
      } else {
        SubsGrowAll(start, ops[..n]);
        FreshBill(start, ops[..n], d);
      }
      if op.DelegateCharges? {
        ChargeIsBill(op.p, op.m);
      }
    }
  }

  /** In every interleaving, the live total has grown by exactly what the tokens of its messages and
      of its ended delegates' messages cost at the prices in force. */
  lemma {:induction false} TotalIsBilled(start: State, ops: seq<Op>)
    requires IsReactivated(start)
    ensures Run(start, ops).own.total == start.own.total + TotalBill(start, ops)
  {
    if ops != [] {
      var n := |ops| - 1;
      TotalIsBilled(start, ops[..n]);
      if ops[n].ChargeMessage? {
        ChargeIsBill(ops[n].p, ops[n].m);
      }
      if ops[n].DelegateEnds? && Runs(Run(start, ops[..n]), ops[n].d) {
        SubIsBilled(start, ops[..n], ops[n].d);
      }
    }
  }

  // ---------- when the totals agree ----------

  /** Prices are not negative and no message comes with a cost of its own. */
  ghost predicate IsOrdinary(p: Pricing, m: Message) {
    p.input >= 0.0 && p.output >= 0.0 && m.cost.None?
  }

  ghost predicate Ordinary(ops: seq<Op>) {
    forall k :: 0 <= k < |ops| && (ops[k].ChargeMessage? || ops[k].DelegateCharges?) ==> IsOrdinary(ops[k].p, ops[k].m)
  }

  lemma {:induction false} NoSubDrift(start: State, ops: seq<Op>, d: nat)
    requires Ordinary(ops)
    ensures SubDrift(start, ops, d) == 0.0
  {
    if ops != [] {
      var op := ops[|ops| - 1];
      NoSubDrift(start, ops[..|ops| - 1], d);
      if op.DelegateCharges? {
        MismatchIff(op.p, op.m, true);
      }
    }
  }

  lemma {:induction false} NoDrift(start: State, ops: seq<Op>)
    requires Ordinary(ops)
    ensures Drift(start, ops) == 0.0
  {
    if ops != [] {
      var op := ops[|ops| - 1];
      NoDrift(start, ops[..|ops| - 1]);
      if op.ChargeMessage? {
        MismatchIff(op.p, op.m, op.external);
      }
      if op.DelegateEnds? {
        NoSubDrift(start, ops[..|ops| - 1], op.d);
      }
    }
  }

  lemma {:induction false} NoneRunning(subs: seq<Delegated>)
    requires forall k :: 0 <= k < |subs| ==> !subs[k].running
    ensures SumSubs(subs, RunningStored()) == 0.0
  {
    if subs != [] {
      NoneRunning(subs[..|subs| - 1]);
    }
  }

  /** With prices that are not negative and no preset costs, a session that is between messages and
      has no delegate at work has the total that it would be reactivated with. */
  lemma CostConservation(start: State, ops: seq<Op>)
    requires IsReactivated(start) && Ordinary(ops) && Run(start, ops).own.charged == []
    requires forall d :: 0 <= d < |Run(start, ops).subs| ==> !Run(start, ops).subs[d].running
    ensures Run(start, ops).own.total == RestoredCost(Run(start, ops))
  {
    NoDrift(start, ops);
    NoneRunning(Run(start, ops).subs);
    RestoredTotal(start, ops);
  }

  /** A million tokens. */
  const M := Message(AssistantMessage, Some(Usage(1000000, 0)), None)

  const EMPTY := State(Account(0.0, [], []), [])

  /** A negative price lowers the total but is not stored with the message. */
  lemma NegativePriceDrifts()
    ensures var s := Do(Do(EMPTY, ChargeMessage(Pricing(-1.0, 0.0), M, false)), StoreMessage(0));
            s.own.charged == [] && s.subs == [] && s.own.total == -1.0 && RestoredCost(s) == 0.0
  {
    var a := ChargeTo(EMPTY.own, Pricing(-1.0, 0.0), M, false);
    assert a.charged == [M] && [M][..0] + [M][1..] == [];
    assert StoreTo(a, 0).messages == [M] && [M][..0] == [];
    assert SumMessages([M]) == 0.0;
  }

  /** A session reactivated while a delegate is at work counts costs that the live total lacks. */
  lemma RunningDelegateCountsEarly()
    ensures var s := Do(Do(Do(EMPTY, StartDelegate), DelegateCharges(0, Pricing(1.0, 0.0), M)), DelegateStores(0, 0));
            s.own.charged == [] && s.own.total == 0.0 && RestoredCost(s) == 1.0
  {
    var paid := M.(cost := Some(1.0));
    var s1 := Do(EMPTY, StartDelegate);
    var s2 := Do(s1, DelegateCharges(0, Pricing(1.0, 0.0), M));
    var s3 := Do(s2, DelegateStores(0, 0));
    assert s1.subs == [Delegated(Account(0.0, [], []), true)];
    assert [] + [paid] == [paid];
    assert s2.subs == [Delegated(Account(1.0, [], [paid]), true)];
    assert [paid][..0] + [paid][1..] == [];
    var sub := Delegated(Account(1.0, [paid], []), true);
    assert s3.subs == [sub];
    assert [paid][..0] == [] && SumMessages([paid]) == 1.0;
    assert [] + [sub] == [sub];
    SumSubsSnoc([], sub, AnyStored());
  }
}
