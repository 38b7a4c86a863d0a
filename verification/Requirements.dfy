/** Collection of the agent requirements of a DAG graph, internal/agent/snapshot.go: a
    recursive search through steps, handlers and local DAGs, with calls between DAGs that may
    form cycles, and a set of visited names that is updated on the way. */
module Requirements {
  import opened Options
  import opened Text

  type Ref = nat

  datatype Agent = Agent(model: string, soul: string, memoryEnabled: bool)

  datatype Step = Step(agent: Option<Agent>, subDAG: Option<string>)

  /** An entry may lack its DAG. */
  datatype Local = Local(name: string, dag: Option<Ref>)

  /** Handlers are the six optional lifecycle handlers; locals are listed in name order. */
  datatype Dag = Dag(name: string, steps: seq<Step>, handlers: seq<Option<Step>>, locals: seq<Local>)

  datatype Resolution = Failed | Missing | Found(dag: Ref)

  /** All DAGs in play, and the resolver if there is one. */
  datatype World = World(dags: map<Ref, Dag>, resolve: Option<string -> Resolution>)

  ghost predicate Closed(w: World) {
    && (forall d, k :: d in w.dags && 0 <= k < |w.dags[d].locals| && w.dags[d].locals[k].dag.Some? ==> w.dags[d].locals[k].dag.value in w.dags)
    && (w.resolve.Some? ==> forall name :: w.resolve.value(name).Found? ==> w.resolve.value(name).dag in w.dags)
  }

  function LookUp(locals: seq<Local>, name: string): Option<Ref> {
    if locals == [] then None
    else if locals[0].name == name then locals[0].dag
    else LookUp(locals[1..], name)
  }

  /** Where a step leads: a local DAG first, then whatever the resolver says. */
  function Target(w: World, d: Ref, step: Step): Resolution
    requires d in w.dags
  {
    if step.subDAG.None? then Missing
    else
      var name := Trim(step.subDAG.value);
      if name == "" || Contains(name, "${") then Missing
      else
        var local := LookUp(w.dags[d].locals, name);
        if local.Some? then Found(local.value)
        else if w.resolve.None? then Missing
        else w.resolve.value(name)
  }

  /** The handlers that are there. */
  function Present(handlers: seq<Option<Step>>): seq<Step> {
    if handlers == [] then []
    else
      var n := |handlers| - 1;
      if handlers[n].Some? then Present(handlers[..n]) + [handlers[n].value] else Present(handlers[..n])
  }

  /** One thing that a snapshot must carry. */
  datatype Need = Model(id: string) | Soul(id: string) | MemoryOf(dag: string) | AgentSteps | DefaultModel | Memory

  predicate StepNeeds(dag: Dag, step: Step, x: Need) {
    step.agent.Some? &&
    var a := step.agent.value;
    match x
    case AgentSteps => true
    case DefaultModel => a.model == ""
    case Model(id) => a.model != "" && id == a.model
    case Soul(id) => Trim(a.soul) != "" && id == Trim(a.soul)
    case Memory => a.memoryEnabled
    case MemoryOf(name) => a.memoryEnabled && dag.name != "" && name == dag.name
  }

  ghost predicate StepsNeed(dag: Dag, steps: seq<Step>, x: Need) {
    exists k :: 0 <= k < |steps| && StepNeeds(dag, steps[k], x)
  }

  /** The step is one of the DAG's, or one of its handlers. */
  predicate Runs(dag: Dag, step: Step) {
    step in dag.steps || Some(step) in dag.handlers
  }

  ghost predicate DagNeeds(dag: Dag, x: Need) {
    exists step :: Runs(dag, step) && StepNeeds(dag, step, x)
  }

  /** Some step or handler of some of these DAGs needs `x`. */
  ghost predicate Needed(w: World, ds: set<Ref>, x: Need)
    requires ds <= w.dags.Keys
  {
    exists d :: d in ds && DagNeeds(w.dags[d], x)
  }

  // ---------- where a step leads ----------

  /** The step calls a DAG by a name that is not blank and holds no parameter. */
  ghost predicate Calls(step: Step, name: string) {
    step.subDAG.Some? && name == Trim(step.subDAG.value) && name != "" && !exists a, b :: name == a + "${" + b
  }

  /** The entry of that name holds `e`. */
  ghost predicate Holds(dag: Dag, name: string, e: Ref) {
    exists k :: 0 <= k < |dag.locals| && dag.locals[k] == Local(name, Some(e)) && forall j :: 0 <= j < k ==> dag.locals[j].name != name
  }

  /** A local DAG of the name wins; otherwise the resolver decides. */
  ghost predicate LeadsTo(w: World, d: Ref, step: Step, e: Ref)
    requires d in w.dags
  {
    exists name :: Calls(step, name) &&
      (Holds(w.dags[d], name, e)
       || ((forall f :: !Holds(w.dags[d], name, f)) && w.resolve.Some? && w.resolve.value(name) == Found(e)))
  }

  /** No local DAG has the name and the resolver fails on it. */
  ghost predicate Unresolvable(w: World, d: Ref, step: Step)
    requires d in w.dags
  {
    exists name :: Calls(step, name) && (forall f :: !Holds(w.dags[d], name, f)) && w.resolve.Some? && w.resolve.value(name).Failed?
  }

  lemma {:induction false} LookUpMeans(dag: Dag, locals: seq<Local>, n: nat, name: string, e: Ref)
    requires n <= |dag.locals| && locals == dag.locals[n..] && forall j :: 0 <= j < n ==> dag.locals[j].name != name
    ensures LookUp(locals, name) == Some(e) <==> Holds(dag, name, e)
  {
    if locals != [] {
      assert locals[0] == dag.locals[n];
      if locals[0].name != name {
        LookUpMeans(dag, locals[1..], n + 1, name, e);
      } else if locals[0].dag == Some(e) {
        assert dag.locals[n] == Local(name, Some(e));
      }
    }
  }

  /** What the search follows is where the step leads. */
  lemma TargetMeans(w: World, d: Ref, step: Step)
    requires d in w.dags
    ensures forall e :: Target(w, d, step) == Found(e) <==> LeadsTo(w, d, step, e)
    ensures Target(w, d, step).Failed? <==> Unresolvable(w, d, step)
  {
    if step.subDAG.Some? {
      var dag, name := w.dags[d], Trim(step.subDAG.value);
      ContainsMeans(name, "${");
      forall e: Ref ensures LookUp(dag.locals, name) == Some(e) <==> Holds(dag, name, e) {
        LookUpMeans(dag, dag.locals, 0, name, e);
      }
      assert name != "" && !Contains(name, "${") ==> Calls(step, name);
    }
  }

  lemma {:induction false} PresentMeans(handlers: seq<Option<Step>>, step: Step)
    ensures step in Present(handlers) <==> Some(step) in handlers
  {
    if handlers != [] {
      var n := |handlers| - 1;
      PresentMeans(handlers[..n], step);
      assert handlers == handlers[..n] + [handlers[n]];
    }
  }

  // ---------- reachability ----------

  /** DAG `d` runs or holds DAG `e`. */
  ghost predicate Edge(w: World, d: Ref, e: Ref) {
    && d in w.dags && e in w.dags
    && ((exists step :: Runs(w.dags[d], step) && LeadsTo(w, d, step, e))
        || (exists k :: 0 <= k < |w.dags[d].locals| && w.dags[d].locals[k].dag == Some(e)))
  }

  ghost predicate IsPath(w: World, p: seq<Ref>) {
    p != [] && p[0] in w.dags && forall k :: 0 <= k < |p| - 1 ==> Edge(w, p[k], p[k + 1])
  }

  ghost predicate Reaches(w: World, d: Ref, e: Ref) {
    exists p :: IsPath(w, p) && p[0] == d && p[|p| - 1] == e
  }

  /** Some step of `d` cannot be resolved. */
  ghost predicate Broken(w: World, d: Ref)
    requires d in w.dags
  {
    exists step :: Runs(w.dags[d], step) && Unresolvable(w, d, step)
  }

  lemma ReachesSelf(w: World, d: Ref)
    requires d in w.dags
    ensures Reaches(w, d, d)
  {
    assert IsPath(w, [d]);
  }

  lemma ReachesThrough(w: World, d: Ref, e: Ref, f: Ref)
    requires Edge(w, d, e) && Reaches(w, e, f)
    ensures Reaches(w, d, f)
  {
    var p :| IsPath(w, p) && p[0] == e && p[|p| - 1] == f;
    var q := [d] + p;
    forall k | 0 <= k < |q| - 1 ensures Edge(w, q[k], q[k + 1]) {
      assert k > 0 ==> Edge(w, p[k - 1], p[k - 1 + 1]);
    }
    assert IsPath(w, q) && q[|q| - 1] == f;
  }

  /** A set of DAGs closed under edges contains all that its members reach. */
  lemma {:induction false} ClosedUnderReach(w: World, s: set<Ref>, p: seq<Ref>)
    requires IsPath(w, p) && p[0] in s
    requires forall d, e :: d in s && Edge(w, d, e) ==> e in s
    ensures p[|p| - 1] in s
  {
    if |p| > 1 {
      var q := p[..|p| - 1];
      assert forall k :: 0 <= k < |q| - 1 ==> Edge(w, p[k], p[k + 1]);
      ClosedUnderReach(w, s, q);
      assert Edge(w, p[|p| - 2], p[|p| - 2 + 1]);
    }
  }

  lemma ReachableInside(w: World, d: Ref, e: Ref)
    requires Reaches(w, d, e)
    ensures e in w.dags
  {
    var p :| IsPath(w, p) && p[0] == d && p[|p| - 1] == e;
    if |p| > 1 {
      assert Edge(w, p[|p| - 2], p[|p| - 2 + 1]);
    }
  }

  // ---------- the search ----------

  /** The step leads nowhere, or to a DAG whose name has been visited. */
  ghost predicate Followed(w: World, d: Ref, step: Step, visited: set<string>)
    requires d in w.dags && Closed(w)
  {
    var t := Target(w, d, step);
    TargetInside(w, d, step);
    !t.Failed? && (t.Found? ==> w.dags[t.dag].name in visited)
  }

  ghost predicate Expanded(w: World, d: Ref, visited: set<string>)
    requires d in w.dags && Closed(w)
  {
    && (forall step :: Runs(w.dags[d], step) ==> Followed(w, d, step, visited))
    && (forall k :: 0 <= k < |w.dags[d].locals| ==> LocalVisited(w, w.dags[d].locals[k], visited))
  }

  ghost predicate LocalVisited(w: World, local: Local, visited: set<string>) {
    local.dag.Some? ==> local.dag.value in w.dags && w.dags[local.dag.value].name in visited
  }

  lemma TargetInside(w: World, d: Ref, step: Step)
    requires d in w.dags && Closed(w)
    ensures Target(w, d, step).Found? ==> Target(w, d, step).dag in w.dags
  {
    if step.subDAG.Some? {
      LookUpInside(w.dags[d].locals, Trim(step.subDAG.value));
    }
  }

  lemma {:induction false} LookUpInside(locals: seq<Local>, name: string)
    ensures LookUp(locals, name).Some? ==> exists k :: 0 <= k < |locals| && locals[k].dag == LookUp(locals, name)
  {
    if locals != [] && locals[0].name != name {
      LookUpInside(locals[1..], name);
    }
  }

  /** What one part of the search has done: which DAGs it opened, that they are reachable
      from where it started, and that, unless it failed, they are fully followed up. */
  ghost predicate Searched(w: World, start: Ref, found: set<Ref>, visited: set<string>, ok: bool)
    requires Closed(w)
  {
    && found <= w.dags.Keys
    && (forall e :: e in found ==> Reaches(w, start, e))
    && (ok ==> forall e :: e in found ==> Expanded(w, e, visited))
    && (!ok ==> exists e :: e in w.dags && Reaches(w, start, e) && Broken(w, e))
  }

  /** Of each name at most one DAG has been opened. */
  ghost predicate OnePerName(w: World, ds: set<Ref>)
    requires ds <= w.dags.Keys
  {
    forall d, e :: d in ds && e in ds && w.dags[d].name == w.dags[e].name ==> d == e
  }

  class SnapshotRequirements {
    const w: World
    var visited: set<string>
    var memoryDAGNames: set<string>
    var modelIDs: set<string>
    var soulIDs: set<string>
    var hasAgentSteps: bool
    var usesDefaultModel: bool
    var needsMemory: bool
    ghost var entered: set<Ref>

    ghost predicate Valid()
      reads this
    {
      && Closed(w) && entered <= w.dags.Keys
      && visited == (set d | d in entered :: w.dags[d].name)
      && OnePerName(w, entered)
    }

    ghost predicate Has(x: Need)
      reads this
    {
      match x
      case AgentSteps => hasAgentSteps
      case DefaultModel => usesDefaultModel
      case Model(id) => id in modelIDs
      case Soul(id) => id in soulIDs
      case Memory => needsMemory
      case MemoryOf(name) => name in memoryDAGNames
    }

    ghost function Unvisited(): set<string>
      reads this
    {
      (set d | d in w.dags :: w.dags[d].name) - visited
    }

    constructor (w: World)
      requires Closed(w)
      ensures this.w == w && Valid() && entered == {} && forall x :: !Has(x)
    {
      this.w := w;
      visited, memoryDAGNames, modelIDs, soulIDs := {}, {}, {}, {};
      hasAgentSteps, usesDefaultModel, needsMemory := false, false, false;
      entered := {};
    }

    method RecordAgent(dag: Dag, step: Step)
      modifies this`modelIDs, this`soulIDs, this`memoryDAGNames, this`hasAgentSteps, this`usesDefaultModel, this`needsMemory
      ensures forall x :: Has(x) <==> old(Has(x)) || StepNeeds(dag, step, x)
    {
      if step.agent.Some? {
        var a := step.agent.value;
        hasAgentSteps := true;
        if a.model == "" {
          usesDefaultModel := true;
        } else {
          modelIDs := modelIDs + {a.model};
        }
        var soulID := Trim(a.soul);
        if soulID != "" {
          soulIDs := soulIDs + {soulID};
        }
        if a.memoryEnabled {
          needsMemory := true;
          if dag.name != "" {
            memoryDAGNames := memoryDAGNames + {dag.name};
          }
        }
      }
    }

    /** One step: what it needs, and the DAG it leads to. */
    method CollectStep(d: Ref, step: Step) returns (ok: bool)
      requires Valid() && d in w.dags && Runs(w.dags[d], step)
      modifies this
      ensures Valid() && old(visited) <= visited && old(entered) <= entered
      ensures Searched(w, d, entered - old(entered), visited, ok)
      ensures ok ==> Followed(w, d, step, visited)
      ensures ok ==> forall x :: Has(x) <==> old(Has(x)) || StepNeeds(w.dags[d], step, x) || Needed(w, entered - old(entered), x)
      decreases Unvisited(), 1
    {
      RecordAgent(w.dags[d], step);
      var t := Target(w, d, step);
      TargetInside(w, d, step);
      TargetMeans(w, d, step);
      match t
      case Missing => ok := true;
      case Failed =>
        ReachesSelf(w, d);
        ok := false;
      case Found(e) =>
        assert Edge(w, d, e);
        ok := Walk(e);
        SearchedThrough(w, d, e, entered - old(entered), visited, ok);
    }

    method CollectSteps(d: Ref, steps: seq<Step>) returns (ok: bool)
      requires Valid() && d in w.dags && forall k :: 0 <= k < |steps| ==> Runs(w.dags[d], steps[k])
      modifies this
      ensures Valid() && old(visited) <= visited && old(entered) <= entered
      ensures Searched(w, d, entered - old(entered), visited, ok)
      ensures ok ==> forall k :: 0 <= k < |steps| ==> Followed(w, d, steps[k], visited)
      ensures ok ==> forall x :: Has(x) <==> old(Has(x)) || StepsNeed(w.dags[d], steps, x) || Needed(w, entered - old(entered), x)
      decreases Unvisited(), 2
    {
      for i := 0 to |steps|
        invariant Valid() && old(visited) <= visited && old(entered) <= entered
        invariant Searched(w, d, entered - old(entered), visited, true)
        invariant forall k :: 0 <= k < i ==> Followed(w, d, steps[k], visited)
        invariant forall x :: Has(x) <==> old(Has(x)) || StepsNeed(w.dags[d], steps[..i], x) || Needed(w, entered - old(entered), x)
      {
        ghost var before, seen := entered, visited;
        ok := CollectStep(d, steps[i]);
        SearchedJoin(w, d, before - old(entered), entered - before, entered - old(entered), seen, visited, ok);
        if !ok {
          return;
        }
        NeededJoin(w, before - old(entered), entered - before, entered - old(entered));
        NeedSnoc(w.dags[d], steps, i);
      }
      assert steps[..|steps|] == steps;
      ok := true;
    }

    /** Visits a DAG, unless one of its name has been visited. */
    method Walk(d: Ref) returns (ok: bool)
      requires Valid() && d in w.dags
      modifies this
      ensures Valid() && old(visited) <= visited && old(entered) <= entered
      ensures Searched(w, d, entered - old(entered), visited, ok)
      ensures ok ==> w.dags[d].name in visited
      ensures w.dags[d].name !in old(visited) ==> d in entered
      ensures ok ==> forall x :: Has(x) <==> old(Has(x)) || Needed(w, entered - old(entered), x)
      decreases Unvisited(), 0
    {
      var dag := w.dags[d];
      if dag.name in visited {
        return true;
      }
      visited := visited + {dag.name};
      entered := entered + {d};
      ghost var mine := entered;
      ok := Expand(d);
      ReachesSelf(w, d);
      assert entered - old(entered) == {d} + (entered - mine);
      NeededJoin(w, {d}, entered - mine, entered - old(entered));
    }

    /** Follows up everything a DAG leads to. */
    method Expand(d: Ref) returns (ok: bool)
      requires Valid() && d in w.dags
      modifies this
      ensures Valid() && old(visited) <= visited && old(entered) <= entered
      ensures Searched(w, d, entered - old(entered), visited, ok)
      ensures ok ==> Expanded(w, d, visited)
      ensures ok ==> forall x :: Has(x) <==> old(Has(x)) || Needed(w, {d}, x) || Needed(w, entered - old(entered), x)
      decreases Unvisited(), 4
    {
      ok := CollectAll(d);
      if !ok {
        return;
      }
      ghost var before, seen := entered, visited;
      ok := WalkLocals(d, w.dags[d].locals);
      SearchedJoin(w, d, before - old(entered), entered - before, entered - old(entered), seen, visited, ok);
      NeededJoin(w, before - old(entered), entered - before, entered - old(entered));
      FollowedOn(w, d, seen, visited);
      NeedsOne(w, d);
    }

    /** The steps of a DAG, then its handlers. */
    method CollectAll(d: Ref) returns (ok: bool)
      requires Valid() && d in w.dags
      modifies this
      ensures Valid() && old(visited) <= visited && old(entered) <= entered
      ensures Searched(w, d, entered - old(entered), visited, ok)
      ensures ok ==> forall step :: Runs(w.dags[d], step) ==> Followed(w, d, step, visited)
      ensures ok ==> forall x :: Has(x) <==> old(Has(x)) || DagNeeds(w.dags[d], x) || Needed(w, entered - old(entered), x)
      decreases Unvisited(), 3
    {
      var dag := w.dags[d];
      var handlers := Present(dag.handlers);
      forall step ensures step in handlers <==> Some(step) in dag.handlers {
        PresentMeans(dag.handlers, step);
      }
      ok := CollectSteps(d, dag.steps);
      if !ok {
        return;
      }
      ghost var before, seen := entered, visited;
      ok := CollectSteps(d, handlers);
      SearchedJoin(w, d, before - old(entered), entered - before, entered - old(entered), seen, visited, ok);
      NeededJoin(w, before - old(entered), entered - before, entered - old(entered));
      NeedsTwo(dag, dag.steps, handlers);
    }

    method WalkLocal(d: Ref, i: nat) returns (ok: bool)
      requires Valid() && d in w.dags && i < |w.dags[d].locals|
      modifies this
      ensures Valid() && old(visited) <= visited && old(entered) <= entered
      ensures Searched(w, d, entered - old(entered), visited, ok)
      ensures ok ==> LocalVisited(w, w.dags[d].locals[i], visited)
      ensures ok ==> forall x :: Has(x) <==> old(Has(x)) || Needed(w, entered - old(entered), x)
      decreases Unvisited(), 1
    {
      var local := w.dags[d].locals[i].dag;
      if local.None? {
        return true;
      }
      var e := local.value;
      assert Edge(w, d, e);
      ok := Walk(e);
      SearchedThrough(w, d, e, entered - old(entered), visited, ok);
    }

    method WalkLocals(d: Ref, locals: seq<Local>) returns (ok: bool)
      requires Valid() && d in w.dags && locals == w.dags[d].locals
      modifies this
      ensures Valid() && old(visited) <= visited && old(entered) <= entered
      ensures Searched(w, d, entered - old(entered), visited, ok)
      ensures ok ==> forall k :: 0 <= k < |locals| ==> LocalVisited(w, locals[k], visited)
      ensures ok ==> forall x :: Has(x) <==> old(Has(x)) || Needed(w, entered - old(entered), x)
      decreases Unvisited(), 2
    {
      for i := 0 to |locals|
        invariant Valid() && old(visited) <= visited && old(entered) <= entered
        invariant Searched(w, d, entered - old(entered), visited, true)
        invariant forall k :: 0 <= k < i ==> LocalVisited(w, locals[k], visited)
        invariant forall x :: Has(x) <==> old(Has(x)) || Needed(w, entered - old(entered), x)
      {
        ghost var before, seen := entered, visited;
        ok := WalkLocal(d, i);
        SearchedJoin(w, d, before - old(entered), entered - before, entered - old(entered), seen, visited, ok);
        if !ok {
          return;
        }
        NeededJoin(w, before - old(entered), entered - before, entered - old(entered));
      }
      ok := true;
    }
  }

  lemma SearchedThrough(w: World, d: Ref, e: Ref, found: set<Ref>, visited: set<string>, ok: bool)
    requires Closed(w) && Edge(w, d, e) && Searched(w, e, found, visited, ok)
    ensures Searched(w, d, found, visited, ok)
  {
    forall f | Reaches(w, e, f) ensures Reaches(w, d, f) {
      ReachesThrough(w, d, e, f);
    }
  }

  /** Two parts of a search from the same place, one after the other. */
  lemma SearchedJoin(w: World, d: Ref, a: set<Ref>, b: set<Ref>, c: set<Ref>, seen: set<string>, visited: set<string>, ok: bool)
    requires Closed(w) && Searched(w, d, a, seen, true) && Searched(w, d, b, visited, ok)
    requires c == a + b && seen <= visited
    ensures Searched(w, d, c, visited, ok)
  {
    forall e | e in a ensures Expanded(w, e, visited) {
      assert Expanded(w, e, seen);
      FollowedOn(w, e, seen, visited);
    }
  }

  lemma FollowedOn(w: World, d: Ref, seen: set<string>, visited: set<string>)
    requires Closed(w) && d in w.dags && seen <= visited
    ensures forall step :: Followed(w, d, step, seen) ==> Followed(w, d, step, visited)
  {
  }

  /** Steps and handlers together are all that a DAG runs. */
  lemma NeedsTwo(dag: Dag, steps: seq<Step>, handlers: seq<Step>)
    requires forall step :: Runs(dag, step) <==> step in steps || step in handlers
    ensures forall x :: DagNeeds(dag, x) <==> StepsNeed(dag, steps, x) || StepsNeed(dag, handlers, x)
  {
    forall x | DagNeeds(dag, x) ensures StepsNeed(dag, steps, x) || StepsNeed(dag, handlers, x) {
      var step :| Runs(dag, step) && StepNeeds(dag, step, x);
    }
    forall x | StepsNeed(dag, steps, x) ensures DagNeeds(dag, x) {
      var k :| 0 <= k < |steps| && StepNeeds(dag, steps[k], x);
      assert Runs(dag, steps[k]);
    }
    forall x | StepsNeed(dag, handlers, x) ensures DagNeeds(dag, x) {
      var k :| 0 <= k < |handlers| && StepNeeds(dag, handlers[k], x);
      assert Runs(dag, handlers[k]);
    }
  }

  lemma NeededJoin(w: World, a: set<Ref>, b: set<Ref>, c: set<Ref>)
    requires c == a + b && c <= w.dags.Keys
    ensures forall x :: Needed(w, c, x) <==> Needed(w, a, x) || Needed(w, b, x)
  {
  }

  lemma NeedsOne(w: World, d: Ref)
    requires d in w.dags
    ensures forall x :: Needed(w, {d}, x) <==> DagNeeds(w.dags[d], x)
  {
  }

  lemma NeedSnoc(dag: Dag, steps: seq<Step>, i: nat)
    requires i < |steps|
    ensures forall x :: StepsNeed(dag, steps[..i + 1], x) <==> StepsNeed(dag, steps[..i], x) || StepNeeds(dag, steps[i], x)
  {
    assert steps[..i + 1] == steps[..i] + [steps[i]];
    forall x | StepsNeed(dag, steps[..i], x) ensures StepsNeed(dag, steps[..i + 1], x) {
      var k :| 0 <= k < i && StepNeeds(dag, steps[..i][k], x);
      assert steps[..i + 1][k] == steps[..i][k];
    }
    forall x | StepNeeds(dag, steps[i], x) ensures StepsNeed(dag, steps[..i + 1], x) {
      assert steps[..i + 1][i] == steps[i];
    }
  }

  /** Each name denotes one DAG, among those that can be reached. */
  ghost predicate UniqueNames(w: World, root: Ref) {
    forall d, e :: Reaches(w, root, d) && Reaches(w, root, e) && d in w.dags && e in w.dags && w.dags[d].name == w.dags[e].name ==> d == e
  }

  /** A search that did not fail has opened every DAG that can be reached. */
  lemma SearchExact(w: World, root: Ref, entered: set<Ref>, visited: set<string>, e: Ref)
    requires Closed(w) && root in w.dags && UniqueNames(w, root) && Searched(w, root, entered, visited, true)
    requires visited == set d | d in entered :: w.dags[d].name
    requires w.dags[root].name in visited && Reaches(w, root, e)
    ensures e in entered
  {
    ReachesSelf(w, root);
    assert root in entered;
    forall d, f | d in entered && Edge(w, d, f) ensures f in entered {
      ReachesOn(w, root, d, f);
      EdgeVisited(w, d, f, visited);
    }
    var p :| IsPath(w, p) && p[0] == root && p[|p| - 1] == e;
    ClosedUnderReach(w, entered, p);
  }

  lemma EdgeVisited(w: World, d: Ref, e: Ref, visited: set<string>)
    requires Closed(w) && Edge(w, d, e) && Expanded(w, d, visited)
    ensures w.dags[e].name in visited
  {
    if step :| Runs(w.dags[d], step) && LeadsTo(w, d, step, e) {
      TargetMeans(w, d, step);
      assert Followed(w, d, step, visited);
    }
  }

  lemma ReachesOn(w: World, root: Ref, d: Ref, e: Ref)
    requires Reaches(w, root, d) && Edge(w, d, e)
    ensures Reaches(w, root, e)
  {
    var p :| IsPath(w, p) && p[0] == root && p[|p| - 1] == d;
    var q := p + [e];
    forall k | 0 <= k < |q| - 1 ensures Edge(w, q[k], q[k + 1]) {
      assert k < |p| - 1 ==> Edge(w, p[k], p[k + 1]);
    }
    assert IsPath(w, q) && q[|q| - 1] == e;
  }

  lemma ExpandedNotBroken(w: World, d: Ref, visited: set<string>)
    requires Closed(w) && d in w.dags && Expanded(w, d, visited)
    ensures !Broken(w, d)
  {
    forall step | Runs(w.dags[d], step) ensures !Unresolvable(w, d, step) {
      TargetMeans(w, d, step);
      assert Followed(w, d, step, visited);
    }
  }

  /** Collects what the graph below `root` needs. A search that does not fail collects exactly
      what the DAGs it opened need, and it opens all reachable DAGs if and only if names are
      unique; then every reachable step could be resolved. */
  method CollectSnapshotRequirements(w: World, root: Ref) returns (reqs: SnapshotRequirements, ok: bool)
    requires Closed(w) && root in w.dags
    ensures !ok ==> exists e :: e in w.dags && Reaches(w, root, e) && Broken(w, e)
    ensures ok ==> forall e :: e in reqs.entered ==> Reaches(w, root, e)
    ensures ok ==> reqs.w == w && reqs.Valid() && root in reqs.entered
    ensures ok ==> forall x :: reqs.Has(x) <==> Needed(w, reqs.entered, x)
    ensures ok ==> (UniqueNames(w, root) <==> forall e :: Reaches(w, root, e) ==> e in reqs.entered)
    ensures ok && UniqueNames(w, root) ==> forall e :: Reaches(w, root, e) && e in w.dags ==> !Broken(w, e)
  {
    reqs := new SnapshotRequirements(w);
    ok := reqs.Walk(root);
    assert reqs.entered - {} == reqs.entered;
    if ok && UniqueNames(w, root) {
      forall e | Reaches(w, root, e) ensures e in reqs.entered && !Broken(w, e) {
        SearchExact(w, root, reqs.entered, reqs.visited, e);
        ExpandedNotBroken(w, e, reqs.visited);
      }
    }
  }

  /** A search from `root` that opened `ds` and found agent steps or not. */
  ghost predicate Opened(w: World, root: Ref, ds: set<Ref>, needed: bool) {
    && root in ds && ds <= w.dags.Keys && OnePerName(w, ds)
    && (forall e :: e in ds ==> Reaches(w, root, e))
    && (needed <==> Needed(w, ds, AgentSteps))
  }

  /** Whether a distributed run needs a snapshot: some reachable DAG has an agent step. */
  method NeedsSnapshotForDAG(w: World, root: Option<Ref>) returns (ok: bool, needed: bool)
    requires Closed(w) && (root.Some? ==> root.value in w.dags)
    ensures root.None? ==> ok && !needed
    ensures root.Some? && !ok ==> exists e :: e in w.dags && Reaches(w, root.value, e) && Broken(w, e)
    ensures root.Some? && ok ==> exists ds :: Opened(w, root.value, ds, needed)
    ensures root.Some? && UniqueNames(w, root.value) ==>
              && (ok <==> forall e :: Reaches(w, root.value, e) ==> e in w.dags && !Broken(w, e))
              && (ok ==> (needed <==> exists e :: Reaches(w, root.value, e) && e in w.dags &&
                                                  DagNeeds(w.dags[e], AgentSteps)))
  {
    if root.None? {
      return true, false;
    }
    var reqs;
    reqs, ok := CollectSnapshotRequirements(w, root.value);
    needed := ok && reqs.hasAgentSteps;
    assert ok ==> (needed <==> reqs.Has(AgentSteps));
    if ok {
      assert Opened(w, root.value, reqs.entered, needed);
    }
    forall e | Reaches(w, root.value, e) ensures e in w.dags {
      ReachableInside(w, root.value, e);
    }
  }

  /** Two DAGs of one name: the first holds the second, and only the second has an agent step. */
  function Twins(): World {
    World(map[0 := Dag("a", [], [], [Local("b", Some(1))]),
              1 := Dag("a", [Step(Some(Agent("m", "", false)), None)], [], [])], None)
  }

  lemma TwinsFacts()
    ensures Closed(Twins()) && Reaches(Twins(), 0, 1) && !Broken(Twins(), 0) && !Broken(Twins(), 1)
    ensures DagNeeds(Twins().dags[1], AgentSteps)
    ensures !DagNeeds(Twins().dags[0], AgentSteps)
  {
    var w := Twins();
    assert w.dags[0].locals[0].dag == Some(1);
    assert Edge(w, 0, 1);
    ReachesSelf(w, 0);
    ReachesOn(w, 0, 0, 1);
    var step := w.dags[1].steps[0];
    assert Runs(w.dags[1], step) && StepNeeds(w.dags[1], step, AgentSteps);
  }

  /** Whatever set of DAGs a search of this graph opens, it is only the first one. */
  lemma TwinsHide(ds: set<Ref>, needed: bool)
    requires Opened(Twins(), 0, ds, needed)
    ensures !needed
  {
    TwinsFacts();
    assert forall d :: d in ds ==> d == 0;
  }

  /** Names must be unique: the search of this graph reports no agent step, although one is
      reachable. */
  method SameNameHidesDag() returns (ok: bool, needed: bool)
    ensures ok && !needed && exists ds :: Opened(Twins(), 0, ds, needed)
    ensures exists e :: Reaches(Twins(), 0, e) && e in Twins().dags && DagNeeds(Twins().dags[e], AgentSteps)
  {
    TwinsFacts();
    ok, needed := NeedsSnapshotForDAG(Twins(), Some(0));
    assert forall e :: e in Twins().dags ==> e == 0 || e == 1;
    forall ds | Opened(Twins(), 0, ds, needed) ensures !needed {
      TwinsHide(ds, needed);
    }
  }
}
