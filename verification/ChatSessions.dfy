/** Queued chat text in every interleaving: any number of sessions, each with a queue and a flush
    marker, flushes that may rotate their session or find it removed, rotations by other callers,
    and sessions that are removed when idle; internal/agent/api.go and internal/agent/session.go. */
module ChatSessions {
  import opened ChatQueue

  // ---------- every interleaving ----------

  /** An accepted message, with a number that tells it from all others. */
  datatype Msg = Msg(id: nat, text: string)

  /** A session manager's queue and flush marker. `held` are the messages its queue was merged
      from; `copied` says that a rotation has copied its queue into a continuation, `gone` that
      nobody finds it any more, `continuation` that a rotation made it. */
  datatype Session = Session(queue: seq<string>, held: seq<Msg>, flushing: bool, copied: bool, gone: bool, continuation: bool) {
    predicate Dead() {
      copied || gone
    }
  }

  /** A flush between taking the text out and delivering it or putting it back. */
  datatype Flight = Flight(text: string, held: seq<Msg>, source: nat, target: nat, active: bool)

  /** A rotation. The old queue and marker are read under the old session's lock, and written
      under the new session's lock later. */
  datatype Rotation = Rotation(into: nat, queue: seq<string>, held: seq<Msg>, flushing: bool, pasted: bool)

  datatype State = State(sessions: seq<Session>, flights: seq<Flight>, rotations: seq<Rotation>,
                         texts: seq<string>, delivered: seq<Msg>, accepted: seq<Msg>)

  /** Steps of all the goroutines, each with a session or a flush that it has got hold of, current
      or not. `Copy` and `Paste` are the two halves of a rotation, made by flush `f` if there is
      such a flush of that session. A flush that fails puts its text back into the session it
      came from or into the session it is in now. `Start` is a new or reactivated session,
      `Remove` takes one away, idle or replaced, and `Relook` is a flush that finds its session
      removed and a reactivated one in its place. */
  datatype Op =
    | Start
    | Enqueue(s: nat, content: string)
    | Begin(s: nat)
    | Copy(s: nat, f: nat)
    | Paste(r: nat)
    | Restore(f: nat, onSource: bool)
    | Complete(f: nat)
    | Remove(s: nat)
    | Relook(f: nat, s: nat)

  const FRESH := Session([], [], false, false, false, false)
  const NEXT := FRESH.(continuation := true)

  const START := State([FRESH], [], [], [], [], [])

  function Put(s: State, k: nat, x: Session): State
    requires k < |s.sessions|
  {
    s.(sessions := s.sessions[k := x])
  }

  /** Where flush `f` puts its text back. */
  function Home(fl: Flight, onSource: bool): nat {
    if onSource then fl.source else fl.target
  }

  /** A step that is not enabled does nothing; an empty message is refused. */
  predicate Enabled(s: State, op: Op) {
    match op
    case Start => true
    case Enqueue(k, c) => k < |s.sessions| && c != ""
    case Begin(k) => k < |s.sessions| && !s.sessions[k].flushing && s.sessions[k].queue != []
    case Copy(k, _) => k < |s.sessions|
    case Paste(r) => r < |s.rotations| && !s.rotations[r].pasted && s.rotations[r].into < |s.sessions|
    case Restore(f, src) => f < |s.flights| && s.flights[f].active && Home(s.flights[f], src) < |s.sessions|
    case Complete(f) => f < |s.flights| && s.flights[f].active && s.flights[f].target < |s.sessions|
    case Remove(k) => k < |s.sessions| && !s.sessions[k].gone
    case Relook(f, k) =>
      && f < |s.flights| && s.flights[f].active && s.flights[f].target < |s.sessions| && s.sessions[s.flights[f].target].gone
      && k < |s.sessions| && !s.sessions[k].gone && !s.sessions[k].continuation
  }

  function DoEnqueue(s: State, k: nat, c: string): State
    requires Enabled(s, Enqueue(k, c))
  {
    var m := Msg(|s.accepted|, c);
    var x := s.sessions[k];
    Put(s, k, x.(queue := x.queue + [c], held := x.held + [m])).(accepted := s.accepted + [m])
  }

  function DoBegin(s: State, k: nat): State
    requires Enabled(s, Begin(k))
  {
    var x := s.sessions[k];
    Put(s, k, x.(queue := [], held := [], flushing := true)).(flights := s.flights + [Flight(Join(x.queue), x.held, k, k, true)])
  }

  function DoCopy(s: State, k: nat, f: nat): State
    requires Enabled(s, Copy(k, f))
  {
    var x, n := s.sessions[k], |s.sessions|;
    s.(sessions := s.sessions[k := x.(copied := true)] + [NEXT],
       rotations := s.rotations + [Rotation(n, x.queue, x.held, x.flushing, false)],
       flights := if f < |s.flights| && s.flights[f].active && s.flights[f].target == k
                  then s.flights[f := s.flights[f].(target := n)] else s.flights)
  }

  function DoPaste(s: State, r: nat): State
    requires Enabled(s, Paste(r))
  {
    var c := s.rotations[r];
    var x := s.sessions[c.into];
    var y := if c.queue == [] && !c.flushing then x
             else x.(queue := x.queue + c.queue, held := x.held + c.held, flushing := c.flushing);
    Put(s, c.into, y).(rotations := s.rotations[r := c.(pasted := true)])
  }

  function DoRestore(s: State, f: nat, onSource: bool): State
    requires Enabled(s, Restore(f, onSource))
  {
    var fl := s.flights[f];
    var k := Home(fl, onSource);
    var x := s.sessions[k];
    var y := if fl.text == "" then x.(flushing := false)
             else x.(queue := [fl.text] + x.queue, held := fl.held + x.held, flushing := false);
    Put(s, k, y).(flights := s.flights[f := fl.(active := false)])
  }

  function DoComplete(s: State, f: nat): State
    requires Enabled(s, Complete(f))
  {
    var fl := s.flights[f];
    Put(s, fl.target, s.sessions[fl.target].(flushing := false))
    .(flights := s.flights[f := fl.(active := false)], texts := s.texts + [fl.text], delivered := s.delivered + fl.held)
  }

  function DoRemove(s: State, k: nat): State
    requires Enabled(s, Remove(k))
  {
    Put(s, k, s.sessions[k].(gone := true))
  }

  function DoRelook(s: State, f: nat, k: nat): State
    requires Enabled(s, Relook(f, k))
  {
    s.(flights := s.flights[f := s.flights[f].(target := k)])
  }

  function Do(s: State, op: Op): State {
    if !Enabled(s, op) then s
    else
      match op
      case Start => s.(sessions := s.sessions + [FRESH])
      case Enqueue(k, c) => DoEnqueue(s, k, c)
      case Begin(k) => DoBegin(s, k)
      case Copy(k, f) => DoCopy(s, k, f)
      case Paste(r) => DoPaste(s, r)
      case Restore(f, src) => DoRestore(s, f, src)
      case Complete(f) => DoComplete(s, f)
      case Remove(k) => DoRemove(s, k)
      case Relook(f, k) => DoRelook(s, f, k)
  }

  function Run(ops: seq<Op>): State {
    if ops == [] then START else Do(Run(ops[..|ops| - 1]), ops[|ops| - 1])
  }

  // ---------- the text is that of the messages ----------

  function Texts(ms: seq<Msg>): seq<string> {
    seq(|ms|, k requires 0 <= k < |ms| => ms[k].text)
  }

  /** A queue of merged messages stands for the messages `ms`. */
  ghost predicate Says(queue: seq<string>, ms: seq<Msg>) {
    && NonEmpty(queue) && NonEmpty(Texts(ms)) && (queue == [] <==> ms == [])
    && Join(queue) == Join(Texts(ms))
  }

  lemma SaysConcat(a: seq<string>, x: seq<Msg>, b: seq<string>, y: seq<Msg>)
    requires Says(a, x) && Says(b, y)
    ensures Says(a + b, x + y)
  {
    assert Texts(x + y) == Texts(x) + Texts(y);
    if a == [] {
      assert a + b == b && x + y == y;
    } else if b == [] {
      assert a + b == a && x + y == x;
    } else {
      JoinConcat(a, b);
      JoinConcat(Texts(x), Texts(y));
    }
  }

  lemma SaysJoin(a: seq<string>, x: seq<Msg>)
    requires Says(a, x) && a != []
    ensures Says([Join(a)], x)
  {
    JoinNonEmpty(a);
  }

  ghost predicate SessionSays(x: Session) {
    Says(x.queue, x.held)
  }

  ghost predicate FlightSays(fl: Flight) {
    Says([fl.text], fl.held)
  }

  ghost predicate RotationSays(c: Rotation) {
    Says(c.queue, c.held)
  }

  /** Every text anywhere is that of the messages it was merged from. */
  ghost predicate Speaks(s: State) {
    && (forall k :: 0 <= k < |s.sessions| ==> SessionSays(s.sessions[k]))
    && (forall f :: 0 <= f < |s.flights| ==> FlightSays(s.flights[f]))
    && (forall r :: 0 <= r < |s.rotations| ==> RotationSays(s.rotations[r]))
    && Says(s.texts, s.delivered)
  }

  lemma EnqueueSpeaks(s: State, k: nat, c: string)
    requires Speaks(s) && Enabled(s, Enqueue(k, c))
    ensures Speaks(DoEnqueue(s, k, c))
  {
    var m := Msg(|s.accepted|, c);
    assert SessionSays(s.sessions[k]);
    assert Texts([m]) == [c];
    SaysConcat(s.sessions[k].queue, s.sessions[k].held, [c], [m]);
  }

  lemma BeginSpeaks(s: State, k: nat)
    requires Speaks(s) && Enabled(s, Begin(k))
    ensures Speaks(DoBegin(s, k))
  {
    assert SessionSays(s.sessions[k]);
    SaysJoin(s.sessions[k].queue, s.sessions[k].held);
    assert Texts([]) == [];
  }

  lemma PasteSpeaks(s: State, r: nat)
    requires Speaks(s) && Enabled(s, Paste(r))
    ensures Speaks(DoPaste(s, r))
  {
    var c := s.rotations[r];
    assert SessionSays(s.sessions[c.into]) && RotationSays(c);
    SaysConcat(s.sessions[c.into].queue, s.sessions[c.into].held, c.queue, c.held);
  }

  lemma RestoreSpeaks(s: State, f: nat, onSource: bool)
    requires Speaks(s) && Enabled(s, Restore(f, onSource))
    ensures Speaks(DoRestore(s, f, onSource))
  {
    var fl := s.flights[f];
    var k := Home(fl, onSource);
    assert SessionSays(s.sessions[k]) && FlightSays(fl);
    SaysConcat([fl.text], fl.held, s.sessions[k].queue, s.sessions[k].held);
  }

  lemma CompleteSpeaks(s: State, f: nat)
    requires Speaks(s) && Enabled(s, Complete(f))
    ensures Speaks(DoComplete(s, f))
  {
    assert FlightSays(s.flights[f]) && SessionSays(s.sessions[s.flights[f].target]);
    SaysConcat(s.texts, s.delivered, [s.flights[f].text], s.flights[f].held);
  }

  lemma StepSpeaks(s: State, op: Op)
    requires Speaks(s)
    ensures Speaks(Do(s, op))
  {
    assert SessionSays(FRESH) && SessionSays(NEXT) by {
      assert Texts([]) == [];
    }
    if Enabled(s, op) {
      match op
      case Start =>
      case Enqueue(k, c) => EnqueueSpeaks(s, k, c);
      case Begin(k) => BeginSpeaks(s, k);
      case Copy(k, f) => assert SessionSays(s.sessions[k]);
      case Paste(r) => PasteSpeaks(s, r);
      case Restore(f, src) => RestoreSpeaks(s, f, src);
      case Complete(f) => CompleteSpeaks(s, f);
      case Remove(k) => assert SessionSays(s.sessions[k]);
      case Relook(f, k) => assert FlightSays(s.flights[f]);
    }
  }

  /** In every interleaving, every text anywhere is that of the messages it was merged from, in order. */
  lemma {:induction false} TextIsMessages(ops: seq<Op>)
    ensures Speaks(Run(ops))
  {
    if ops == [] {
      assert Texts([]) == [];
    } else {
      TextIsMessages(ops[..|ops| - 1]);
      StepSpeaks(Run(ops[..|ops| - 1]), ops[|ops| - 1]);
    }
  }

  // ---------- counting a message ----------

  function Occurs(ms: seq<Msg>, m: Msg): nat {
    multiset(ms)[m]
  }

  function Total<T>(xs: seq<T>, f: T -> nat): nat {
    if xs == [] then 0 else Total(xs[..|xs| - 1], f) + f(xs[|xs| - 1])
  }

  lemma TotalSnoc<T>(xs: seq<T>, x: T, f: T -> nat)
    ensures Total(xs + [x], f) == Total(xs, f) + f(x)
  {
    assert (xs + [x])[..|xs|] == xs;
  }

  lemma {:induction false} TotalUpdate<T>(xs: seq<T>, k: nat, x: T, f: T -> nat)
    requires k < |xs|
    ensures Total(xs[k := x], f) + f(xs[k]) == Total(xs, f) + f(x)
  {
    var n := |xs| - 1;
    if k < n {
      TotalUpdate(xs[..n], k, x, f);
      assert xs[k := x][..n] == xs[..n][k := x];
    } else {
      assert xs[k := x][..n] == xs[..n];
    }
  }

  function InLive(m: Msg): Session -> nat {
    (x: Session) => if x.Dead() then 0 else Occurs(x.held, m)
  }

  function InDead(m: Msg): Session -> nat {
    (x: Session) => if x.Dead() then Occurs(x.held, m) else 0
  }

  function InFlight(m: Msg): Flight -> nat {
    (fl: Flight) => if fl.active then Occurs(fl.held, m) else 0
  }

  function InTransit(m: Msg): Rotation -> nat {
    (c: Rotation) => if c.pasted then 0 else Occurs(c.held, m)
  }

  function InCopy(m: Msg): Rotation -> nat {
    (c: Rotation) => Occurs(c.held, m)
  }

  /** How often `m` was delivered, or is in a flush, on its way into a continuation, or in the queue
      of a session that is neither copied nor gone. */
  function Afloat(s: State, m: Msg): nat {
    Occurs(s.delivered, m) + Total(s.flights, InFlight(m)) + Total(s.rotations, InTransit(m)) + Total(s.sessions, InLive(m))
  }

  /** How often `m` is in the queues of sessions that have been copied or are gone. */
  function LeftBehind(s: State, m: Msg): nat {
    Total(s.sessions, InDead(m))
  }

  /** How often `m` was copied by rotations. */
  function Copies(s: State, m: Msg): nat {
    Total(s.rotations, InCopy(m))
  }

  /** The balance of one message: a copy adds one, and what is afloat or left behind is all there is. */
  ghost predicate Balanced(s: State, m: Msg) {
    Afloat(s, m) + LeftBehind(s, m) == Occurs(s.accepted, m) + Copies(s, m)
  }

  lemma OccursConcat(a: seq<Msg>, b: seq<Msg>, m: Msg)
    ensures Occurs(a + b, m) == Occurs(a, m) + Occurs(b, m)
  {
    assert multiset(a + b) == multiset(a) + multiset(b);
  }

  /** Replacing one session shifts both counts by what it holds. */
  lemma PutCounts(s: State, k: nat, x: Session, m: Msg)
    requires k < |s.sessions|
    ensures Total(Put(s, k, x).sessions, InLive(m)) + InLive(m)(s.sessions[k]) == Total(s.sessions, InLive(m)) + InLive(m)(x)
    ensures Total(Put(s, k, x).sessions, InDead(m)) + InDead(m)(s.sessions[k]) == Total(s.sessions, InDead(m)) + InDead(m)(x)
  {
    TotalUpdate(s.sessions, k, x, InLive(m));
    TotalUpdate(s.sessions, k, x, InDead(m));
  }

  lemma StartCounts(s: State, x: Session, m: Msg)
    requires x.held == []
    ensures Total(s.sessions + [x], InLive(m)) == Total(s.sessions, InLive(m))
    ensures Total(s.sessions + [x], InDead(m)) == Total(s.sessions, InDead(m))
  {
    TotalSnoc(s.sessions, x, InLive(m));
    TotalSnoc(s.sessions, x, InDead(m));
  }

  lemma StartCountsNothing(m: Msg)
    ensures Afloat(START, m) == LeftBehind(START, m) == Copies(START, m) == 0
  {
    assert [] + [FRESH] == [FRESH];
    TotalSnoc([], FRESH, InLive(m));
    TotalSnoc([], FRESH, InDead(m));
  }

  /** What one step does to the counts of a message. */
  lemma EnqueueCounts(s: State, k: nat, c: string, m: Msg)
    requires Enabled(s, Enqueue(k, c))
    ensures var t, one := DoEnqueue(s, k, c), Occurs([Msg(|s.accepted|, c)], m);
            && Afloat(t, m) == Afloat(s, m) + (if s.sessions[k].Dead() then 0 else one)
            && LeftBehind(t, m) == LeftBehind(s, m) + (if s.sessions[k].Dead() then one else 0)
            && Occurs(t.accepted, m) == Occurs(s.accepted, m) + one && Copies(t, m) == Copies(s, m)
  {
    var x, new_ := s.sessions[k], Msg(|s.accepted|, c);
    OccursConcat(x.held, [new_], m);
    OccursConcat(s.accepted, [new_], m);
    PutCounts(s, k, x.(queue := x.queue + [c], held := x.held + [new_]), m);
  }

  lemma BeginCounts(s: State, k: nat, m: Msg)
    requires Enabled(s, Begin(k))
    ensures var t, h := DoBegin(s, k), Occurs(s.sessions[k].held, m);
            && Afloat(t, m) == Afloat(s, m) + (if s.sessions[k].Dead() then h else 0)
            && LeftBehind(t, m) + (if s.sessions[k].Dead() then h else 0) == LeftBehind(s, m)
            && t.accepted == s.accepted && Copies(t, m) == Copies(s, m)
  {
    var x := s.sessions[k];
    PutCounts(s, k, x.(queue := [], held := [], flushing := true), m);
    TotalSnoc(s.flights, Flight(Join(x.queue), x.held, k, k, true), InFlight(m));
  }

  lemma CopyCounts(s: State, k: nat, f: nat, m: Msg)
    requires Enabled(s, Copy(k, f))
    ensures var t, h := DoCopy(s, k, f), Occurs(s.sessions[k].held, m);
            && Afloat(t, m) == Afloat(s, m) + (if s.sessions[k].Dead() then h else 0)
            && LeftBehind(t, m) == LeftBehind(s, m) + (if s.sessions[k].Dead() then 0 else h)
            && t.accepted == s.accepted && Copies(t, m) == Copies(s, m) + h
  {
    var x, n := s.sessions[k], |s.sessions|;
    var y := x.(copied := true);
    PutCounts(s, k, y, m);
    StartCounts(Put(s, k, y), NEXT, m);
    var c := Rotation(n, x.queue, x.held, x.flushing, false);
    TotalSnoc(s.rotations, c, InTransit(m));
    TotalSnoc(s.rotations, c, InCopy(m));
    if f < |s.flights| {
      TotalUpdate(s.flights, f, s.flights[f].(target := n), InFlight(m));
    }
  }

  /** A continuation is never copied before its paste has filled it, or it is: both are counted. */
  lemma PasteCounts(s: State, r: nat, m: Msg)
    requires Enabled(s, Paste(r)) && RotationSays(s.rotations[r])
    ensures var t, h := DoPaste(s, r), Occurs(s.rotations[r].held, m);
            var late := if s.sessions[s.rotations[r].into].Dead() then h else 0;
            && Afloat(t, m) + late == Afloat(s, m) && LeftBehind(t, m) == LeftBehind(s, m) + late
            && t.accepted == s.accepted && Copies(t, m) == Copies(s, m)
  {
    var c := s.rotations[r];
    var x := s.sessions[c.into];
    OccursConcat(x.held, c.held, m);
    var y := if c.queue == [] && !c.flushing then x
             else x.(queue := x.queue + c.queue, held := x.held + c.held, flushing := c.flushing);
    PutCounts(s, c.into, y, m);
    TotalUpdate(s.rotations, r, c.(pasted := true), InTransit(m));
    TotalUpdate(s.rotations, r, c.(pasted := true), InCopy(m));
  }

  lemma RestoreCounts(s: State, f: nat, onSource: bool, m: Msg)
    requires Enabled(s, Restore(f, onSource)) && FlightSays(s.flights[f])
    ensures var t, h := DoRestore(s, f, onSource), Occurs(s.flights[f].held, m);
            var late := if s.sessions[Home(s.flights[f], onSource)].Dead() then h else 0;
            && Afloat(t, m) + late == Afloat(s, m) && LeftBehind(t, m) == LeftBehind(s, m) + late
            && t.accepted == s.accepted && Copies(t, m) == Copies(s, m)
  {
    var fl := s.flights[f];
    var k := Home(fl, onSource);
    var x := s.sessions[k];
    OccursConcat(fl.held, x.held, m);
    assert [fl.text][0] != "";
    PutCounts(s, k, x.(queue := [fl.text] + x.queue, held := fl.held + x.held, flushing := false), m);
    TotalUpdate(s.flights, f, fl.(active := false), InFlight(m));
  }

  lemma CompleteCounts(s: State, f: nat, m: Msg)
    requires Enabled(s, Complete(f))
    ensures var t := DoComplete(s, f);
            && Afloat(t, m) == Afloat(s, m) && LeftBehind(t, m) == LeftBehind(s, m)
            && t.accepted == s.accepted && Copies(t, m) == Copies(s, m)
  {
    var fl := s.flights[f];
    PutCounts(s, fl.target, s.sessions[fl.target].(flushing := false), m);
    TotalUpdate(s.flights, f, fl.(active := false), InFlight(m));
    OccursConcat(s.delivered, fl.held, m);
  }

  lemma RemoveCounts(s: State, k: nat, m: Msg)
    requires Enabled(s, Remove(k))
    ensures var t, h := DoRemove(s, k), if s.sessions[k].Dead() then 0 else Occurs(s.sessions[k].held, m);
            && Afloat(t, m) + h == Afloat(s, m) && LeftBehind(t, m) == LeftBehind(s, m) + h
            && t.accepted == s.accepted && Copies(t, m) == Copies(s, m)
  {
    PutCounts(s, k, s.sessions[k].(gone := true), m);
  }

  lemma RelookCounts(s: State, f: nat, k: nat, m: Msg)
    requires Enabled(s, Relook(f, k))
    ensures var t := DoRelook(s, f, k);
            && Afloat(t, m) == Afloat(s, m) && LeftBehind(t, m) == LeftBehind(s, m)
            && t.accepted == s.accepted && Copies(t, m) == Copies(s, m)
  {
    TotalUpdate(s.flights, f, s.flights[f].(target := k), InFlight(m));
  }

  lemma StepBalanced(s: State, op: Op, m: Msg)
    requires Speaks(s) && Balanced(s, m)
    ensures Balanced(Do(s, op), m)
  {
    if Enabled(s, op) {
      match op
      case Start => StartCounts(s, FRESH, m);
      case Enqueue(k, c) => EnqueueCounts(s, k, c, m);
      case Begin(k) => BeginCounts(s, k, m);
      case Copy(k, f) => CopyCounts(s, k, f, m);
      case Paste(r) => PasteCounts(s, r, m);
      case Restore(f, src) => RestoreCounts(s, f, src, m);
      case Complete(f) => CompleteCounts(s, f, m);
      case Remove(k) => RemoveCounts(s, k, m);
      case Relook(f, k) => RelookCounts(s, f, k, m);
    }
  }

  /** In every interleaving: a message is afloat exactly once, plus once for each time it was copied,
      minus once for each copied or removed session that still holds it. */
  lemma {:induction false} Balance(ops: seq<Op>, m: Msg)
    ensures Balanced(Run(ops), m)
  {
    if ops == [] {
      StartCountsNothing(m);
    } else {
      Balance(ops[..|ops| - 1], m);
      TextIsMessages(ops[..|ops| - 1]);
      StepBalanced(Run(ops[..|ops| - 1]), ops[|ops| - 1], m);
    }
  }

  ghost predicate Numbered(ms: seq<Msg>) {
    forall k :: 0 <= k < |ms| ==> ms[k].id == k
  }

  lemma {:induction false} AcceptedNumbered(ops: seq<Op>)
    ensures Numbered(Run(ops).accepted)
  {
    if ops != [] {
      AcceptedNumbered(ops[..|ops| - 1]);
    }
  }

  lemma {:induction false} NumberedOnce(ms: seq<Msg>, m: Msg)
    requires Numbered(ms)
    ensures Occurs(ms, m) == if m.id < |ms| && ms[m.id] == m then 1 else 0
  {
    if ms != [] {
      var n := |ms| - 1;
      NumberedOnce(ms[..n], m);
      OccursConcat(ms[..n], [ms[n]], m);
      assert ms == ms[..n] + [ms[n]];
    }
  }

  // ---------- sessions that can be flushed ----------

  /** No flush will end in this session, and no copy is on its way into it. */
  ghost predicate Unattended(s: State, k: nat) {
    && (forall f :: 0 <= f < |s.flights| && s.flights[f].active ==> s.flights[f].source != k && s.flights[f].target != k)
    && (forall r :: 0 <= r < |s.rotations| && !s.rotations[r].pasted ==> s.rotations[r].into != k)
  }

  /** The session carries a marker that a rotation copied into it, and nothing will take it off. */
  ghost predicate Stuck(s: State, k: nat)
    requires k < |s.sessions|
  {
    s.sessions[k].continuation && s.sessions[k].flushing && Unattended(s, k)
  }

  /** What the session holds will never be taken out of it, although it is neither copied nor gone. */
  ghost predicate Strands(s: State, k: nat)
    requires k < |s.sessions|
  {
    !s.sessions[k].Dead() && Stuck(s, k)
  }

  ghost function ToCome(s: State, n: nat, m: Msg): nat
    requires n <= |s.sessions|
  {
    if n == 0 then 0
    else ToCome(s, n - 1, m) + if s.sessions[n - 1].Dead() || Stuck(s, n - 1) then 0 else Occurs(s.sessions[n - 1].held, m)
  }

  ghost function StrandedIn(s: State, n: nat, m: Msg): nat
    requires n <= |s.sessions|
  {
    if n == 0 then 0
    else StrandedIn(s, n - 1, m) + if Strands(s, n - 1) then Occurs(s.sessions[n - 1].held, m) else 0
  }

  /** How often `m` is in sessions that can never be flushed. */
  ghost function Stranded(s: State, m: Msg): nat {
    StrandedIn(s, |s.sessions|, m)
  }

  /** How often `m` was delivered or still may be: in a flush, on its way into a continuation, or in
      a session that is neither copied nor gone and can be flushed. */
  ghost function Visible(s: State, m: Msg): nat {
    Occurs(s.delivered, m) + Total(s.flights, InFlight(m)) + Total(s.rotations, InTransit(m)) + ToCome(s, |s.sessions|, m)
  }

  lemma {:induction false} LiveSplits(s: State, n: nat, m: Msg)
    requires n <= |s.sessions|
    ensures ToCome(s, n, m) + StrandedIn(s, n, m) == Total(s.sessions[..n], InLive(m))
  {
    if n > 0 {
      LiveSplits(s, n - 1, m);
      assert s.sessions[..n] == s.sessions[..n - 1] + [s.sessions[n - 1]];
      TotalSnoc(s.sessions[..n - 1], s.sessions[n - 1], InLive(m));
    }
  }

  lemma AfloatSplits(s: State, m: Msg)
    ensures Afloat(s, m) == Visible(s, m) + Stranded(s, m)
  {
    LiveSplits(s, |s.sessions|, m);
    assert s.sessions[..|s.sessions|] == s.sessions;
  }

  ghost predicate NoneStranded(s: State) {
    forall k :: 0 <= k < |s.sessions| && Strands(s, k) ==> s.sessions[k].held == []
  }

  lemma {:induction false} NoneStrandedCounts(s: State, n: nat, m: Msg)
    requires NoneStranded(s) && n <= |s.sessions|
    ensures StrandedIn(s, n, m) == 0
  {
    if n > 0 {
      NoneStrandedCounts(s, n - 1, m);
    }
  }

  lemma {:induction false} StrandedPart(s: State, k: nat, n: nat, m: Msg)
    requires k < n <= |s.sessions| && Strands(s, k)
    ensures Occurs(s.sessions[k].held, m) <= StrandedIn(s, n, m)
  {
    if k < n - 1 {
      StrandedPart(s, k, n - 1, m);
    }
  }

  /** The fate of every accepted message, in every interleaving: it is lost exactly when copied,
      removed and stuck sessions hold it once more than it was copied out, and doubled exactly when
      it was copied out more often than they still hold it. */
  lemma Fate(ops: seq<Op>, k: nat)
    requires k < |Run(ops).accepted|
    ensures var s := Run(ops);
            var m := s.accepted[k];
            && (Visible(s, m) == 0 <==> LeftBehind(s, m) + Stranded(s, m) == Copies(s, m) + 1)
            && (Visible(s, m) == 1 <==> LeftBehind(s, m) + Stranded(s, m) == Copies(s, m))
            && (Visible(s, m) >= 2 <==> LeftBehind(s, m) + Stranded(s, m) < Copies(s, m))
  {
    var s := Run(ops);
    Balance(ops, s.accepted[k]);
    AfloatSplits(s, s.accepted[k]);
    AcceptedNumbered(ops);
    NumberedOnce(s.accepted, s.accepted[k]);
  }

  // ---------- how things hang together ----------

  /** A flush that is in another session than it began in has left a dead one; continuations are
      told apart. */
  ghost predicate Wired(s: State) {
    && (forall f :: 0 <= f < |s.flights| ==> FlightWired(s, s.flights[f]))
    && (forall r :: 0 <= r < |s.rotations| ==> s.rotations[r].into < |s.sessions| && s.sessions[s.rotations[r].into].continuation)
    && (forall q, r :: 0 <= q < r < |s.rotations| ==> s.rotations[q].into < s.rotations[r].into)
  }

  ghost predicate FlightWired(s: State, fl: Flight) {
    && fl.source < |s.sessions| && fl.target < |s.sessions|
    && (fl.active && fl.source != fl.target ==> s.sessions[fl.source].Dead())
  }

  /** Only a flush that has it as source and target marks a session that is no continuation. */
  ghost predicate Marked(s: State) {
    forall k :: 0 <= k < |s.sessions| && !s.sessions[k].Dead() && !s.sessions[k].continuation && s.sessions[k].flushing ==> AtWork(s, k)
  }

  ghost predicate AtWork(s: State, k: nat) {
    exists f :: 0 <= f < |s.flights| && s.flights[f].active && s.flights[f].source == k && s.flights[f].target == k
  }

  /** What a step leaves of the sessions: dead ones stay dead, continuations stay continuations. */
  lemma StepSessions(s: State, op: Op)
    ensures |s.sessions| <= |Do(s, op).sessions|
    ensures forall k :: 0 <= k < |s.sessions| ==>
              && (s.sessions[k].Dead() ==> Do(s, op).sessions[k].Dead())
              && Do(s, op).sessions[k].continuation == s.sessions[k].continuation
  {
  }

  lemma StepFlights(s: State, op: Op)
    requires forall f :: 0 <= f < |s.flights| ==> FlightWired(s, s.flights[f])
    ensures forall f :: 0 <= f < |Do(s, op).flights| ==> FlightWired(Do(s, op), Do(s, op).flights[f])
  {
    StepSessions(s, op);
    var t := Do(s, op);
    forall f | 0 <= f < |t.flights| ensures FlightWired(t, t.flights[f]) {
      if f < |s.flights| {
        assert FlightWired(s, s.flights[f]);
      }
    }
  }

  lemma StepWired(s: State, op: Op)
    requires Wired(s)
    ensures Wired(Do(s, op))
  {
    StepSessions(s, op);
    StepFlights(s, op);
  }

  lemma StepMarked(s: State, op: Op)
    requires Wired(s) && Marked(s)
    ensures Marked(Do(s, op))
  {
    var t := Do(s, op);
    forall k | 0 <= k < |t.sessions| && !t.sessions[k].Dead() && !t.sessions[k].continuation && t.sessions[k].flushing
      ensures AtWork(t, k)
    {
      if Enabled(s, op) && op == Begin(k) {
        assert t.flights[|s.flights|].active;
      } else {
        assert AtWork(s, k);
        var f :| 0 <= f < |s.flights| && s.flights[f].active && s.flights[f].source == k && s.flights[f].target == k;
        assert t.flights[f] == s.flights[f];
      }
    }
  }

  lemma {:induction false} RunWired(ops: seq<Op>)
    ensures Wired(Run(ops)) && Marked(Run(ops))
  {
    if ops != [] {
      RunWired(ops[..|ops| - 1]);
      StepWired(Run(ops[..|ops| - 1]), ops[|ops| - 1]);
      StepMarked(Run(ops[..|ops| - 1]), ops[|ops| - 1]);
    }
  }

  /** A session that is neither dead nor stuck can be flushed: it is unmarked, or a flush will end in
      it, or a copy is on its way into it. */
  lemma CanBeFlushed(ops: seq<Op>, k: nat)
    requires k < |Run(ops).sessions| && !Run(ops).sessions[k].Dead() && !Stuck(Run(ops), k)
    ensures var s := Run(ops);
            || !s.sessions[k].flushing
            || (exists f :: 0 <= f < |s.flights| && s.flights[f].active && s.flights[f].target == k)
            || (exists r :: 0 <= r < |s.rotations| && !s.rotations[r].pasted && s.rotations[r].into == k)
  {
    RunWired(ops);
    var s := Run(ops);
    if s.sessions[k].flushing && !s.sessions[k].continuation {
      assert AtWork(s, k);
    }
    forall f | 0 <= f < |s.flights| && s.flights[f].active && s.flights[f].source == k ensures s.flights[f].target == k {
      assert FlightWired(s, s.flights[f]);
    }
  }

  /** A stuck session stays stuck, and keeps all it holds. */
  lemma StepStuck(s: State, op: Op, k: nat)
    requires k < |s.sessions| && Stuck(s, k)
    ensures k < |Do(s, op).sessions| && Stuck(Do(s, op), k) && s.sessions[k].held <= Do(s, op).sessions[k].held
  {
  }

  lemma {:induction false} StuckForGood(s: State, ops: seq<Op>, k: nat)
    requires k < |s.sessions| && Stuck(s, k)
    ensures var t := RunFrom(s, ops);
            k < |t.sessions| && Stuck(t, k) && s.sessions[k].held <= t.sessions[k].held && !Enabled(t, Begin(k))
  {
    if ops != [] {
      StuckForGood(s, ops[..|ops| - 1], k);
      StepStuck(RunFrom(s, ops[..|ops| - 1]), ops[|ops| - 1], k);
    }
  }

  function RunFrom(s: State, ops: seq<Op>): State {
    if ops == [] then s else Do(RunFrom(s, ops[..|ops| - 1]), ops[|ops| - 1])
  }

  // ---------- exactly when nothing is lost or doubled ----------

  /** Every accepted message is delivered or still to come exactly once. */
  ghost predicate Conserved(s: State) {
    forall k :: 0 <= k < |s.accepted| ==> Visible(s, s.accepted[k]) == 1
  }

  ghost predicate AlwaysConserved(ops: seq<Op>) {
    Conserved(Run(ops)) && (ops != [] ==> AlwaysConserved(ops[..|ops| - 1]))
  }

  /** The copy leaves the continuation marked, and no flush will take the marker off. */
  ghost predicate MarksForGood(s: State, r: nat)
    requires Enabled(s, Paste(r))
  {
    var c := s.rotations[r];
    && (if c.queue == [] && !c.flushing then s.sessions[c.into].flushing else c.flushing)
    && (forall f :: 0 <= f < |s.flights| && s.flights[f].active ==> s.flights[f].source != c.into && s.flights[f].target != c.into)
  }

  /** The step puts text into a session that is copied, gone or stuck, takes text out of one that is
      copied or gone, marks a session with text for good, or removes one with text. */
  ghost predicate Misplaces(s: State, op: Op) {
    Enabled(s, op) &&
    match op
    case Start => false
    case Enqueue(k, _) => s.sessions[k].Dead() || Stuck(s, k)
    case Begin(k) => s.sessions[k].Dead()
    case Copy(k, _) => s.sessions[k].Dead() && s.sessions[k].queue != []
    case Paste(r) =>
      var x, c := s.sessions[s.rotations[r].into], s.rotations[r];
      if x.Dead() then c.queue != [] else MarksForGood(s, r) && x.queue + c.queue != []
    case Restore(f, src) => s.sessions[Home(s.flights[f], src)].Dead()
    case Complete(_) => false
    case Remove(k) => !s.sessions[k].Dead() && s.sessions[k].queue != []
    case Relook(_, _) => false
  }

  /** No step of the run does. */
  ghost predicate Careful(ops: seq<Op>) {
    ops == [] || (Careful(ops[..|ops| - 1]) && !Misplaces(Run(ops[..|ops| - 1]), ops[|ops| - 1]))
  }

  /** A session that is stuck after the step and was not touched by it was stuck before. */
  lemma BeginStrands(s: State, k: nat)
    requires NoneStranded(s) && Enabled(s, Begin(k))
    ensures NoneStranded(DoBegin(s, k))
  {
    var t := DoBegin(s, k);
    assert t.flights[|s.flights|].active && t.flights[|s.flights|].source == k;
    forall j | 0 <= j < |t.sessions| && Strands(t, j) ensures t.sessions[j].held == [] {
      assert forall f :: 0 <= f < |s.flights| ==> t.flights[f] == s.flights[f];
      assert j != k && Strands(s, j);
    }
  }

  lemma CopyStrands(s: State, k: nat, f: nat)
    requires NoneStranded(s) && Enabled(s, Copy(k, f))
    ensures NoneStranded(DoCopy(s, k, f))
  {
    var t := DoCopy(s, k, f);
    forall j | 0 <= j < |t.sessions| && Strands(t, j) ensures t.sessions[j].held == [] {
      assert j != k && j != |s.sessions|;
      forall g | 0 <= g < |s.flights| && s.flights[g].active ensures s.flights[g].source != j && s.flights[g].target != j {
        assert t.flights[g].source == s.flights[g].source && t.flights[g].active;
        assert t.flights[g].source != j && t.flights[g].target != j;
      }
      forall r | 0 <= r < |s.rotations| && !s.rotations[r].pasted ensures s.rotations[r].into != j {
        assert t.rotations[r] == s.rotations[r];
      }
      assert Strands(s, j);
    }
  }

  lemma PasteStrands(s: State, r: nat)
    requires Speaks(s) && Wired(s) && NoneStranded(s) && Enabled(s, Paste(r)) && !Misplaces(s, Paste(r))
    ensures NoneStranded(DoPaste(s, r))
  {
    var t, c := DoPaste(s, r), s.rotations[r];
    assert RotationSays(c) && SessionSays(s.sessions[c.into]);
    forall j | 0 <= j < |t.sessions| && Strands(t, j) ensures t.sessions[j].held == [] {
      if j == c.into {
        assert MarksForGood(s, r);
      } else {
        forall q | 0 <= q < |s.rotations| && !s.rotations[q].pasted ensures s.rotations[q].into != j {
          assert q != r ==> t.rotations[q] == s.rotations[q];
        }
        assert Strands(s, j);
      }
    }
  }

  /** The end of a flush changes nothing for a session that the flush had nothing to do with. */
  lemma EndStrands(s: State, t: State, f: nat, home: nat)
    requires Wired(s) && NoneStranded(s) && f < |s.flights| && s.flights[f].active && home < |s.sessions|
    requires home == s.flights[f].source || home == s.flights[f].target
    requires home == s.flights[f].source ==> home == s.flights[f].target
    requires t.rotations == s.rotations && t.flights == s.flights[f := s.flights[f].(active := false)]
    requires |t.sessions| == |s.sessions| && !t.sessions[home].flushing
    requires forall k :: 0 <= k < |s.sessions| && k != home ==> t.sessions[k] == s.sessions[k]
    ensures NoneStranded(t)
  {
    assert FlightWired(s, s.flights[f]);
    forall j | 0 <= j < |t.sessions| && Strands(t, j) ensures t.sessions[j].held == [] {
      assert j != home;
      forall g | 0 <= g < |s.flights| && s.flights[g].active ensures s.flights[g].source != j && s.flights[g].target != j {
        assert g != f ==> t.flights[g] == s.flights[g];
      }
      assert Strands(s, j);
    }
  }

  lemma RestoreStrands(s: State, f: nat, onSource: bool)
    requires Wired(s) && NoneStranded(s) && Enabled(s, Restore(f, onSource)) && !Misplaces(s, Restore(f, onSource))
    ensures NoneStranded(DoRestore(s, f, onSource))
  {
    assert FlightWired(s, s.flights[f]);
    EndStrands(s, DoRestore(s, f, onSource), f, Home(s.flights[f], onSource));
  }

  lemma CompleteStrands(s: State, f: nat)
    requires Wired(s) && NoneStranded(s) && Enabled(s, Complete(f))
    ensures NoneStranded(DoComplete(s, f))
  {
    EndStrands(s, DoComplete(s, f), f, s.flights[f].target);
  }

  lemma RelookStrands(s: State, f: nat, k: nat)
    requires NoneStranded(s) && Enabled(s, Relook(f, k))
    ensures NoneStranded(DoRelook(s, f, k))
  {
    var t := DoRelook(s, f, k);
    forall j | 0 <= j < |t.sessions| && Strands(t, j) ensures t.sessions[j].held == [] {
      forall g | 0 <= g < |s.flights| && s.flights[g].active ensures s.flights[g].source != j && s.flights[g].target != j {
        assert t.flights[g].source == s.flights[g].source && t.flights[g].active;
      }
      assert Strands(s, j);
    }
  }

  lemma SimpleStrands(s: State, op: Op)
    requires NoneStranded(s) && (op.Start? || op.Enqueue? || op.Remove?) && !Misplaces(s, op)
    ensures NoneStranded(Do(s, op))
  {
    var t := Do(s, op);
    forall j | 0 <= j < |t.sessions| && Strands(t, j) ensures t.sessions[j].held == [] {
      assert j < |s.sessions| && Unattended(s, j) && Strands(s, j);
    }
  }

  lemma StepStrands(s: State, op: Op)
    requires Speaks(s) && Wired(s) && NoneStranded(s) && !Misplaces(s, op)
    ensures NoneStranded(Do(s, op))
  {
    if Enabled(s, op) {
      match op
      case Start => SimpleStrands(s, op);
      case Enqueue(_, _) => SimpleStrands(s, op);
      case Begin(k) => BeginStrands(s, k);
      case Copy(k, f) => CopyStrands(s, k, f);
      case Paste(r) => PasteStrands(s, r);
      case Restore(f, src) => RestoreStrands(s, f, src);
      case Complete(f) => CompleteStrands(s, f);
      case Remove(_) => SimpleStrands(s, op);
      case Relook(f, k) => RelookStrands(s, f, k);
    }
  }

  /** Dead sessions hold exactly what was copied out of them. */
  lemma CarefulStep(s: State, op: Op, m: Msg)
    requires Speaks(s) && !Misplaces(s, op) && LeftBehind(s, m) == Copies(s, m)
    ensures LeftBehind(Do(s, op), m) == Copies(Do(s, op), m)
  {
    if Enabled(s, op) {
      match op
      case Start => StartCounts(s, FRESH, m);
      case Enqueue(k, c) => EnqueueCounts(s, k, c, m);
      case Begin(k) => BeginCounts(s, k, m);
      case Copy(k, f) =>
        CopyCounts(s, k, f, m);
        assert SessionSays(s.sessions[k]);
      case Paste(r) =>
        assert RotationSays(s.rotations[r]);
        PasteCounts(s, r, m);
      case Restore(f, src) => RestoreCounts(s, f, src, m);
      case Complete(f) => CompleteCounts(s, f, m);
      case Remove(k) => RemoveCounts(s, k, m);
      case Relook(f, k) => RelookCounts(s, f, k, m);
    }
  }

  lemma {:induction false} CarefulStrandsNone(ops: seq<Op>)
    requires Careful(ops)
    ensures NoneStranded(Run(ops))
  {
    if ops != [] {
      CarefulStrandsNone(ops[..|ops| - 1]);
      TextIsMessages(ops[..|ops| - 1]);
      RunWired(ops[..|ops| - 1]);
      StepStrands(Run(ops[..|ops| - 1]), ops[|ops| - 1]);
    }
  }

  lemma {:induction false} CarefulLeavesCopies(ops: seq<Op>, m: Msg)
    requires Careful(ops)
    ensures LeftBehind(Run(ops), m) == Copies(Run(ops), m)
  {
    if ops == [] {
      StartCountsNothing(m);
    } else {
      CarefulLeavesCopies(ops[..|ops| - 1], m);
      TextIsMessages(ops[..|ops| - 1]);
      CarefulStep(Run(ops[..|ops| - 1]), ops[|ops| - 1], m);
    }
  }

  lemma CarefulConserves(ops: seq<Op>)
    requires Careful(ops)
    ensures Conserved(Run(ops))
  {
    forall k | 0 <= k < |Run(ops).accepted| ensures Visible(Run(ops), Run(ops).accepted[k]) == 1 {
      CarefulLeavesCopies(ops, Run(ops).accepted[k]);
      CarefulStrandsNone(ops);
      NoneStrandedCounts(Run(ops), |Run(ops).sessions|, Run(ops).accepted[k]);
      Fate(ops, k);
    }
  }

  lemma {:induction false} TotalPart<T>(xs: seq<T>, k: nat, f: T -> nat)
    requires k < |xs|
    ensures f(xs[k]) <= Total(xs, f)
  {
    if k < |xs| - 1 {
      TotalPart(xs[..|xs| - 1], k, f);
    }
  }

  /** Nothing is anywhere that was not accepted. */
  ghost predicate Unknown(s: State, m: Msg) {
    Afloat(s, m) == LeftBehind(s, m) == Copies(s, m) == 0
  }

  lemma SessionPart(s: State, k: nat, m: Msg)
    requires k < |s.sessions|
    ensures Occurs(s.sessions[k].held, m) <= Afloat(s, m) + LeftBehind(s, m)
  {
    TotalPart(s.sessions, k, InLive(m));
    TotalPart(s.sessions, k, InDead(m));
  }

  lemma SessionUnknown(s: State, k: nat, f: nat, m: Msg)
    requires Unknown(s, m)
    ensures Enabled(s, Begin(k)) ==> Unknown(DoBegin(s, k), m)
    ensures Enabled(s, Copy(k, f)) ==> Unknown(DoCopy(s, k, f), m)
  {
    if k < |s.sessions| {
      SessionPart(s, k, m);
      if Enabled(s, Begin(k)) {
        BeginCounts(s, k, m);
      }
      CopyCounts(s, k, f, m);
    }
  }

  lemma RotationUnknown(s: State, r: nat, m: Msg)
    requires Unknown(s, m) && Enabled(s, Paste(r)) && RotationSays(s.rotations[r])
    ensures Unknown(DoPaste(s, r), m)
  {
    TotalPart(s.rotations, r, InCopy(m));
    PasteCounts(s, r, m);
  }

  lemma FlightUnknown(s: State, f: nat, onSource: bool, m: Msg)
    requires Unknown(s, m) && Enabled(s, Restore(f, onSource)) && FlightSays(s.flights[f])
    ensures Unknown(DoRestore(s, f, onSource), m)
  {
    TotalPart(s.flights, f, InFlight(m));
    RestoreCounts(s, f, onSource, m);
  }

  lemma StepUnknown(s: State, op: Op, m: Msg)
    requires Speaks(s) && Unknown(s, m) && Occurs(Do(s, op).accepted, m) == 0
    ensures Unknown(Do(s, op), m)
  {
    if Enabled(s, op) {
      match op
      case Start => StartCounts(s, FRESH, m);
      case Enqueue(k, c) => EnqueueCounts(s, k, c, m);
      case Begin(k) => SessionUnknown(s, k, 0, m);
      case Copy(k, f) => SessionUnknown(s, k, f, m);
      case Paste(r) => RotationUnknown(s, r, m);
      case Restore(f, src) => FlightUnknown(s, f, src, m);
      case Complete(f) => CompleteCounts(s, f, m);
      case Remove(k) => RemoveCounts(s, k, m);
      case Relook(f, k) => RelookCounts(s, f, k, m);
    }
  }

  lemma {:induction false} OnlyAccepted(ops: seq<Op>, m: Msg)
    requires Occurs(Run(ops).accepted, m) == 0
    ensures Unknown(Run(ops), m)
  {
    if ops == [] {
      StartCountsNothing(m);
    } else {
      var s, op := Run(ops[..|ops| - 1]), ops[|ops| - 1];
      assert Occurs(s.accepted, m) == 0 by {
        AcceptedGrows(s, op, m);
      }
      OnlyAccepted(ops[..|ops| - 1], m);
      TextIsMessages(ops[..|ops| - 1]);
      StepUnknown(s, op, m);
    }
  }

  lemma AcceptedGrows(s: State, op: Op, m: Msg)
    ensures Occurs(s.accepted, m) <= Occurs(Do(s, op).accepted, m)
  {
    if op.Enqueue? {
      OccursConcat(s.accepted, [Msg(|s.accepted|, op.content)], m);
    }
  }

  /** A message that a misplacing step moves. */
  ghost function Moved(s: State, op: Op): Msg
    requires Speaks(s) && Misplaces(s, op)
  {
    match op
    case Enqueue(k, c) => Msg(|s.accepted|, c)
    case Begin(k) => assert SessionSays(s.sessions[k]); s.sessions[k].held[0]
    case Copy(k, _) => assert SessionSays(s.sessions[k]); s.sessions[k].held[0]
    case Paste(r) =>
      var x, c := s.sessions[s.rotations[r].into], s.rotations[r];
      assert RotationSays(c) && SessionSays(x);
      if x.Dead() then c.held[0] else (x.held + c.held)[0]
    case Restore(f, _) => assert FlightSays(s.flights[f]); s.flights[f].held[0]
    case Remove(k) => assert SessionSays(s.sessions[k]); s.sessions[k].held[0]
  }

  /** Copied, removed and stuck sessions do not hold `m` as often as it was copied. */
  ghost predicate Upset(s: State, m: Msg) {
    LeftBehind(s, m) + Stranded(s, m) != Copies(s, m)
  }

  lemma EnqueueUpsets(s: State, k: nat, c: string)
    requires Misplaces(s, Enqueue(k, c)) && forall m :: LeftBehind(s, m) == Copies(s, m)
    ensures Upset(DoEnqueue(s, k, c), Msg(|s.accepted|, c))
  {
    var t, m := DoEnqueue(s, k, c), Msg(|s.accepted|, c);
    EnqueueCounts(s, k, c, m);
    if !s.sessions[k].Dead() {
      assert Unattended(t, k) && Strands(t, k) && m in t.sessions[k].held;
      StrandedPart(t, k, |t.sessions|, m);
    }
  }

  lemma PasteUpsets(s: State, r: nat)
    requires Speaks(s) && Wired(s) && Misplaces(s, Paste(r)) && forall m :: LeftBehind(s, m) == Copies(s, m)
    ensures Upset(DoPaste(s, r), Moved(s, Paste(r)))
  {
    var t, m, c := DoPaste(s, r), Moved(s, Paste(r)), s.rotations[r];
    assert RotationSays(c) && SessionSays(s.sessions[c.into]);
    PasteCounts(s, r, m);
    if !s.sessions[c.into].Dead() {
      PasteSticks(s, r);
      assert t.sessions[c.into].held == s.sessions[c.into].held + c.held;
      assert m in t.sessions[c.into].held;
      StrandedPart(t, c.into, |t.sessions|, m);
    }
  }

  lemma PasteSticks(s: State, r: nat)
    requires Wired(s) && Enabled(s, Paste(r)) && MarksForGood(s, r) && !s.sessions[s.rotations[r].into].Dead()
    ensures Strands(DoPaste(s, r), s.rotations[r].into)
  {
    var t, k := DoPaste(s, r), s.rotations[r].into;
    forall q | 0 <= q < |t.rotations| && !t.rotations[q].pasted ensures t.rotations[q].into != k {
      assert q != r && t.rotations[q] == s.rotations[q];
    }
    assert Unattended(t, k);
  }

  lemma BeginUpsets(s: State, k: nat)
    requires NoneStranded(s) && Misplaces(s, Begin(k)) && s.sessions[k].held != [] && forall m :: LeftBehind(s, m) == Copies(s, m)
    ensures Upset(DoBegin(s, k), s.sessions[k].held[0])
  {
    var m := s.sessions[k].held[0];
    BeginCounts(s, k, m);
    BeginStrands(s, k);
    NoneStrandedCounts(DoBegin(s, k), |s.sessions|, m);
  }

  lemma CopyUpsets(s: State, k: nat, f: nat)
    requires NoneStranded(s) && Misplaces(s, Copy(k, f)) && s.sessions[k].held != [] && forall m :: LeftBehind(s, m) == Copies(s, m)
    ensures Upset(DoCopy(s, k, f), s.sessions[k].held[0])
  {
    var m := s.sessions[k].held[0];
    CopyCounts(s, k, f, m);
    CopyStrands(s, k, f);
    NoneStrandedCounts(DoCopy(s, k, f), |s.sessions| + 1, m);
  }

  lemma RestoreUpsets(s: State, f: nat, onSource: bool)
    requires Misplaces(s, Restore(f, onSource)) && FlightSays(s.flights[f]) && forall m :: LeftBehind(s, m) == Copies(s, m)
    ensures Upset(DoRestore(s, f, onSource), s.flights[f].held[0])
  {
    RestoreCounts(s, f, onSource, s.flights[f].held[0]);
  }

  lemma RemoveUpsets(s: State, k: nat)
    requires Misplaces(s, Remove(k)) && s.sessions[k].held != [] && forall m :: LeftBehind(s, m) == Copies(s, m)
    ensures Upset(DoRemove(s, k), s.sessions[k].held[0])
  {
    RemoveCounts(s, k, s.sessions[k].held[0]);
  }

  /** A misplacing step upsets the balance. */
  lemma MisplacedCounts(s: State, op: Op)
    requires Speaks(s) && Wired(s) && NoneStranded(s) && Misplaces(s, op) && forall m :: LeftBehind(s, m) == Copies(s, m)
    ensures Upset(Do(s, op), Moved(s, op))
  {
    match op
    case Enqueue(k, c) => EnqueueUpsets(s, k, c);
    case Begin(k) =>
      assert SessionSays(s.sessions[k]);
      BeginUpsets(s, k);
    case Copy(k, f) =>
      assert SessionSays(s.sessions[k]);
      CopyUpsets(s, k, f);
    case Paste(r) => PasteUpsets(s, r);
    case Restore(f, src) => RestoreUpsets(s, f, src);
    case Remove(k) =>
      assert SessionSays(s.sessions[k]);
      RemoveUpsets(s, k);
  }

  /** After a run without a misplacing step, one such step loses or doubles a message at once. */
  lemma MisplacingBreaks(ops: seq<Op>, op: Op)
    requires Careful(ops) && Misplaces(Run(ops), op)
    ensures !Conserved(Run(ops + [op]))
  {
    var s := Run(ops);
    TextIsMessages(ops);
    RunWired(ops);
    CarefulStrandsNone(ops);
    forall m ensures LeftBehind(s, m) == Copies(s, m) {
      CarefulLeavesCopies(ops, m);
    }
    var m := Moved(s, op);
    MisplacedCounts(s, op);
    assert (ops + [op])[..|ops|] == ops;
    UpsetBreaks(ops + [op], m);
  }

  lemma UpsetBreaks(ops: seq<Op>, m: Msg)
    requires Upset(Run(ops), m)
    ensures !Conserved(Run(ops))
  {
    var t := Run(ops);
    AfloatSplits(t, m);
    if Occurs(t.accepted, m) == 0 {
      OnlyAccepted(ops, m);
    }
    assert m in multiset(t.accepted);
    var k :| 0 <= k < |t.accepted| && t.accepted[k] == m;
    Fate(ops, k);
  }

  /** Nothing is lost or doubled at any moment of a run if and only if no step of it puts text into
      a session that is copied, gone or stuck, takes text out of one that is copied or gone, marks
      a session with text for good, or removes one with text. */
  lemma {:induction false} Conservation(ops: seq<Op>)
    ensures AlwaysConserved(ops) <==> Careful(ops)
  {
    if Careful(ops) {
      CarefulConserves(ops);
    }
    if ops != [] {
      var n := |ops| - 1;
      Conservation(ops[..n]);
      assert ops == ops[..n] + [ops[n]];
      if Careful(ops[..n]) && Misplaces(Run(ops[..n]), ops[n]) {
        MisplacingBreaks(ops[..n], ops[n]);
      }
    }
  }

  // ---------- one flush at a time, and order ----------

  /** A copy is on its way into the newest session. */
  predicate Awaiting(s: State) {
    s.rotations != [] && !s.rotations[|s.rotations| - 1].pasted
  }

  /** The step concerns the newest session, and that one is not waiting for a copy. */
  predicate UpToDate(s: State, k: nat) {
    k == |s.sessions| - 1 && !Awaiting(s)
  }

  predicate InTurn(s: State, op: Op) {
    Enabled(s, op) ==>
      match op
      case Start => false
      case Enqueue(k, _) => UpToDate(s, k)
      case Begin(k) => UpToDate(s, k)
      case Copy(k, f) => UpToDate(s, k) && (s.sessions[k].flushing ==> f < |s.flights| && s.flights[f].active && s.flights[f].target == k)
      case Paste(_) => true
      case Restore(f, src) => UpToDate(s, Home(s.flights[f], src))
      case Complete(_) => !Awaiting(s)
      case Remove(k) => k != |s.sessions| - 1
      case Relook(_, _) => false
  }

  predicate Orderly(ops: seq<Op>) {
    ops == [] || (Orderly(ops[..|ops| - 1]) && InTurn(Run(ops[..|ops| - 1]), ops[|ops| - 1]))
  }

  function FlightMsgs(s: State): seq<Msg> {
    if s.flights != [] && s.flights[|s.flights| - 1].active then s.flights[|s.flights| - 1].held else []
  }

  function TransitMsgs(s: State): seq<Msg> {
    if Awaiting(s) then s.rotations[|s.rotations| - 1].held else []
  }

  /** Delivered messages, then those in flight, then those on their way, then the newest queue. */
  function Line(s: State): seq<Msg>
    requires s.sessions != []
  {
    s.delivered + FlightMsgs(s) + TransitMsgs(s) + s.sessions[|s.sessions| - 1].held
  }

  /** Only the latest flush can be in flight, and only the latest copy on its way; the newest session
      is marked, or will be, exactly when a flush is in flight, and that flush ends in it. */
  ghost predicate OneAtATime(s: State) {
    && s.sessions != []
    && (forall f :: 0 <= f < |s.flights| - 1 ==> !s.flights[f].active)
    && (forall r :: 0 <= r < |s.rotations| - 1 ==> s.rotations[r].pasted)
    && (Awaiting(s) ==>
          && s.rotations[|s.rotations| - 1].into == |s.sessions| - 1
          && s.sessions[|s.sessions| - 1].queue == [] && s.sessions[|s.sessions| - 1].held == [] && !s.sessions[|s.sessions| - 1].flushing)
    && (s.flights != [] && s.flights[|s.flights| - 1].active <==>
          if Awaiting(s) then s.rotations[|s.rotations| - 1].flushing else s.sessions[|s.sessions| - 1].flushing)
    && (s.flights != [] && s.flights[|s.flights| - 1].active ==> s.flights[|s.flights| - 1].target == |s.sessions| - 1)
  }

  /** One flush and one copy at a time, and everything accepted is in line. */
  ghost predicate AllInLine(s: State) {
    OneAtATime(s) && Line(s) == s.accepted
  }

  lemma EnqueueInLine(s: State, k: nat, c: string)
    requires AllInLine(s) && Enabled(s, Enqueue(k, c)) && UpToDate(s, k)
    ensures AllInLine(DoEnqueue(s, k, c))
  {
    var t := DoEnqueue(s, k, c);
    assert Line(t) == Line(s) + [Msg(|s.accepted|, c)];
  }

  lemma BeginInLine(s: State, k: nat)
    requires AllInLine(s) && Enabled(s, Begin(k)) && UpToDate(s, k)
    ensures AllInLine(DoBegin(s, k))
  {
    var t := DoBegin(s, k);
    assert FlightMsgs(s) == [] && FlightMsgs(t) == s.sessions[k].held;
    assert Line(t) == Line(s);
  }

  lemma CopyInLine(s: State, k: nat, f: nat)
    requires AllInLine(s) && Enabled(s, Copy(k, f)) && InTurn(s, Copy(k, f))
    ensures AllInLine(DoCopy(s, k, f))
  {
    var t := DoCopy(s, k, f);
    assert FlightMsgs(t) == FlightMsgs(s) && TransitMsgs(t) == s.sessions[k].held && TransitMsgs(s) == [];
    assert Line(t) == Line(s);
  }

  lemma PasteOneAtATime(s: State, r: nat)
    requires OneAtATime(s) && Enabled(s, Paste(r))
    ensures OneAtATime(DoPaste(s, r)) && r == |s.rotations| - 1 && !Awaiting(DoPaste(s, r))
  {
  }

  lemma PastedHead(s: State, r: nat)
    requires OneAtATime(s) && Enabled(s, Paste(r)) && RotationSays(s.rotations[r]) && r == |s.rotations| - 1
    ensures DoPaste(s, r).sessions[|s.sessions| - 1].held == s.rotations[r].held && s.sessions[|s.sessions| - 1].held == []
  {
    assert [] + s.rotations[r].held == s.rotations[r].held;
  }

  lemma MoveOver(a: seq<Msg>, b: seq<Msg>)
    ensures a + b + [] == a + [] + b
  {
  }

  lemma PasteInLine(s: State, r: nat)
    requires AllInLine(s) && Enabled(s, Paste(r)) && RotationSays(s.rotations[r])
    ensures AllInLine(DoPaste(s, r))
  {
    PasteOneAtATime(s, r);
    PastedHead(s, r);
    MoveOver(s.delivered + FlightMsgs(s), s.rotations[r].held);
  }

  lemma RestoreInLine(s: State, f: nat, onSource: bool)
    requires AllInLine(s) && Enabled(s, Restore(f, onSource)) && FlightSays(s.flights[f]) && UpToDate(s, Home(s.flights[f], onSource))
    ensures AllInLine(DoRestore(s, f, onSource))
  {
    var t, k := DoRestore(s, f, onSource), Home(s.flights[f], onSource);
    assert [s.flights[f].text][0] != "";
    assert f == |s.flights| - 1 && FlightMsgs(t) == [];
    assert t.sessions[k].held == FlightMsgs(s) + s.sessions[k].held;
    assert Line(t) == Line(s);
  }

  lemma CompleteInLine(s: State, f: nat)
    requires AllInLine(s) && Enabled(s, Complete(f)) && !Awaiting(s)
    ensures AllInLine(DoComplete(s, f))
  {
    var t := DoComplete(s, f);
    assert f == |s.flights| - 1 && FlightMsgs(t) == [];
    assert t.delivered == s.delivered + FlightMsgs(s);
    assert Line(t) == Line(s);
  }

  lemma RemoveInLine(s: State, k: nat)
    requires AllInLine(s) && Enabled(s, Remove(k)) && k != |s.sessions| - 1
    ensures AllInLine(DoRemove(s, k))
  {
    var t := DoRemove(s, k);
    assert Line(t) == Line(s);
  }

  lemma StepInLine(s: State, op: Op)
    requires Speaks(s) && AllInLine(s) && InTurn(s, op)
    ensures AllInLine(Do(s, op))
  {
    if Enabled(s, op) {
      match op
      case Enqueue(k, c) => EnqueueInLine(s, k, c);
      case Begin(k) => BeginInLine(s, k);
      case Copy(k, f) => CopyInLine(s, k, f);
      case Paste(r) => PasteInLine(s, r);
      case Restore(f, src) => RestoreInLine(s, f, src);
      case Complete(f) => CompleteInLine(s, f);
      case Remove(k) => RemoveInLine(s, k);
    }
  }

  /** When every step concerns the newest session, with its copy arrived, and a marked session is
      rotated only by its own flush: at most one flush is in flight, it ends in the newest session,
      which is marked only meanwhile, and delivered, flying, copied and queued messages are the
      accepted ones in order. */
  lemma {:induction false} OneFlight(ops: seq<Op>)
    requires Orderly(ops)
    ensures AllInLine(Run(ops))
  {
    if ops != [] {
      OneFlight(ops[..|ops| - 1]);
      TextIsMessages(ops[..|ops| - 1]);
      StepInLine(Run(ops[..|ops| - 1]), ops[|ops| - 1]);
    }
  }

  /** The texts of the same line. */
  function TextLine(s: State): seq<string>
    requires s.sessions != []
  {
    s.texts
    + (if s.flights != [] && s.flights[|s.flights| - 1].active then [s.flights[|s.flights| - 1].text] else [])
    + (if Awaiting(s) then s.rotations[|s.rotations| - 1].queue else [])
    + s.sessions[|s.sessions| - 1].queue
  }

  lemma TextLineSays(s: State)
    requires Speaks(s) && s.sessions != []
    ensures Says(TextLine(s), Line(s))
  {
    var a := if s.flights != [] && s.flights[|s.flights| - 1].active then [s.flights[|s.flights| - 1].text] else [];
    var b := if Awaiting(s) then s.rotations[|s.rotations| - 1].queue else [];
    assert Texts([]) == [];
    assert s.flights != [] ==> FlightSays(s.flights[|s.flights| - 1]);
    assert s.rotations != [] ==> RotationSays(s.rotations[|s.rotations| - 1]);
    assert SessionSays(s.sessions[|s.sessions| - 1]);
    SaysConcat(s.texts, s.delivered, a, FlightMsgs(s));
    SaysConcat(s.texts + a, s.delivered + FlightMsgs(s), b, TransitMsgs(s));
    SaysConcat(s.texts + a + b, s.delivered + FlightMsgs(s) + TransitMsgs(s), s.sessions[|s.sessions| - 1].queue, s.sessions[|s.sessions| - 1].held);
  }

  lemma NewestNotStuck(s: State)
    requires OneAtATime(s)
    ensures !Stuck(s, |s.sessions| - 1)
  {
    if s.sessions[|s.sessions| - 1].flushing {
      var f := |s.flights| - 1;
      assert s.flights[f].active && s.flights[f].target == |s.sessions| - 1;
    }
  }

  ghost predicate TextInLine(s: State) {
    && OneAtATime(s) && Join(TextLine(s)) == Join(Texts(s.accepted))
    && !Stuck(s, |s.sessions| - 1)
  }

  lemma LineReads(s: State)
    requires Speaks(s) && AllInLine(s)
    ensures TextInLine(s)
  {
    TextLineSays(s);
    NewestNotStuck(s);
  }

  /** So the texts delivered, in flight, copied and queued, joined by the separator, are all accepted
      texts in order, joined by the separator, and the newest session can be flushed. */
  lemma TextInOrder(ops: seq<Op>)
    requires Orderly(ops)
    ensures TextInLine(Run(ops))
  {
    OneFlight(ops);
    TextIsMessages(ops);
    LineReads(Run(ops));
  }

  // ---------- what goes wrong otherwise ----------

  lemma TotalOne<T>(x: T, f: T -> nat)
    ensures Total([x], f) == f(x)
  {
    assert [x] == [] + [x];
    TotalSnoc([], x, f);
  }

  lemma TotalTwo<T>(x: T, y: T, f: T -> nat)
    ensures Total([x, y], f) == f(x) + f(y)
  {
    assert [x, y] == [x] + [y];
    TotalSnoc([x], y, f);
    TotalOne(x, f);
  }

  const A := Msg(0, "a")
  const B := Msg(1, "b")

  /** A session that holds the message, and the same after it was copied. */
  const HOLDS := FRESH.(queue := ["a"], held := [A])
  const HELD := HOLDS.(copied := true)

  lemma FirstEnqueue()
    ensures Do(START, Enqueue(0, "a")) == State([HOLDS], [], [], [], [], [A])
  {
    var s := Do(START, Enqueue(0, "a"));
    assert [] + ["a"] == ["a"] && [] + [A] == [A];
    assert s.sessions == [HOLDS];
  }

  /** What two sessions have to come. */
  lemma ComesTwo(s: State, m: Msg)
    requires |s.sessions| == 2
    ensures ToCome(s, 2, m) ==
            (if s.sessions[0].Dead() || Stuck(s, 0) then 0 else Occurs(s.sessions[0].held, m)) +
            (if s.sessions[1].Dead() || Stuck(s, 1) then 0 else Occurs(s.sessions[1].held, m))
  {
    assert ToCome(s, 1, m) == ToCome(s, 0, m) + if s.sessions[0].Dead() || Stuck(s, 0) then 0 else Occurs(s.sessions[0].held, m);
  }

  /** Text that reaches a session after its queue was copied is lost. */
  lemma LateTextIsLost()
    ensures var s := Do(Do(START, Copy(0, 0)), Enqueue(0, "a"));
            s.accepted == [A] && Visible(s, A) == 0
  {
    var s1 := Do(START, Copy(0, 0));
    var s2 := Do(s1, Enqueue(0, "a"));
    var c := Rotation(1, [], [], false, false);
    assert s1.sessions == [FRESH.(copied := true), NEXT] && s1.rotations == [c] && s1.flights == [];
    assert [] + ["a"] == ["a"] && [] + [A] == [A];
    assert s2.sessions == [HELD, NEXT];
    ComesTwo(s2, A);
    TotalOne(c, InTransit(A));
  }

  /** The queue has been copied into a continuation. */
  lemma RotatedQueue()
    ensures Do(Do(Do(START, Enqueue(0, "a")), Copy(0, 0)), Paste(0)) ==
            State([HELD, HOLDS.(continuation := true)], [], [Rotation(1, ["a"], [A], false, true)], [], [], [A])
  {
    FirstEnqueue();
    var s2 := Do(Do(START, Enqueue(0, "a")), Copy(0, 0));
    var s3 := Do(s2, Paste(0));
    assert s2.sessions == [HELD, NEXT] && s2.rotations == [Rotation(1, ["a"], [A], false, false)];
    assert [] + ["a"] == ["a"] && [] + [A] == [A];
    assert s3.sessions == [HELD, HOLDS.(continuation := true)] && s3.rotations == [Rotation(1, ["a"], [A], false, true)];
  }

  /** A flush of the old session after its queue was copied delivers the text a second time. */
  lemma OldFlushDoubles()
    ensures var s := Do(Do(Do(Do(START, Enqueue(0, "a")), Copy(0, 0)), Paste(0)), Begin(0));
            s.accepted == [A] && Visible(s, A) == 2
  {
    RotatedQueue();
    var s3 := Do(Do(Do(START, Enqueue(0, "a")), Copy(0, 0)), Paste(0));
    var s4 := DoBegin(s3, 0);
    var fl := Flight("a", [A], 0, 0, true);
    assert s4.sessions == [HELD.(queue := [], held := [], flushing := true), HOLDS.(continuation := true)] && s4.flights == [fl];
    ComesTwo(s4, A);
    TotalOne(fl, InFlight(A));
    TotalOne(s3.rotations[0], InTransit(A));
  }

  const BUSY := FRESH.(flushing := true)

  /** A flush has taken its text out and its session was rotated, by itself or by another caller. */
  lemma RotatedFlush(f: nat)
    ensures Do(Do(Do(Do(START, Enqueue(0, "a")), Begin(0)), Copy(0, f)), Paste(0)) ==
            State([BUSY.(copied := true), BUSY.(continuation := true)], [Flight("a", [A], 0, if f == 0 then 1 else 0, true)],
                  [Rotation(1, [], [], true, true)], [], [], [A])
  {
    FirstEnqueue();
    var s2 := Do(Do(START, Enqueue(0, "a")), Begin(0));
    var s3 := Do(s2, Copy(0, f));
    var s4 := Do(s3, Paste(0));
    assert s2.sessions == [BUSY] && s2.flights == [Flight("a", [A], 0, 0, true)];
    assert s3.sessions == [BUSY.(copied := true), NEXT] && s3.rotations == [Rotation(1, [], [], true, false)];
    assert s3.flights == [Flight("a", [A], 0, if f == 0 then 1 else 0, true)];
    assert NEXT.queue + s3.rotations[0].queue == [] && NEXT.held + s3.rotations[0].held == [];
    assert s4.sessions == [BUSY.(copied := true), BUSY.(continuation := true)] && s4.rotations == [Rotation(1, [], [], true, true)];
  }

  /** A flush that rotates its session, does not find the continuation and puts the text back into
      the old session loses it, and leaves the continuation stuck. */
  lemma MisplacedRestoreLoses()
    ensures var s := Do(Do(Do(Do(Do(START, Enqueue(0, "a")), Begin(0)), Copy(0, 0)), Paste(0)), Restore(0, true));
            s.accepted == [A] && Visible(s, A) == 0 && s.sessions == [HELD, BUSY.(continuation := true)] && Stuck(s, 1)
  {
    RotatedFlush(0);
    var s4 := Do(Do(Do(Do(START, Enqueue(0, "a")), Begin(0)), Copy(0, 0)), Paste(0));
    var s5 := DoRestore(s4, 0, true);
    assert ["a"] + [] == ["a"] && [A] + [] == [A];
    assert s5.sessions == [HELD, BUSY.(continuation := true)] && s5.flights == [Flight("a", [A], 0, 1, false)];
    ComesTwo(s5, A);
    TotalOne(Flight("a", [A], 0, 1, false), InFlight(A));
    TotalOne(s4.rotations[0], InTransit(A));
  }

  /** Another caller has rotated the session while it was being flushed, and the flush has ended. */
  lemma CopiedMarker()
    ensures Do(Do(Do(Do(Do(START, Enqueue(0, "a")), Begin(0)), Copy(0, 1)), Paste(0)), Complete(0)) ==
            State([FRESH.(copied := true), BUSY.(continuation := true)], [Flight("a", [A], 0, 0, false)],
                  [Rotation(1, [], [], true, true)], ["a"], [A], [A])
  {
    RotatedFlush(1);
    var s4 := Do(Do(Do(Do(START, Enqueue(0, "a")), Begin(0)), Copy(0, 1)), Paste(0));
    var s5 := DoComplete(s4, 0);
    assert [] + [A] == [A] && [] + ["a"] == ["a"];
    assert s5.sessions == [FRESH.(copied := true), BUSY.(continuation := true)] && s5.flights == [Flight("a", [A], 0, 0, false)];
  }

  lemma EnqueueStuck(s: State)
    requires s == State([FRESH.(copied := true), BUSY.(continuation := true)], [Flight("a", [A], 0, 0, false)],
                        [Rotation(1, [], [], true, true)], ["a"], [A], [A])
    ensures var t := Do(s, Enqueue(1, "b"));
            t.accepted == [A, B] && t.delivered == [A] && Stuck(t, 1) && Visible(t, B) == 0
  {
    var t := DoEnqueue(s, 1, "b");
    assert [] + ["b"] == ["b"] && [] + [B] == [B] && [A] + [B] == [A, B];
    assert t.sessions == [FRESH.(copied := true), Session(["b"], [B], true, false, false, true)];
    ComesTwo(t, B);
    TotalOne(s.flights[0], InFlight(B));
    TotalOne(s.rotations[0], InTransit(B));
  }

  /** Another caller rotates the session while it is being flushed, and copies the marker. The flush
      ends in the old session, so the continuation stays marked, and text queued there never leaves. */
  lemma CopiedMarkerStrands()
    ensures var s := Do(Do(Do(Do(Do(Do(START, Enqueue(0, "a")), Begin(0)), Copy(0, 1)), Paste(0)), Complete(0)), Enqueue(1, "b"));
            s.accepted == [A, B] && s.delivered == [A] && Stuck(s, 1) && Visible(s, B) == 0
  {
    CopiedMarker();
    EnqueueStuck(Do(Do(Do(Do(Do(START, Enqueue(0, "a")), Begin(0)), Copy(0, 1)), Paste(0)), Complete(0)));
  }

  /** An idle session that is removed takes its queued text with it. */
  lemma IdleRemovalLoses()
    ensures var s := Do(Do(START, Enqueue(0, "a")), Remove(0));
            s.accepted == [A] && Visible(s, A) == 0
  {
    FirstEnqueue();
    var s := DoRemove(Do(START, Enqueue(0, "a")), 0);
    assert s.sessions == [HOLDS.(gone := true)];
    assert ToCome(s, 1, A) == ToCome(s, 0, A);
  }

  // ---------- text gets through ----------

  /** After any run, what is put into a new session and flushed is delivered. */
  lemma NewSessionDelivers(ops: seq<Op>, c: string)
    requires c != ""
    ensures var s := Run(ops);
            var t := Do(Do(Do(Do(s, Start), Enqueue(|s.sessions|, c)), Begin(|s.sessions|)), Complete(|s.flights|));
            && t.texts == s.texts + [c] && t.delivered == s.delivered + [Msg(|s.accepted|, c)]
            && t.accepted == s.accepted + [Msg(|s.accepted|, c)] && t.sessions == s.sessions + [FRESH]
  {
    var s := Run(ops);
    var n, m := |s.sessions|, Msg(|s.accepted|, c);
    var s1 := Do(s, Start);
    var s2 := Do(s1, Enqueue(n, c));
    assert s2.sessions[n] == FRESH.(queue := [c], held := [m]);
    var s3 := Do(s2, Begin(n));
    assert Join([c]) == c;
    assert s3.sessions[n] == FRESH.(flushing := true) && s3.flights[|s.flights|] == Flight(c, [m], n, n, true);
    var t := Do(s3, Complete(|s.flights|));
    assert t.sessions == s.sessions + [FRESH];
  }

  /** The rest of a run in which a flush has rotated its session. */
  lemma RotatedDelivers(s4: State)
    requires s4 == State([BUSY.(copied := true), BUSY.(continuation := true)], [Flight("a", [A], 0, 1, true)],
                         [Rotation(1, [], [], true, true)], [], [], [A])
    ensures var s5 := Do(s4, Enqueue(1, "b"));
            var s6 := Do(s5, Complete(0));
            var s7 := Do(s6, Begin(1));
            && InTurn(s4, Enqueue(1, "b")) && InTurn(s5, Complete(0)) && InTurn(s6, Begin(1)) && InTurn(s7, Complete(1))
            && Do(s7, Complete(1)).texts == ["a", "b"]
  {
    var s5 := Do(s4, Enqueue(1, "b"));
    assert s5.sessions[1] == BUSY.(continuation := true, queue := ["b"], held := [Msg(1, "b")]);
    var s6 := Do(s5, Complete(0));
    assert s6.texts == ["a"] && s6.sessions[1] == NEXT.(queue := ["b"], held := [Msg(1, "b")]) && |s6.flights| == 1;
    var s7 := Do(s6, Begin(1));
    assert Join(["b"]) == "b";
    assert s7.flights[1] == Flight("b", [Msg(1, "b")], 1, 1, true) && s7.texts == ["a"];
  }

  lemma RotatesInTurn()
    ensures var s1 := Do(START, Enqueue(0, "a"));
            var s2 := Do(s1, Begin(0));
            var s3 := Do(s2, Copy(0, 0));
            InTurn(START, Enqueue(0, "a")) && InTurn(s1, Begin(0)) && InTurn(s2, Copy(0, 0)) && InTurn(s3, Paste(0))
  {
    FirstEnqueue();
    var s2 := Do(Do(START, Enqueue(0, "a")), Begin(0));
    assert s2.sessions == [BUSY] && s2.flights == [Flight("a", [A], 0, 0, true)];
  }

  lemma OneMore(ops: seq<Op>, op: Op)
    requires Orderly(ops) && InTurn(Run(ops), op)
    ensures Orderly(ops + [op]) && Run(ops + [op]) == Do(Run(ops), op)
  {
    assert (ops + [op])[..|ops|] == ops;
  }

  lemma FourMore(ops: seq<Op>, a: Op, b: Op, c: Op, d: Op) returns (more: seq<Op>)
    requires Orderly(ops) && InTurn(Run(ops), a) && InTurn(Do(Run(ops), a), b)
    requires InTurn(Do(Do(Run(ops), a), b), c) && InTurn(Do(Do(Do(Run(ops), a), b), c), d)
    ensures more == ops + [a] + [b] + [c] + [d] && Orderly(more) && Run(more) == Do(Do(Do(Do(Run(ops), a), b), c), d)
  {
    OneMore(ops, a);
    OneMore(ops + [a], b);
    OneMore(ops + [a] + [b], c);
    OneMore(ops + [a] + [b] + [c], d);
    more := ops + [a] + [b] + [c] + [d];
  }

  /** A run that keeps the order: a flush rotates its session, text queued meanwhile goes to the
      continuation, and all of it is delivered. */
  lemma RotationInOrder() returns (ops: seq<Op>)
    ensures Orderly(ops) && Copy(0, 0) in ops && Run(ops).texts == ["a", "b"]
  {
    RotatesInTurn();
    RotatedFlush(0);
    ops := FourMore([], Enqueue(0, "a"), Begin(0), Copy(0, 0), Paste(0));
    assert ops[2] == Copy(0, 0);
    RotatedDelivers(Run(ops));
    ops := FourMore(ops, Enqueue(1, "b"), Complete(0), Begin(1), Complete(1));
  }
}
