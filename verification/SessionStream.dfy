/** Appending, publishing and subscribing in internal/agent/session.go. A message gets the
    next counter value when it is stored, and is published under that value in a separate
    step, so that publications of different goroutines may overtake each other. */
module SessionStream {
  import opened Options
  import opened Subscriptions

  class SessionManager<M> {
    var messages: seq<M>
    var sequenceID: nat
    const subpub: SubPub<M>

    constructor (history: seq<M>, sequenceID: nat)
      ensures messages == history && this.sequenceID == sequenceID
      ensures fresh(subpub) && subpub.Valid() && subpub.subscribers == []
    {
      messages, this.sequenceID := history, sequenceID;
      subpub := new SubPub<M>();
    }

    method AppendMessage(msg: M) returns (id: nat)
      modifies this
      ensures messages == old(messages) + [msg]
      ensures id == sequenceID == old(sequenceID) + 1
    {
      messages := messages + [msg];
      sequenceID := sequenceID + 1;
      id := sequenceID;
    }

    /** The snapshot and the place in the stream belong to the same moment. */
    method SubscribeWithSnapshot() returns (snapshot: seq<M>, sub: Subscriber<M>)
      requires subpub.Valid()
      modifies subpub
      ensures subpub.Valid() && fresh(sub) && sub.AsView() == Fresh(sequenceID)
      ensures subpub.subscribers == old(subpub.subscribers) + [sub]
      ensures snapshot == messages
    {
      var lastSeq := sequenceID;
      snapshot := messages;
      sub := subpub.Subscribe(lastSeq);
    }

    /** Records a message: stores it, then publishes it under the value it was given. */
    method Record(msg: M, outside: nat -> seq<Outside>) returns (id: nat)
      requires subpub.Valid()
      modifies this, subpub, subpub.subscribers
      ensures messages == old(messages) + [msg] && id == sequenceID == old(sequenceID) + 1
      ensures subpub.Valid() && subpub.subscribers == Kept(old(subpub.subscribers))
      ensures forall k :: 0 <= k < |old(subpub.subscribers)| ==>
                old(subpub.subscribers)[k].AsView() ==
                Offered(old(subpub.subscribers[k].AsView()), Publish(old(sequenceID) + 1, msg), outside(k))
    {
      id := AppendMessage(msg);
      subpub.Deliver(Publish(id, msg), outside);
    }
  }

  // ---------- every interleaving ----------

  /** Steps of the goroutines that share a session, as seen by one subscriber. Messages are
      named by the counter value they were given. A publication looks at the subscriber first
      and sends later. */
  datatype Op = Append | PublishOne(id: int) | BroadcastOne | SendOne | Subscribe | ReceiveOne | CancelSub

  /** `stored` are the counter values of the stored messages and `unpublished` those on the
      way from storing to publishing. */
  datatype State = State(counter: int, stored: seq<int>, unpublished: set<int>, sub: Subscription)

  /** The subscriber's snapshot, all it has been through since, and how it is now. */
  datatype Subscription = NotYet | Since(start: int, snapshot: seq<int>, events: seq<Event<int>>, now: Life<int>) {
    /** The publisher is about to send to the subscriber, and holds its lock. */
    predicate Busy() {
      Since? && now.view.pending.Some?
    }

    /** The message that is about to be sent. */
    predicate Sending(id: int) {
      Busy() && now.view.pending.value == Publish(id, id)
    }

    /** The publications that the publisher is through with, in order. */
    function Order(): seq<Publication<int>>
      requires Since?
    {
      Publishes(now.settled)
    }
  }

  function SubEvent(s: State, e: Event<int>): State {
    if s.sub.NotYet? then s else s.(sub := s.sub.(events := s.sub.events + [e], now := Live(s.sub.now, e)))
  }

  function Do(s: State, op: Op): State {
    match op
    case Append => s.(counter := s.counter + 1, stored := s.stored + [s.counter + 1], unpublished := s.unpublished + {s.counter + 1})
    case PublishOne(id) =>
      if id in s.unpublished && !s.sub.Busy() then SubEvent(s.(unpublished := s.unpublished - {id}), Check(Publish(id, id))) else s
    case BroadcastOne => if s.sub.Busy() then s else SubEvent(s, Check(Broadcast(0)))
    case SendOne => SubEvent(s, Event<int>.Send)
    case Subscribe => if s.sub.NotYet? then s.(sub := Since(s.counter, s.stored, [], LiveAll(s.counter, []))) else s
    case ReceiveOne => SubEvent(s, Receive)
    case CancelSub => SubEvent(s, Cancel)
  }

  function Run(s: State, ops: seq<Op>): State {
    if ops == [] then s else Do(Run(s, ops[..|ops| - 1]), ops[|ops| - 1])
  }

  /** A restored session: messages with values up to the counter, nothing on its way. */
  ghost predicate Initial(s: State) {
    && s.unpublished == {} && s.sub.NotYet?
    && (forall k :: 0 <= k < |s.stored| ==> s.stored[k] <= s.counter)
  }

  ghost predicate Inv(s: State) {
    && (forall id :: id in s.unpublished ==> id <= s.counter)
    && (forall k :: 0 <= k < |s.stored| ==> s.stored[k] <= s.counter)
    && (s.sub.Since? ==> s.sub.now == LiveAll(s.sub.start, s.sub.events) && SnapshotInv(s) && OrderInv(s))
  }

  /** The snapshot holds the values up to `start`, and later messages the values after it. */
  ghost predicate SnapshotInv(s: State)
    requires s.sub.Since?
  {
    var n := |s.sub.snapshot|;
    && s.sub.snapshot <= s.stored && s.counter == s.sub.start + |s.stored| - n
    && (forall k :: 0 <= k < n ==> s.stored[k] <= s.sub.start)
    && (forall k :: n <= k < |s.stored| ==> s.stored[k] == s.sub.start + 1 + k - n)
  }

  ghost predicate OrderInv(s: State)
    requires s.sub.Since?
  {
    OnTheWay(s.sub.Order(), s.sub.now.view.pending, s.unpublished, s.counter, s.sub.start)
  }

  /** Where a message is on its way from storing to the subscriber: not published yet, about to be
      sent, or dealt with. */
  ghost predicate OnTheWay(order: seq<Publication<int>>, pending: Option<Publication<int>>, unpublished: set<int>, counter: int, start: int) {
    && Named(order)
    && (pending.Some? && pending.value.Publish? ==>
          var p := pending.value;
          p == Publish(p.id, p.id) && p.id <= counter && p.id !in unpublished && p !in order)
    && (forall p :: p in order ==> p.id <= counter && p.id !in unpublished)
    && (forall id :: start < id <= counter ==> id in unpublished || pending == Some(Publish(id, id)) || Publish(id, id) in order)
  }

  lemma WaySent(order: seq<Publication<int>>, id: int, unpublished: set<int>, counter: int, start: int)
    requires OnTheWay(order, Some(Publish(id, id)), unpublished, counter, start)
    ensures OnTheWay(order + [Publish(id, id)], None, unpublished, counter, start)
  {
    var p := Publish(id, id);
    NamedSnoc(order, id);
    assert forall q :: q in order + [p] <==> q in order || q == p;
  }

  lemma WayChecked(order: seq<Publication<int>>, id: int, unpublished: set<int>, counter: int, start: int)
    requires OnTheWay(order, None, unpublished, counter, start) && id in unpublished && id <= counter
    ensures OnTheWay(order, Some(Publish(id, id)), unpublished - {id}, counter, start)
  {
  }

  /** Each publication carries the message of its id, and none comes twice. */
  ghost predicate Named(ps: seq<Publication<int>>) {
    && (forall k :: 0 <= k < |ps| ==> ps[k].Publish? && ps[k] == Publish(ps[k].id, ps[k].id))
    && (forall i, j :: 0 <= i < j < |ps| ==> ps[i].id != ps[j].id)
  }

  lemma NamedSnoc(ps: seq<Publication<int>>, id: int)
    requires Named(ps) && Publish(id, id) !in ps
    ensures Named(ps + [Publish(id, id)])
  {
    forall k | 0 <= k < |ps| ensures ps[k].id != id {
      assert ps[k] in ps;
    }
  }

  /** What an event adds to the order of this subscriber. */
  lemma OrderStep(l: Life<int>, e: Event<int>)
    ensures Publishes(Live(l, e).settled) ==
            var p := Settles(l.view, e);
            if p != [] && p[0].Publish? then Publishes(l.settled) + p else Publishes(l.settled)
  {
    var p := Settles(l.view, e);
    if p == [] {
      assert l.settled + p == l.settled;
    } else {
      PublishesSnoc(l.settled, p[0]);
    }
  }

  /** An event that neither begins nor ends a publication with an id. */
  lemma QuietInv(s: State, e: Event<int>)
    requires Inv(s) && (e.Check? ==> e.p.Broadcast? && !s.sub.Busy())
    requires e.Send? && s.sub.Busy() ==> s.sub.now.view.pending.value.Broadcast?
    ensures Inv(SubEvent(s, e))
  {
    if s.sub.Since? {
      LiveSnoc(s.sub.start, s.sub.events, e);
      OrderStep(s.sub.now, e);
      QuietStep(s.sub.now.view, e);
    }
  }

  lemma QuietStep(v: View<int>, e: Event<int>)
    requires (e.Check? ==> e.p.Broadcast? && v.pending.None?) && (e.Send? && v.pending.Some? ==> v.pending.value.Broadcast?)
    ensures Settles(v, e) == [] || Settles(v, e)[0].Broadcast?
    ensures Next(v, e).pending == v.pending || (Next(v, e).pending.Some? && Next(v, e).pending.value.Broadcast? && v.pending.None?)
            || (Next(v, e).pending.None? && v.pending.Some? && v.pending.value.Broadcast?)
  {
  }

  lemma SendInv(s: State, id: int)
    requires Inv(s) && s.sub.Sending(id)
    ensures Inv(SubEvent(s, Event<int>.Send))
  {
    LiveSnoc(s.sub.start, s.sub.events, Event<int>.Send);
    SendOrder(s.sub.now, id);
    WaySent(s.sub.Order(), id, s.unpublished, s.counter, s.sub.start);
    var t := SubEvent(s, Event<int>.Send);
    assert t.sub.Order() == s.sub.Order() + [Publish(id, id)] && t.sub.now.view.pending == None;
  }

  lemma SendOrder(l: Life<int>, id: int)
    requires l.view.pending == Some(Publish(id, id))
    ensures Publishes(Live(l, Event<int>.Send).settled) == Publishes(l.settled) + [Publish(id, id)]
    ensures Live(l, Event<int>.Send).view.pending == None
  {
    PublishesSnoc(l.settled, Publish(id, id));
  }

  lemma CheckStep(v: View<int>, p: Publication<int>)
    requires v.pending.None?
    ensures if Next(v, Check(p)).pending.Some? then Next(v, Check(p)).pending == Some(p) && Settles(v, Check(p)) == []
            else Settles(v, Check(p)) == [p]
  {
  }

  lemma PublishInv(s: State, id: int)
    requires Inv(s) && id in s.unpublished && !s.sub.Busy()
    ensures Inv(Do(s, PublishOne(id)))
  {
    if s.sub.Since? {
      var order, p := s.sub.Order(), Publish(id, id);
      LiveSnoc(s.sub.start, s.sub.events, Check(p));
      OrderStep(s.sub.now, Check(p));
      CheckStep(s.sub.now.view, p);
      WayChecked(order, id, s.unpublished, s.counter, s.sub.start);
      WaySent(order, id, s.unpublished - {id}, s.counter, s.sub.start);
    }
  }

  lemma SubscribeInv(s: State)
    requires Inv(s) && s.sub.NotYet?
    ensures Inv(Do(s, Subscribe))
  {
    var t := Do(s, Subscribe);
    assert t.sub.now.settled == [] && t.sub.Order() == [];
  }

  lemma {:induction false} RunInv(s: State, ops: seq<Op>)
    requires Initial(s)
    ensures Inv(Run(s, ops))
  {
    if ops != [] {
      RunInv(s, ops[..|ops| - 1]);
      StepInv(Run(s, ops[..|ops| - 1]), ops[|ops| - 1]);
    }
  }

  lemma StepInv(s: State, op: Op)
    requires Inv(s)
    ensures Inv(Do(s, op))
  {
    match op
    case Append => AppendInv(s);
    case PublishOne(id) => if id in s.unpublished && !s.sub.Busy() { PublishInv(s, id); }
    case BroadcastOne => if !s.sub.Busy() { QuietInv(s, Check(Broadcast(0))); }
    case SendOne =>
      if s.sub.Busy() && s.sub.now.view.pending.value.Publish? {
        SendInv(s, s.sub.now.view.pending.value.id);
      } else {
        QuietInv(s, Event<int>.Send);
      }
    case Subscribe => if s.sub.NotYet? { SubscribeInv(s); }
    case ReceiveOne => QuietInv(s, Receive);
    case CancelSub => QuietInv(s, Cancel);
  }

  lemma AppendInv(s: State)
    requires Inv(s)
    ensures Inv(Do(s, Append))
  {
    var t := Do(s, Append);
    assert t.sub == s.sub;
    if s.sub.Since? {
      forall p | p in s.sub.Order() ensures p.id !in t.unpublished {
        assert p.id <= s.counter && p.id !in s.unpublished;
      }
    }
  }

  /** The published ids that reached the subscriber's channel. */
  ghost function Streamed(sub: Subscription): seq<Publication<int>>
    requires sub.Since?
  {
    Publishes(sub.now.sent)
  }

  ghost predicate InStream(sub: Subscription, id: int)
    requires sub.Since?
  {
    Publish(id, id) in Streamed(sub)
  }

  /** A publication with a larger id came before that of `id`. */
  ghost predicate Overtaken(order: seq<Publication<int>>, id: int) {
    exists i, j :: 0 <= i < j < |order| && order[j] == Publish(id, id) && order[i].Publish? && order[i].id > id
  }

  /** In every interleaving, no message is both in the snapshot and in the stream, and the
      stream is strictly increasing, so no message is in it twice. */
  lemma NeverTwice(s: State, ops: seq<Op>)
    requires Initial(s) && Run(s, ops).sub.Since?
    ensures var sub := Run(s, ops).sub;
            && (forall k :: 0 <= k < |sub.snapshot| ==> !InStream(sub, sub.snapshot[k]))
            && (forall i, j :: 0 <= i < j < |Streamed(sub)| ==> Streamed(sub)[i].id < Streamed(sub)[j].id)
  {
    var sub := Run(s, ops).sub;
    RunInv(s, ops);
    DeliveredMaxima(sub.start, sub.events);
    MaximaIncrease(sub.start, Publishes(LiveAll(sub.start, WhileListed(sub.start, sub.events)).settled));
    forall k | 0 <= k < |sub.snapshot| ensures !InStream(sub, sub.snapshot[k]) {
      assert sub.snapshot[k] == Run(s, ops).stored[k];
    }
  }

  /** Where message `id` is. */
  ghost predicate Placed(r: State, k: nat)
    requires r.sub.Since? && k < |r.stored|
  {
    var id := r.stored[k];
    if k < |r.sub.snapshot| then !InStream(r.sub, id)
    else if id in r.unpublished || r.sub.Sending(id) then Publish(id, id) !in r.sub.Order() && !InStream(r.sub, id)
    else Publish(id, id) in r.sub.Order() && (InStream(r.sub, id) <==> !Overtaken(r.sub.Order(), id))
  }

  /** In every interleaving, for a subscriber that is not dropped, each stored message is in
      the snapshot, or still to be published or sent, or in the stream, or lost; and it is lost
      exactly when a later message overtook it between storing and publishing. */
  lemma ExactlyOnce(s: State, ops: seq<Op>, k: nat)
    requires Initial(s) && Run(s, ops).sub.Since?
    requires k < |Run(s, ops).stored|
    requires Run(s, ops).sub.now.view.listed
    ensures Placed(Run(s, ops), k)
  {
    RunInv(s, ops);
    NeverTwice(s, ops);
    var r := Run(s, ops);
    var id, ps := r.stored[k], r.sub.Order();
    ListedMaxima(r.sub.start, r.sub.events);
    MaximaMembers(r.sub.start, ps, Publish(id, id));
    if k >= |r.sub.snapshot| && Publish(id, id) in ps {
      MaximumIff(r.sub.start, ps, id);
    }
  }

  /** In a list without repetitions, being a maximum means not being overtaken. */
  lemma MaximumIff(start: int, ps: seq<Publication<int>>, id: int)
    requires Named(ps) && Publish(id, id) in ps && start < id
    ensures (exists n :: 0 <= n < |ps| && ps[n] == Publish(id, id) && IsMaximum(start, ps, n)) <==> !Overtaken(ps, id)
  {
    var j :| 0 <= j < |ps| && ps[j] == Publish(id, id);
    assert forall n :: 0 <= n < |ps| && ps[n] == Publish(id, id) ==> n == j;
    assert IsMaximum(start, ps, j) <==> !Overtaken(ps, id);
  }

  /** When publications happen in the order of the counter, nothing is overtaken, so with
      nothing left to publish or send every message is in exactly one of snapshot and stream. */
  lemma InOrderNothingLost(s: State, ops: seq<Op>, k: nat)
    requires Initial(s) && Run(s, ops).sub.Since?
    requires k < |Run(s, ops).stored|
    requires Run(s, ops).sub.now.view.listed
    requires Run(s, ops).unpublished == {} && !Run(s, ops).sub.Busy()
    requires forall i, j :: 0 <= i < j < |Run(s, ops).sub.Order()| ==> Run(s, ops).sub.Order()[i].id < Run(s, ops).sub.Order()[j].id
    ensures k < |Run(s, ops).sub.snapshot| <==> !InStream(Run(s, ops).sub, Run(s, ops).stored[k])
  {
    ExactlyOnce(s, ops, k);
  }

  /** Two messages stored in one order and published in the other: the first never arrives. */
  lemma OvertakenIsLost()
    ensures var s := Do(Do(Do(State(0, [], {}, NotYet), Subscribe), Append), Append);
            var r := Do(Do(Do(s, PublishOne(2)), SendOne), PublishOne(1));
            r.sub.Since? && r.stored == [1, 2] && r.unpublished == {} && !r.sub.Busy() && !InStream(r.sub, 1) && InStream(r.sub, 2)
  {
    var s := Do(Do(Do(State(0, [], {}, NotYet), Subscribe), Append), Append);
    assert s.stored == [1, 2] && s.unpublished == {1, 2} && s.sub.now == Life(Fresh(0), [], [], []);
    OvertakenLife();
    var s1 := Do(s, PublishOne(2));
    assert s1.unpublished == {1};
    var s2 := Do(s1, SendOne);
    var s3 := Do(s2, PublishOne(1));
    assert s3.unpublished == {};
  }

  lemma OvertakenLife()
    ensures var l1 := Live(Life(Fresh(0), [], [], []), Check(Publish(2, 2)));
            var l2 := Live(l1, Event<int>.Send);
            var l3 := Live(l2, Check(Publish(1, 1)));
            l1.view.pending.Some? && l2.view.pending.None? && l3.view.pending.None? && Publishes(l3.sent) == [Publish(2, 2)]
  {
    var p := Publish(2, 2);
    var l1 := Live(Life(Fresh(0), [], [], []), Check(p));
    assert l1.view == View(0, [], false, false, true, Some(p)) && l1.sent == [];
    var l2 := Live(l1, Event<int>.Send);
    assert l2.view == View(2, [2], false, false, true, None) && l2.sent == [] + [p];
    PublishesSnoc([], p);
  }
}
