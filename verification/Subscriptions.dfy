/** The publish-subscribe mechanism of internal/agent/subpub.go: subscribers with a bounded
    channel each, a publisher that skips what a subscriber has had and drops the ones that
    do not keep up. Cancelling and receiving take no lock, so they may happen between the
    publisher's look at a subscriber and its send. */
module Subscriptions {
  import opened Options

  const CAPACITY := 10

  datatype Publication<K> = Publish(id: int, message: K) | Broadcast(message: K)

  /** A subscriber as a value. `listed` says whether the publisher still knows it, `pending` what
      the publisher is about to send to it. */
  datatype View<K> = View(seqID: int, ch: seq<K>, closed: bool, done: bool, listed: bool, pending: Option<Publication<K>>)

  /** What can happen to one subscriber. A publication looks at it first and sends later; the
      publisher's lock keeps a second publication from coming in between. */
  datatype Event<K> = Check(p: Publication<K>) | Send | Receive | Cancel

  function Fresh<K>(seqID: int): View<K> {
    View(seqID, [], false, false, true, None)
  }

  function Next<K>(v: View<K>, e: Event<K>): View<K> {
    match e
    case Receive => if v.ch == [] then v else v.(ch := v.ch[1..])
    case Cancel => v.(done := true)
    case Check(p) =>
      if !v.listed || v.pending.Some? then v
      else if v.done then v.(closed := true, listed := false)
      else if p.Publish? && v.seqID >= p.id then v
      else v.(pending := Some(p))
    case Send =>
      if v.pending.None? then v
      else
        var p := v.pending.value;
        if |v.ch| < CAPACITY then
          v.(ch := v.ch + [p.message], seqID := if p.Publish? then p.id else v.seqID, pending := None)
        else v.(closed := true, done := true, listed := false, pending := None)
  }

  /** What the receiver and its context do, at any moment. */
  datatype Outside = Receives | Cancels

  function After<K>(v: View<K>, outside: seq<Outside>): View<K> {
    if outside == [] then v
    else Next(After(v, outside[..|outside| - 1]), if outside[|outside| - 1].Receives? then Receive else Cancel)
  }

  class Subscriber<K> {
    var seqID: int
    var ch: seq<K>
    var closed: bool
    var done: bool
    ghost var listed: bool
    ghost var pending: Option<Publication<K>>

    ghost function AsView(): View<K>
      reads this
    {
      View(seqID, ch, closed, done, listed, pending)
    }

    constructor (seqID: int)
      ensures AsView() == Fresh(seqID)
    {
      this.seqID, ch, closed, done, listed, pending := seqID, [], false, false, true, None;
    }

    /** Closes the channel of a subscriber that has gone away. */
    method IsDone() returns (d: bool)
      modifies this`closed
      ensures d == done
      ensures closed == (old(closed) || done)
    {
      if done {
        closed := true;
      }
      d := done;
    }

    /** Sending on a closed channel would crash the program, so it must be open. */
    method Send(message: K) returns (sent: bool)
      requires !closed
      modifies this`ch, this`closed, this`done
      ensures sent == (|old(ch)| < CAPACITY)
      ensures ch == if sent then old(ch) + [message] else old(ch)
      ensures closed == !sent && done == (old(done) || !sent)
    {
      if |ch| < CAPACITY {
        ch := ch + [message];
        return true;
      }
      closed, done := true, true;
      return false;
    }

    /** The publisher's look at a subscriber; `go` when it will send to it. */
    method CheckFor(p: Publication<K>) returns (go: bool)
      requires !closed && listed && pending.None?
      modifies this
      ensures AsView() == old(Next(AsView(), Check(p)))
      ensures go == pending.Some? && (listed ==> !closed)
    {
      var d := IsDone();
      if d {
        listed := false;
        return false;
      }
      if p.Publish? && seqID >= p.id {
        return false;
      }
      pending := Some(p);
      return true;
    }

    /** The receiver and its context in the meantime. */
    method Meanwhile(outside: seq<Outside>)
      modifies this`ch, this`done
      ensures AsView() == old(After(AsView(), outside))
    {
      for i := 0 to |outside|
        invariant AsView() == old(After(AsView(), outside[..i]))
      {
        assert outside[..i + 1][..i] == outside[..i];
        if outside[i].Receives? {
          var _, _ := TryReceive();
        } else {
          CancelContext();
        }
      }
      assert outside[..|outside|] == outside;
    }

    /** What the publisher does with one subscriber it knows; false when it forgets it. */
    method Offer(p: Publication<K>, outside: seq<Outside>) returns (keep: bool)
      requires !closed && listed && pending.None?
      modifies this
      ensures AsView() == old(Offered(AsView(), p, outside))
      ensures keep == listed && (keep ==> !closed) && pending.None?
    {
      var go := CheckFor(p);
      ghost var checked := AsView();
      Meanwhile(outside);
      OutsideKeeps(checked, outside);
      OfferedSteps(old(AsView()), p, outside);
      if go {
        keep := Send(p.message);
        if keep && p.Publish? {
          seqID := p.id;
        }
        listed, pending := keep, None;
      } else {
        keep := !closed;
      }
    }

    /** The receiving end: the oldest message, or the end of the subscription. A receiver
        that finds nothing while the subscription is alive waits, which changes nothing. */
    method TryReceive() returns (message: seq<K>, over: bool)
      modifies this`ch
      ensures message == if old(ch) == [] then [] else [old(ch)[0]]
      ensures AsView() == old(Next(AsView(), Receive))
      ensures over <==> message == [] && (closed || done)
    {
      if ch != [] {
        message := [ch[0]];
        ch := ch[1..];
        over := false;
      } else {
        message := [];
        over := closed || done;
      }
    }

    method CancelContext()
      modifies this`done
      ensures AsView() == old(Next(AsView(), Cancel))
    {
      done := true;
    }
  }

  /** A look, whatever the receiver and its context do, and the send. */
  function Offered<K>(v: View<K>, p: Publication<K>, outside: seq<Outside>): View<K> {
    if v.done then After(v, outside).(closed := true, listed := false)
    else if p.Publish? && v.seqID >= p.id then After(v, outside)
    else Put(After(v, outside), p)
  }

  /** The message goes into the channel, or the subscriber is dropped. */
  function Put<K>(v: View<K>, p: Publication<K>): View<K> {
    if |v.ch| < CAPACITY then v.(ch := v.ch + [p.message], seqID := if p.Publish? then p.id else v.seqID)
    else v.(closed := true, done := true, listed := false)
  }

  /** It is the two steps of the publisher, with the others in between. */
  lemma OfferedSteps<K>(v: View<K>, p: Publication<K>, outside: seq<Outside>)
    requires IsSound(v)
    ensures Offered(v, p, outside) == Next(After(Next(v, Check(p)), outside), Event<K>.Send)
  {
    AfterOnly(v, Next(v, Check(p)), outside);
    OutsideKeeps(v, outside);
    OutsideKeeps(Next(v, Check(p)), outside);
  }

  /** The receiver and its context do not look at the rest. */
  lemma {:induction false} AfterOnly<K>(v: View<K>, w: View<K>, outside: seq<Outside>)
    requires v.ch == w.ch && v.done == w.done
    ensures After(v, outside).ch == After(w, outside).ch && After(v, outside).done == After(w, outside).done
  {
    if outside != [] {
      AfterOnly(v, w, outside[..|outside| - 1]);
    }
  }

  lemma {:induction false} OutsideKeeps<K>(v: View<K>, outside: seq<Outside>)
    ensures var w := After(v, outside);
            w.seqID == v.seqID && w.closed == v.closed && w.listed == v.listed && w.pending == v.pending
  {
    if outside != [] {
      OutsideKeeps(v, outside[..|outside| - 1]);
    }
  }

  class SubPub<K> {
    var subscribers: seq<Subscriber<K>>

    /** Listed subscribers are distinct, their channels are open, and no send is under way. */
    ghost predicate Valid()
      reads this, subscribers
    {
      && (forall i, j :: 0 <= i < j < |subscribers| ==> subscribers[i] != subscribers[j])
      && (forall i :: 0 <= i < |subscribers| ==> Sound(subscribers[i]))
    }

    constructor ()
      ensures Valid() && subscribers == []
    {
      subscribers := [];
    }

    method Subscribe(seqID: int) returns (sub: Subscriber<K>)
      requires Valid()
      modifies this`subscribers
      ensures Valid() && fresh(sub) && sub.AsView() == Fresh(seqID)
      ensures subscribers == old(subscribers) + [sub]
    {
      sub := new Subscriber(seqID);
      subscribers := subscribers + [sub];
    }

    /** Each subscriber takes its own steps, and those still listed remain, in order. `outside(k)`
        is what happens to the receiver and the context of subscriber `k` between the look at it
        and the send; what happens before its look is as if before the publication. */
    method Deliver(p: Publication<K>, outside: nat -> seq<Outside>)
      requires Valid()
      modifies this, subscribers
      ensures Valid() && subscribers == Kept(old(subscribers))
      ensures forall k :: 0 <= k < |old(subscribers)| ==>
                old(subscribers)[k].AsView() == Offered(old(subscribers[k].AsView()), p, outside(k))
    {
      ghost var views := Views(subscribers);
      ghost var goal := Goals(views, p, outside);
      GoalsSound(views, p, outside);
      var remaining := OfferAll(subscribers, p, outside, views, goal);
      PickIsKept(subscribers, goal, |subscribers|);
      assert subscribers[..|subscribers|] == subscribers;
      KeptDistinct(subscribers);
      KeptAreSound(subscribers, goal);
      subscribers := remaining;
    }
  }

  ghost function Goals<K>(views: seq<View<K>>, p: Publication<K>, outside: nat -> seq<Outside>): seq<View<K>> {
    seq(|views|, k requires 0 <= k < |views| => Offered(views[k], p, outside(k)))
  }

  lemma GoalsSound<K>(views: seq<View<K>>, p: Publication<K>, outside: nat -> seq<Outside>)
    requires forall k :: 0 <= k < |views| ==> IsSound(views[k])
    ensures var goal := Goals(views, p, outside);
            && (forall k :: 0 <= k < |views| && goal[k].listed ==> IsSound(goal[k]))
            && (forall k {:trigger outside(k)} :: 0 <= k < |views| ==> IsSound(views[k]) && goal[k] == Offered(views[k], p, outside(k)))
  {
    forall k | 0 <= k < |views| && Goals(views, p, outside)[k].listed ensures IsSound(Goals(views, p, outside)[k]) {
      OfferedSound(views[k], p, outside(k));
    }
  }

  ghost function Views<K>(all: seq<Subscriber<K>>): seq<View<K>>
    reads all
    ensures |Views(all)| == |all| && forall k :: 0 <= k < |all| ==> Views(all)[k] == all[k].AsView()
  {
    if all == [] then [] else Views(all[..|all| - 1]) + [all[|all| - 1].AsView()]
  }

  ghost predicate Sound<K>(s: Subscriber<K>)
    reads s
  {
    s.listed && !s.closed && s.pending.None?
  }

  /** A listed subscriber with an open channel and no send under way. */
  predicate IsSound<K>(v: View<K>) {
    v.listed && !v.closed && v.pending.None?
  }

  method OfferAll<K>(all: seq<Subscriber<K>>, p: Publication<K>, outside: nat -> seq<Outside>,
                     ghost views: seq<View<K>>, ghost goal: seq<View<K>>)
    returns (remaining: seq<Subscriber<K>>)
    requires forall i, j :: 0 <= i < j < |all| ==> all[i] != all[j]
    requires |views| == |goal| == |all|
    requires forall k {:trigger outside(k)} :: 0 <= k < |all| ==> IsSound(views[k]) && goal[k] == Offered(views[k], p, outside(k))
    requires forall k :: 0 <= k < |all| ==> all[k].AsView() == views[k]
    modifies all
    ensures remaining == Pick(all, goal, |all|)
    ensures forall k :: 0 <= k < |all| ==> all[k].AsView() == goal[k]
  {
    remaining := [];
    for i := 0 to |all|
      invariant remaining == Pick(all, goal, i)
      invariant forall k :: 0 <= k < |all| ==> all[k].AsView() == if k < i then goal[k] else views[k]
    {
      var keep := OfferTo(all[i], p, outside(i), views[i], goal[i]);
      if keep {
        remaining := remaining + [all[i]];
      }
    }
  }

  method OfferTo<K>(s: Subscriber<K>, p: Publication<K>, outside: seq<Outside>, ghost v: View<K>, ghost goal: View<K>) returns (keep: bool)
    requires s.AsView() == v && IsSound(v) && goal == Offered(v, p, outside)
    modifies s
    ensures s.AsView() == goal && keep == goal.listed
  {
    keep := s.Offer(p, outside);
  }

  lemma OfferedSound<K>(v: View<K>, p: Publication<K>, outside: seq<Outside>)
    requires IsSound(v)
    ensures Offered(v, p, outside).listed ==> IsSound(Offered(v, p, outside))
  {
    OutsideKeeps(v, outside);
  }

  /** Those of the first `n` whose view will be listed. */
  ghost function Pick<K>(all: seq<Subscriber<K>>, goal: seq<View<K>>, n: nat): seq<Subscriber<K>>
    requires n <= |all| == |goal|
  {
    if n == 0 then [] else Pick(all, goal, n - 1) + if goal[n - 1].listed then [all[n - 1]] else []
  }

  /** The subscribers that are still listed. */
  ghost function Kept<K>(all: seq<Subscriber<K>>): seq<Subscriber<K>>
    reads all
  {
    if all == [] then []
    else
      var n := |all| - 1;
      if all[n].listed then Kept(all[..n]) + [all[n]] else Kept(all[..n])
  }

  lemma {:induction false} PickIsKept<K>(all: seq<Subscriber<K>>, goal: seq<View<K>>, n: nat)
    requires n <= |all| == |goal| && forall k :: 0 <= k < |all| ==> all[k].AsView() == goal[k]
    ensures Pick(all, goal, n) == Kept(all[..n])
  {
    if n > 0 {
      PickIsKept(all, goal, n - 1);
      assert all[..n][..n - 1] == all[..n - 1];
    }
  }

  lemma {:induction false} KeptAreListed<K>(all: seq<Subscriber<K>>)
    requires forall i, j :: 0 <= i < j < |all| ==> all[i] != all[j]
    ensures forall s :: s in Kept(all) <==> s in all && s.listed
    ensures forall i, j :: 0 <= i < j < |Kept(all)| ==> Kept(all)[i] != Kept(all)[j]
  {
    if all != [] {
      var n := |all| - 1;
      KeptAreListed(all[..n]);
      assert all == all[..n] + [all[n]];
    }
  }

  lemma KeptDistinct<K>(all: seq<Subscriber<K>>)
    requires forall i, j :: 0 <= i < j < |all| ==> all[i] != all[j]
    ensures forall i, j :: 0 <= i < j < |Kept(all)| ==> Kept(all)[i] != Kept(all)[j]
  {
    KeptAreListed(all);
  }

  lemma {:induction false} KeptAreSound<K>(all: seq<Subscriber<K>>, goal: seq<View<K>>)
    requires |goal| == |all| && forall k :: 0 <= k < |all| ==> all[k].AsView() == goal[k] && (goal[k].listed ==> IsSound(goal[k]))
    ensures forall i :: 0 <= i < |Kept(all)| ==> Sound(Kept(all)[i])
  {
    if all != [] {
      var n := |all| - 1;
      KeptAreSound(all[..n], goal[..n]);
      assert all[n].AsView() == goal[n];
    }
  }

  // ---------- the life of a subscriber ----------

  /** A subscriber together with what was ever sent to it, what it ever received, and the
      publications that the publisher is through with as far as this subscriber goes. */
  datatype Life<K> = Life(view: View<K>, sent: seq<Publication<K>>, received: seq<K>, settled: seq<Publication<K>>)

  /** Whether this event puts a message into the channel. */
  predicate Sends<K>(v: View<K>, e: Event<K>) {
    e.Send? && v.pending.Some? && |v.ch| < CAPACITY
  }

  /** The publication that the publisher is through with after this event, if any. */
  function Settles<K>(v: View<K>, e: Event<K>): seq<Publication<K>> {
    if e.Send? && v.pending.Some? then [v.pending.value]
    else if e.Check? && v.pending.None? && Next(v, e).pending.None? then [e.p]
    else []
  }

  function Live<K>(l: Life<K>, e: Event<K>): Life<K> {
    Life(Next(l.view, e),
         if Sends(l.view, e) then l.sent + [l.view.pending.value] else l.sent,
         if e.Receive? && l.view.ch != [] then l.received + [l.view.ch[0]] else l.received,
         l.settled + Settles(l.view, e))
  }

  /** Any run of looks, sends, receives and cancellations, from the subscription on. */
  function LiveAll<K>(start: int, es: seq<Event<K>>): Life<K> {
    if es == [] then Life(Fresh(start), [], [], [])
    else Live(LiveAll(start, es[..|es| - 1]), es[|es| - 1])
  }

  function Messages<K>(ps: seq<Publication<K>>): seq<K> {
    seq(|ps|, k requires 0 <= k < |ps| => ps[k].message)
  }

  /** Those with an id. */
  function Publishes<K>(ps: seq<Publication<K>>): (r: seq<Publication<K>>)
    ensures forall k :: 0 <= k < |r| ==> r[k].Publish?
  {
    if ps == [] then []
    else
      var n := |ps| - 1;
      if ps[n].Publish? then Publishes(ps[..n]) + [ps[n]] else Publishes(ps[..n])
  }

  /** Publication `n` has a larger id than the starting id and every publication before it. */
  ghost predicate IsMaximum<K>(start: int, ps: seq<Publication<K>>, n: nat)
    requires n < |ps| && forall k :: 0 <= k < |ps| ==> ps[k].Publish?
  {
    start < ps[n].id && forall j :: 0 <= j < n ==> ps[j].id < ps[n].id
  }

  /** The strict running maxima among the publications. */
  ghost function Maxima<K>(start: int, ps: seq<Publication<K>>): seq<Publication<K>>
    requires forall k :: 0 <= k < |ps| ==> ps[k].Publish?
  {
    if ps == [] then []
    else
      var n := |ps| - 1;
      if IsMaximum(start, ps, n) then Maxima(start, ps[..n]) + [ps[n]] else Maxima(start, ps[..n])
  }

  lemma {:induction false} MaximaMembers<K>(start: int, ps: seq<Publication<K>>, e: Publication<K>)
    requires forall k :: 0 <= k < |ps| ==> ps[k].Publish?
    ensures e in Maxima(start, ps) <==> exists n :: 0 <= n < |ps| && ps[n] == e && IsMaximum(start, ps, n)
  {
    if ps != [] {
      var n := |ps| - 1;
      MaximaMembers(start, ps[..n], e);
      forall k | 0 <= k < n ensures IsMaximum(start, ps[..n], k) <==> IsMaximum(start, ps, k) {
        assert ps[..n][k] == ps[k];
      }
      if k :| 0 <= k < n && ps[..n][k] == e && IsMaximum(start, ps[..n], k) {
        assert ps[k] == e && IsMaximum(start, ps, k);
      }
      if k :| 0 <= k < n && ps[k] == e && IsMaximum(start, ps, k) {
        assert ps[..n][k] == e && IsMaximum(start, ps[..n], k);
      }
    }
  }

  lemma {:induction false} MaximaIncrease<K>(start: int, ps: seq<Publication<K>>)
    requires forall k :: 0 <= k < |ps| ==> ps[k].Publish?
    ensures forall i :: 0 <= i < |Maxima(start, ps)| ==> Maxima(start, ps)[i].Publish? && start < Maxima(start, ps)[i].id
    ensures forall i, j :: 0 <= i < j < |Maxima(start, ps)| ==> Maxima(start, ps)[i].id < Maxima(start, ps)[j].id
  {
    if ps != [] {
      var n := |ps| - 1;
      var ms := Maxima(start, ps[..n]);
      MaximaIncrease(start, ps[..n]);
      forall i | 0 <= i < |ms| ensures exists j :: 0 <= j < n && ps[j] == ms[i] {
        MaximaMembers(start, ps[..n], ms[i]);
      }
    }
  }

  /** Messages come out of the channel in the order they went in, none lost and none twice; the
      channel never overflows, and it is open whenever the publisher is about to send. */
  lemma {:induction false} ChannelKeepsOrder<K>(start: int, es: seq<Event<K>>)
    ensures var l := LiveAll(start, es);
            && l.received + l.view.ch == Messages(l.sent)
            && |l.view.ch| <= CAPACITY
            && (l.view.closed <==> !l.view.listed)
            && (l.view.closed ==> l.view.done)
            && (l.view.pending.Some? ==> !l.view.closed)
  {
    if es != [] {
      ChannelKeepsOrder(start, es[..|es| - 1]);
      var l, e := LiveAll(start, es[..|es| - 1]), es[|es| - 1];
      if Sends(l.view, e) {
        assert Messages(l.sent + [l.view.pending.value]) == Messages(l.sent) + [l.view.pending.value.message];
      }
      if e.Receive? && l.view.ch != [] {
        assert (l.received + [l.view.ch[0]]) + l.view.ch[1..] == l.received + l.view.ch;
      }
    }
  }

  /** The subscriber's id is the largest it has been shown. */
  ghost predicate IsTop<K>(start: int, ps: seq<Publication<K>>, top: int)
    requires forall k :: 0 <= k < |ps| ==> ps[k].Publish?
  {
    && start <= top && (forall j :: 0 <= j < |ps| ==> ps[j].id <= top)
    && (top == start || exists j :: 0 <= j < |ps| && ps[j].id == top)
  }

  lemma PublishesSnoc<K>(ps: seq<Publication<K>>, p: Publication<K>)
    ensures Publishes(ps + [p]) == if p.Publish? then Publishes(ps) + [p] else Publishes(ps)
  {
    assert (ps + [p])[..|ps|] == ps;
  }

  lemma MaximaSnoc<K>(start: int, ps: seq<Publication<K>>, top: int, p: Publication<K>)
    requires (forall k :: 0 <= k < |ps| ==> ps[k].Publish?) && p.Publish? && IsTop(start, ps, top)
    ensures Maxima(start, ps + [p]) == if top < p.id then Maxima(start, ps) + [p] else Maxima(start, ps)
  {
    var more := ps + [p];
    assert more[..|ps|] == ps;
    assert IsMaximum(start, more, |ps|) <==> top < p.id;
  }

  lemma TopSnoc<K>(start: int, ps: seq<Publication<K>>, top: int, p: Publication<K>)
    requires (forall k :: 0 <= k < |ps| ==> ps[k].Publish?) && p.Publish? && IsTop(start, ps, top)
    ensures IsTop(start, ps + [p], if top < p.id then p.id else top)
  {
    if top < p.id {
      assert (ps + [p])[|ps|].id == p.id;
    } else if top != start {
      var j :| 0 <= j < |ps| && ps[j].id == top;
      assert (ps + [p])[j].id == top;
    }
  }

  /** What a listed subscriber was sent, and where it stands. */
  ghost predicate UpToDate<K>(l: Life<K>, start: int) {
    var ps := Publishes(l.settled);
    && Publishes(l.sent) == Maxima(start, ps) && IsTop(start, ps, l.view.seqID)
    && (l.view.pending.Some? && l.view.pending.value.Publish? ==> l.view.seqID < l.view.pending.value.id)
  }

  lemma {:induction false} ListedMaxima<K>(start: int, es: seq<Event<K>>)
    requires LiveAll(start, es).view.listed
    ensures UpToDate(LiveAll(start, es), start)
  {
    if es != [] {
      var n := |es| - 1;
      ListedMaxima(start, es[..n]);
      ListedStep(LiveAll(start, es[..n]), start, es[n]);
    }
  }

  lemma SendStep<K>(l: Life<K>, start: int, p: Publication<K>)
    requires l.view.listed && l.view.pending == Some(p) && |l.view.ch| < CAPACITY && UpToDate(l, start)
    ensures UpToDate(Live(l, Event<K>.Send), start)
  {
    PublishesSnoc(l.settled, p);
    PublishesSnoc(l.sent, p);
    if p.Publish? {
      MaximaSnoc(start, Publishes(l.settled), l.view.seqID, p);
      TopSnoc(start, Publishes(l.settled), l.view.seqID, p);
    }
  }

  lemma SkipStep<K>(l: Life<K>, start: int, p: Publication<K>)
    requires l.view.listed && !l.view.done && l.view.pending.None? && p.Publish? && l.view.seqID >= p.id && UpToDate(l, start)
    ensures UpToDate(Live(l, Check(p)), start)
  {
    PublishesSnoc(l.settled, p);
    MaximaSnoc(start, Publishes(l.settled), l.view.seqID, p);
    TopSnoc(start, Publishes(l.settled), l.view.seqID, p);
  }

  lemma ListedStep<K>(l: Life<K>, start: int, e: Event<K>)
    requires l.view.listed && Live(l, e).view.listed && UpToDate(l, start)
    ensures UpToDate(Live(l, e), start)
  {
    if Settles(l.view, e) == [] {
      assert l.settled + [] == l.settled;
    } else if e.Send? {
      SendStep(l, start, l.view.pending.value);
    } else {
      SkipStep(l, start, e.p);
    }
  }

  /** The part of the run in which the publisher knew the subscriber: all of it, unless the
      subscriber was dropped. */
  function WhileListed<K>(start: int, es: seq<Event<K>>): (r: seq<Event<K>>)
    ensures r <= es && LiveAll(start, r).view.listed
    ensures LiveAll(start, es).view.listed ==> r == es
  {
    if LiveAll(start, es).view.listed then es else WhileListed(start, es[..|es| - 1])
  }

  /** What was published to a subscriber, up to the moment it was dropped (if it was), is
      exactly the strict running maxima of the ids published so far above its starting id. */
  lemma {:induction false} DeliveredMaxima<K>(start: int, es: seq<Event<K>>)
    ensures Publishes(LiveAll(start, es).sent) == Maxima(start, Publishes(LiveAll(start, WhileListed(start, es)).settled))
  {
    if LiveAll(start, es).view.listed {
      ListedMaxima(start, es);
    } else {
      DeliveredMaxima(start, es[..|es| - 1]);
      ChannelKeepsOrder(start, es[..|es| - 1]);
      DropSendsNothing(LiveAll(start, es[..|es| - 1]), es[|es| - 1]);
    }
  }

  lemma DropSendsNothing<K>(l: Life<K>, e: Event<K>)
    requires !Live(l, e).view.listed && (l.view.pending.Some? ==> l.view.listed)
    ensures Live(l, e).sent == l.sent
  {
  }

  // ---------- after the end ----------

  /** A receiver that asks now is told that the subscription is over. */
  predicate ReportsEnd<K>(v: View<K>) {
    v.ch == [] && (v.closed || v.done)
  }

  predicate SendsIn<K>(more: seq<Event<K>>) {
    more != [] && (more[|more| - 1].Send? || SendsIn(more[..|more| - 1]))
  }

  /** What is still sent after the end was reported: the message that the publisher was about to
      send at that moment, once it sends it. */
  function SentAfterEnd<K>(v: View<K>, more: seq<Event<K>>): seq<Publication<K>> {
    if v.pending.Some? && SendsIn(more) then [v.pending.value] else []
  }

  /** The state of things after the end was reported in life `l`. */
  ghost predicate AfterEnd<K>(l: Life<K>, more: seq<Event<K>>, m: Life<K>) {
    && m.sent == l.sent + SentAfterEnd(l.view, more)
    && m.view.done && |m.view.ch| <= |SentAfterEnd(l.view, more)|
    && m.view.pending == (if SendsIn(more) then None else l.view.pending)
  }

  /** How life goes on. */
  function LiveOn<K>(l: Life<K>, more: seq<Event<K>>): Life<K> {
    if more == [] then l else Live(LiveOn(l, more[..|more| - 1]), more[|more| - 1])
  }

  lemma {:induction false} LiveConcat<K>(start: int, es: seq<Event<K>>, more: seq<Event<K>>)
    ensures LiveAll(start, es + more) == LiveOn(LiveAll(start, es), more)
  {
    if more == [] {
      assert es + more == es;
    } else {
      var n := |more| - 1;
      LiveConcat(start, es, more[..n]);
      LiveSnoc(start, es + more[..n], more[n]);
      SplitLast(es, more);
    }
  }

  lemma SplitLast<T>(a: seq<T>, b: seq<T>)
    requires b != []
    ensures (a + b[..|b| - 1]) + [b[|b| - 1]] == a + b
  {
  }

  lemma {:induction false} EndGoesOn<K>(l: Life<K>, more: seq<Event<K>>)
    requires ReportsEnd(l.view) && l.view.done
    ensures AfterEnd(l, more, LiveOn(l, more))
  {
    if more == [] {
      assert l.sent + [] == l.sent;
    } else {
      var n := |more| - 1;
      EndGoesOn(l, more[..n]);
      EndStep(l, more[..n], LiveOn(l, more[..n]), more[n]);
      assert more[..n] + [more[n]] == more;
    }
  }

  /** Once a receiver has been told that the subscription is over, one more message is sent to it
      if and only if a publication had looked at it before and sends after, and no other ever. */
  lemma OverIsFinal<K>(start: int, es: seq<Event<K>>, more: seq<Event<K>>)
    requires ReportsEnd(LiveAll(start, es).view)
    ensures AfterEnd(LiveAll(start, es), more, LiveAll(start, es + more))
  {
    ChannelKeepsOrder(start, es);
    LiveConcat(start, es, more);
    EndGoesOn(LiveAll(start, es), more);
  }

  lemma LiveSnoc<K>(start: int, es: seq<Event<K>>, e: Event<K>)
    ensures LiveAll(start, es + [e]) == Live(LiveAll(start, es), e)
  {
    assert (es + [e])[..|es|] == es;
  }

  lemma EndStep<K>(l: Life<K>, more: seq<Event<K>>, m: Life<K>, e: Event<K>)
    requires AfterEnd(l, more, m)
    ensures AfterEnd(l, more + [e], Live(m, e))
  {
    assert (more + [e])[..|more|] == more;
    OverStep(m, e);
    assert l.sent + [] == l.sent;
  }

  /** A cancelled subscriber's step. */
  lemma OverStep<K>(l: Life<K>, e: Event<K>)
    requires l.view.done && |l.view.ch| <= 1
    ensures var m := Live(l, e);
            && m.view.done
            && m.sent == l.sent + (if e.Send? && l.view.pending.Some? then [l.view.pending.value] else [])
            && |m.view.ch| <= |l.view.ch| + (if e.Send? && l.view.pending.Some? then 1 else 0)
            && m.view.pending == (if e.Send? then None else l.view.pending)
  {
  }

  /** The publisher looks, the context is cancelled, the receiver is told the end, and a further
      call of the receiver still returns the message. */
  lemma MessageAfterEnd()
    ensures var l := Live(Live(Life(Fresh(0), [], [], []), Check(Publish(1, 7))), Cancel);
            ReportsEnd(l.view) && Live(l, Receive) == l && Live(Live(l, Event<int>.Send), Receive).received == [7]
  {
    var l := Live(Live(Life(Fresh(0), [], [], []), Check(Publish(1, 7))), Cancel);
    assert l.view == View(0, [], false, true, true, Some(Publish(1, 7))) && l.settled == [];
    assert Live(l, Event<int>.Send).view.ch == [7];
  }
}
