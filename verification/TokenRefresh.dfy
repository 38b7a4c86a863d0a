/** Refreshing an OAuth credential, internal/agentoauth/manager.go: any number of callers check
    the stored credential, and those that find it close to its expiry take a lock, check again
    and refresh it (section 6 of RFC 6749). Logins and logouts change the store without the lock. */
module TokenRefresh {
  import opened Options
  import opened Text

  /** A credential without an expiry never needs a refresh. */
  datatype Credential = Credential(accessToken: string, refreshToken: string, expiresAt: Option<int>)

  predicate NeedsRefresh(c: Credential, now: int, skew: int) {
    c.expiresAt.Some? && c.expiresAt.value - now <= skew
  }

  /** The credential has no expiry or expires after `t`. */
  predicate Lasts(c: Credential, t: int) {
    c.expiresAt.None? || c.expiresAt.value > t
  }

  datatype Reply = Valid(c: Credential) | NotFound | Expired | Failed

  /** What the first look at the store, without the lock, leads to. */
  datatype FirstLook = Answer(reply: Reply) | TakeLock

  function LookFirst(store: Option<Credential>, now: int, skew: int): (look: FirstLook)
    ensures look.TakeLock? ==> store.Some?
  {
    if store.None? then Answer(NotFound)
    else if !NeedsRefresh(store.value, now, skew) then Answer(Valid(store.value))
    else if Trim(store.value.refreshToken) == "" then Answer(Expired)
    else TakeLock
  }

  /** What the second look, with the lock held, leads to. */
  datatype SecondLook = Return(reply: Reply) | Refresh(c: Credential)

  function LookAgain(store: Option<Credential>, now: int, skew: int): SecondLook {
    if store.None? then Return(NotFound)
    else if !NeedsRefresh(store.value, now, skew) then Return(Valid(store.value))
    else Refresh(store.value)
  }

  // ---------- one caller ----------

  /** What the provider makes of a refresh, and whether the result could be stored. */
  datatype Attempt = Refused | Renewed(c: Credential, stored: bool)

  class Manager {
    const refreshSkew: int
    var store: Option<Credential>
    ghost var refreshes: seq<Credential>   // the credentials that refreshes started from

    constructor (skew: int, store: Option<Credential>)
      ensures refreshSkew == skew && this.store == store && refreshes == []
    {
      refreshSkew, this.store, refreshes := skew, store, [];
    }

    /** One call. `meanwhile` is what the store holds by the time the lock is taken. */
    method EnsureValid(now: int, later: int, meanwhile: Option<Credential>, attempt: Attempt) returns (reply: Reply)
      modifies this
      ensures old(store).None? ==> reply == NotFound && unchanged(this)
      ensures old(store).Some? ==>
                var c := old(store).value;
                if Lasts(c, now + refreshSkew) then reply == Valid(c) && unchanged(this)
                else if Trim(c.refreshToken) == "" then reply == Expired && unchanged(this)
                else if meanwhile.None? then reply == NotFound && store == meanwhile && refreshes == old(refreshes)
                else if Lasts(meanwhile.value, later + refreshSkew) then reply == Valid(meanwhile.value) && store == meanwhile && refreshes == old(refreshes)
                else
                  && refreshes == old(refreshes) + [meanwhile.value]
                  && (if attempt.Renewed? && attempt.stored then reply == Valid(attempt.c) && store == Some(attempt.c)
                      else reply == Failed && store == meanwhile)
    {
      if store.None? {
        return NotFound;
      }
      if !NeedsRefresh(store.value, now, refreshSkew) {
        return Valid(store.value);
      }
      if Trim(store.value.refreshToken) == "" {
        return Expired;
      }
      store := meanwhile;
      var latest := store;
      if latest.Some? && !NeedsRefresh(latest.value, later, refreshSkew) {
        return Valid(latest.value);
      }
      if latest.None? {
        return NotFound;
      }
      refreshes := refreshes + [latest.value];
      if attempt.Refused? {
        return Failed;
      }
      if !attempt.stored {
        return Failed;
      }
      store := Some(attempt.c);
      return Valid(attempt.c);
    }
  }

  // ---------- any number of callers ----------

  /** Where a caller is. A caller that is done may call again. */
  datatype Pc = Idle | WantsLock | HoldsLock | Decided(used: Credential) | Refreshing(used: Credential) | Storing(used: Credential, c: Credential)

  /** What happened. A caller is `Answered` by its first or second look at the store, or `Waits` for
      the lock after its first and may decide on a refresh by its second `Look`. `source` is the caller whose refresh stored the credential; none for a login or a
      logout, which take no lock. */
  datatype Event =
    | Stored(credential: Option<Credential>, source: Option<int>)
    | Look(caller: int, used: Credential, at: int)
    | Request(caller: int, used: Credential)
    | Release(caller: int)
    | Answered(caller: int, reply: Reply, at: int)
    | Waits(caller: int, used: Credential, at: int)

  datatype State = State(callers: map<int, Pc>, lock: Option<int>, store: Option<Credential>, now: int, log: seq<Event>)

  /** The second look at the store and the request that follows it are separate steps. */
  datatype Op =
    | First(caller: int)
    | Acquire(caller: int)
    | Second(caller: int)
    | Ask(caller: int)
    | ProviderRefuses(caller: int)
    | ProviderRenews(caller: int, c: Credential)
    | Save(caller: int, ok: bool)
    | Login(c: Credential)
    | Logout
    | Pass(time: nat)

  function At(s: State, c: int): Pc {
    if c in s.callers then s.callers[c] else Idle
  }

  function Goto(s: State, c: int, pc: Pc): State {
    s.(callers := s.callers[c := pc])
  }

  function Log(s: State, e: Event): State {
    s.(log := s.log + [e])
  }

  function Change(s: State, credential: Option<Credential>, source: Option<int>): State {
    Log(s.(store := credential), Stored(credential, source))
  }

  function Finish(s: State, c: int): State {
    Goto(Log(s.(lock := None), Release(c)), c, Idle)
  }

  /** One step; a step that is not enabled changes nothing. */
  function Do(s: State, skew: int, op: Op): State {
    match op
    case First(c) =>
      if !At(s, c).Idle? then s
      else
        var look := LookFirst(s.store, s.now, skew);
        if look.TakeLock? then Goto(Log(s, Waits(c, s.store.value, s.now)), c, WantsLock)
        else Log(s, Answered(c, look.reply, s.now))
    case Acquire(c) =>
      if At(s, c).WantsLock? && s.lock.None? then Goto(s.(lock := Some(c)), c, HoldsLock) else s
    case Second(c) =>
      if !At(s, c).HoldsLock? then s
      else
        var look := LookAgain(s.store, s.now, skew);
        if look.Return? then Goto(Log(s.(lock := None), Answered(c, look.reply, s.now)), c, Idle)
        else Goto(Log(s, Look(c, look.c, s.now)), c, Decided(look.c))
    case Ask(c) =>
      if At(s, c).Decided? then Goto(Log(s, Request(c, At(s, c).used)), c, Refreshing(At(s, c).used)) else s
    case ProviderRefuses(c) => if At(s, c).Refreshing? then Finish(s, c) else s
    case ProviderRenews(c, cred) =>
      if At(s, c).Refreshing? then Goto(s, c, Storing(At(s, c).used, cred)) else s
    case Save(c, ok) =>
      if !At(s, c).Storing? then s
      else if ok then Finish(Change(s, Some(At(s, c).c), Some(c)), c)
      else Finish(s, c)
    case Login(cred) => Change(s, Some(cred), None)
    case Logout => Change(s, None, None)
    case Pass(t) => s.(now := s.now + t)
  }

  function Initial(store: Option<Credential>, now: int): State {
    State(map[], None, store, now, [Stored(store, None)])
  }

  function Run(s: State, skew: int, ops: seq<Op>): State {
    if ops == [] then s else Do(Run(s, skew, ops[..|ops| - 1]), skew, ops[|ops| - 1])
  }

  // ---------- what a log tells ----------

  /** What the store holds. */
  function Current(log: seq<Event>): Option<Credential> {
    if log == [] then None
    else if log[|log| - 1].Stored? then log[|log| - 1].credential
    else Current(log[..|log| - 1])
  }

  /** The second look of the caller at work, if one is. */
  function Working(log: seq<Event>): Option<Event> {
    if log == [] then None
    else
      var e := log[|log| - 1];
      if e.Look? then Some(e) else if e.Release? then None else Working(log[..|log| - 1])
  }

  ghost predicate WorksFor(log: seq<Event>, c: int) {
    Working(log).Some? && Working(log).value.Look? && Working(log).value.caller == c
  }

  /** The store is answer enough: what it holds lasts beyond `t`, or there is nothing to be had. */
  ghost predicate Answers(store: Option<Credential>, reply: Reply, t: int) {
    match reply
    case Valid(c) => store == Some(c) && Lasts(c, t)
    case NotFound => store.None?
    case Expired => store.Some? && !Lasts(store.value, t) && Trim(store.value.refreshToken) == ""
    case Failed => false
  }

  /** After `log` this may happen: an answer that the store gives; a wait for the lock if it holds one
      that can and must be renewed; a look while nobody is at work, at the credential that is stored and
      close to its expiry; a request by the one at work, from what it looked at; and only the one
      at work stores a renewed credential or gets done. */
  ghost predicate Legal(log: seq<Event>, skew: int, e: Event) {
    match e
    case Look(c, used, at) => Working(log).None? && Current(log) == Some(used) && !Lasts(used, at + skew)
    case Answered(_, reply, at) => Answers(Current(log), reply, at + skew)
    case Waits(_, used, at) => Current(log) == Some(used) && !Lasts(used, at + skew) && Trim(used.refreshToken) != ""
    case Request(c, used) => WorksFor(log, c) && Working(log).value.used == used
    case Stored(_, source) => source.Some? ==> WorksFor(log, source.value)
    case Release(c) => WorksFor(log, c)
  }

  /** Every event is legal where it stands, and a caller that has stored is done at once. */
  ghost predicate Lawful(log: seq<Event>, skew: int) {
    log == [] ||
    var n := |log| - 1;
    && Lawful(log[..n], skew) && Legal(log[..n], skew, log[n])
    && (n > 0 && log[n - 1].Stored? && log[n - 1].source.Some? ==> log[n] == Release(log[n - 1].source.value))
  }

  lemma Snoc(log: seq<Event>, e: Event)
    ensures (log + [e])[..|log|] == log
    ensures Current(log + [e]) == if e.Stored? then e.credential else Current(log)
    ensures Working(log + [e]) == if e.Look? then Some(e) else if e.Release? then None else Working(log)
  {
    assert (log + [e])[..|log|] == log;
  }

  lemma {:induction false} LawfulAt(log: seq<Event>, skew: int, k: nat)
    requires Lawful(log, skew) && k < |log|
    ensures Lawful(log[..k], skew) && Legal(log[..k], skew, log[k])
    ensures k > 0 && log[k - 1].Stored? && log[k - 1].source.Some? ==> log[k] == Release(log[k - 1].source.value)
  {
    var n := |log| - 1;
    if k < n {
      LawfulAt(log[..n], skew, k);
      assert log[..n][..k] == log[..k];
    }
  }

  // ---------- what every interleaving keeps ----------

  predicate UsesLock(pc: Pc) {
    pc.HoldsLock? || IsAtWork(pc)
  }

  predicate IsAtWork(pc: Pc) {
    pc.Decided? || pc.Refreshing? || pc.Storing?
  }

  /** The lock is held by the one caller whose place in the code says so. */
  ghost predicate LockInv(s: State) {
    forall c :: UsesLock(At(s, c)) <==> s.lock == Some(c)
  }

  /** The log knows who is at work, and with which credential. */
  ghost predicate WorkInv(s: State) {
    forall c :: Knows(s.log, At(s, c), c)
  }

  ghost predicate Knows(log: seq<Event>, pc: Pc, c: int) {
    (IsAtWork(pc) <==> WorksFor(log, c)) && (IsAtWork(pc) ==> Working(log).value.used == pc.used)
  }

  ghost predicate LogInv(s: State, skew: int) {
    && s.store == Current(s.log) && Lawful(s.log, skew)
    && (s.log != [] && s.log[|s.log| - 1].Stored? ==> s.log[|s.log| - 1].source.None?)
  }

  ghost predicate Inv(s: State, skew: int) {
    LockInv(s) && WorkInv(s) && LogInv(s, skew)
  }

  lemma LockStep(s: State, skew: int, op: Op)
    requires LockInv(s)
    ensures LockInv(Do(s, skew, op))
  {
    var t := Do(s, skew, op);
    forall c ensures UsesLock(At(t, c)) <==> t.lock == Some(c) {
      assert UsesLock(At(s, c)) <==> s.lock == Some(c);
    }
  }

  /** Whoever holds the lock and is not at work keeps everybody else from working. */
  lemma NobodyWorks(s: State, skew: int, c: int)
    requires Inv(s, skew) && At(s, c).HoldsLock?
    ensures Working(s.log).None?
  {
    WorkingIsLook(s.log);
    forall d ensures !WorksFor(s.log, d) {
      assert Knows(s.log, At(s, d), d);
      assert UsesLock(At(s, c)) && !IsAtWork(At(s, c));
      assert IsAtWork(At(s, d)) ==> UsesLock(At(s, d));
    }
  }

  lemma {:induction false} WorkingIsLook(log: seq<Event>)
    ensures Working(log).None? || exists c :: WorksFor(log, c)
  {
    if log != [] {
      var n := |log| - 1;
      WorkingIsLook(log[..n]);
      if log[n].Look? {
        assert WorksFor(log, log[n].caller);
      } else if !log[n].Release? && Working(log[..n]).Some? {
        var c :| WorksFor(log[..n], c);
        assert WorksFor(log, c);
      }
    }
  }

  lemma SecondInv(s: State, skew: int, c: int)
    requires Inv(s, skew) && At(s, c).HoldsLock? && LookAgain(s.store, s.now, skew).Refresh?
    ensures WorkInv(Do(s, skew, Second(c))) && LogInv(Do(s, skew, Second(c)), skew)
  {
    NobodyWorks(s, skew, c);
    Snoc(s.log, Look(c, LookAgain(s.store, s.now, skew).c, s.now));
    var t := Do(s, skew, Second(c));
    forall d ensures Knows(t.log, At(t, d), d) {
      assert Knows(s.log, At(s, d), d);
    }
  }

  lemma AskInv(s: State, skew: int, c: int)
    requires Inv(s, skew) && At(s, c).Decided?
    ensures WorkInv(Do(s, skew, Ask(c))) && LogInv(Do(s, skew, Ask(c)), skew)
  {
    assert Knows(s.log, At(s, c), c);
    Snoc(s.log, Request(c, At(s, c).used));
    var t := Do(s, skew, Ask(c));
    forall d ensures Knows(t.log, At(t, d), d) {
      assert Knows(s.log, At(s, d), d);
    }
  }

  lemma FinishInv(s: State, skew: int, c: int)
    requires WorkInv(s) && s.store == Current(s.log) && Lawful(s.log, skew) && IsAtWork(At(s, c))
    requires s.log != [] && s.log[|s.log| - 1].Stored? && s.log[|s.log| - 1].source.Some? ==> s.log[|s.log| - 1].source.value == c
    ensures WorkInv(Finish(s, c)) && LogInv(Finish(s, c), skew)
  {
    assert Knows(s.log, At(s, c), c);
    Snoc(s.log, Release(c));
    var t := Finish(s, c);
    forall d ensures Knows(t.log, At(t, d), d) {
      assert Knows(s.log, At(s, d), d);
    }
  }

  lemma ChangeInv(s: State, skew: int, credential: Option<Credential>, source: Option<int>)
    requires Inv(s, skew) && (source.Some? ==> IsAtWork(At(s, source.value)))
    ensures WorkInv(Change(s, credential, source))
    ensures Change(s, credential, source).store == Current(Change(s, credential, source).log) && Lawful(Change(s, credential, source).log, skew)
  {
    assert source.Some? ==> Knows(s.log, At(s, source.value), source.value);
    Snoc(s.log, Stored(credential, source));
    var t := Change(s, credential, source);
    forall d ensures Knows(t.log, At(t, d), d) {
      assert Knows(s.log, At(s, d), d);
    }
  }

  /** An answer, or the beginning of a wait. */
  lemma NoteInv(s: State, skew: int, e: Event)
    requires WorkInv(s) && LogInv(s, skew) && (e.Answered? || e.Waits?) && Legal(s.log, skew, e)
    ensures WorkInv(Log(s, e)) && LogInv(Log(s, e), skew)
  {
    Snoc(s.log, e);
    var t := Log(s, e);
    forall d ensures Knows(t.log, At(t, d), d) {
      assert Knows(s.log, At(s, d), d);
    }
  }

  lemma FirstInv(s: State, skew: int, c: int)
    requires Inv(s, skew) && At(s, c).Idle?
    ensures WorkInv(Do(s, skew, First(c))) && LogInv(Do(s, skew, First(c)), skew)
  {
    var look, t := LookFirst(s.store, s.now, skew), Do(s, skew, First(c));
    var e := if look.TakeLock? then Waits(c, s.store.value, s.now) else Answered(c, look.reply, s.now);
    NoteInv(s, skew, e);
    QuietInv(Log(s, e), t, skew);
  }

  lemma ReturnInv(s: State, skew: int, c: int)
    requires Inv(s, skew) && At(s, c).HoldsLock? && LookAgain(s.store, s.now, skew).Return?
    ensures WorkInv(Do(s, skew, Second(c))) && LogInv(Do(s, skew, Second(c)), skew)
  {
    var e := Answered(c, LookAgain(s.store, s.now, skew).reply, s.now);
    NoteInv(s, skew, e);
    QuietInv(Log(s, e), Do(s, skew, Second(c)), skew);
  }

  /** A step that logs nothing and changes nobody's work. */
  lemma QuietInv(s: State, t: State, skew: int)
    requires WorkInv(s) && LogInv(s, skew) && t.log == s.log && t.store == s.store
    requires forall c :: IsAtWork(At(t, c)) == IsAtWork(At(s, c)) && (IsAtWork(At(t, c)) ==> At(t, c).used == At(s, c).used)
    ensures WorkInv(t) && LogInv(t, skew)
  {
    forall d ensures Knows(t.log, At(t, d), d) {
      assert Knows(s.log, At(s, d), d);
    }
  }

  lemma SaveInv(s: State, skew: int, c: int)
    requires Inv(s, skew) && At(s, c).Storing?
    ensures WorkInv(Do(s, skew, Save(c, true))) && LogInv(Do(s, skew, Save(c, true)), skew)
  {
    ChangeInv(s, skew, Some(At(s, c).c), Some(c));
    FinishInv(Change(s, Some(At(s, c).c), Some(c)), skew, c);
  }

  lemma StepInv(s: State, skew: int, op: Op)
    requires Inv(s, skew)
    ensures Inv(Do(s, skew, op), skew)
  {
    LockStep(s, skew, op);
    match op
    case Second(c) =>
      if At(s, c).HoldsLock? {
        if LookAgain(s.store, s.now, skew).Refresh? {
          SecondInv(s, skew, c);
        } else {
          ReturnInv(s, skew, c);
        }
      }
    case Ask(c) => if At(s, c).Decided? { AskInv(s, skew, c); }
    case ProviderRefuses(c) => if At(s, c).Refreshing? { FinishInv(s, skew, c); }
    case Save(c, ok) =>
      if At(s, c).Storing? {
        if ok {
          SaveInv(s, skew, c);
        } else {
          FinishInv(s, skew, c);
        }
      }
    case Login(cred) => ChangeInv(s, skew, Some(cred), None);
    case Logout => ChangeInv(s, skew, None, None);
    case First(c) => if At(s, c).Idle? { FirstInv(s, skew, c); }
    case Acquire(_) => QuietInv(s, Do(s, skew, op), skew);
    case ProviderRenews(_, _) => QuietInv(s, Do(s, skew, op), skew);
    case Pass(_) => QuietInv(s, Do(s, skew, op), skew);
  }

  lemma {:induction false} RunInv(store: Option<Credential>, now: int, skew: int, ops: seq<Op>)
    ensures Inv(Run(Initial(store, now), skew, ops), skew)
  {
    if ops != [] {
      RunInv(store, now, skew, ops[..|ops| - 1]);
      StepInv(Run(Initial(store, now), skew, ops[..|ops| - 1]), skew, ops[|ops| - 1]);
    } else {
      InitialInv(store, now, skew);
    }
  }

  lemma InitialInv(store: Option<Credential>, now: int, skew: int)
    ensures Inv(Initial(store, now), skew)
  {
    var s, e := Initial(store, now), Stored(store, None);
    assert [] + [e] == [e];
    Snoc([], e);
    assert s.log[..0] == [] && Lawful([], skew) && Legal([], skew, e);
    forall c ensures Knows(s.log, At(s, c), c) && (UsesLock(At(s, c)) <==> s.lock == Some(c)) {
      assert At(s, c) == Idle;
    }
  }

  /** In every interleaving of any number of callers, at most one is between its second look and the
      end of its refresh. */
  lemma OneRefreshAtATime(store: Option<Credential>, now: int, skew: int, ops: seq<Op>, c: int, d: int)
    requires IsAtWork(At(Run(Initial(store, now), skew, ops), c)) && IsAtWork(At(Run(Initial(store, now), skew, ops), d))
    ensures c == d
  {
    RunInv(store, now, skew, ops);
    var s := Run(Initial(store, now), skew, ops);
    assert UsesLock(At(s, c)) && UsesLock(At(s, d));
  }

  // ---------- who is answered without a refresh, and who refreshes ----------

  /** In every interleaving, a caller that its first or second look answers gets what is stored at
      that moment, and it expires more than `skew` after it or not at all; there is no credential
      only if none is stored, and an expired one only if it could not be renewed. */
  lemma AnswersAreCurrent(store: Option<Credential>, now: int, skew: int, ops: seq<Op>, k: nat)
    requires var log := Run(Initial(store, now), skew, ops).log;
             k < |log| && log[k].Answered?
    ensures var log := Run(Initial(store, now), skew, ops).log;
            var held, at := Current(log[..k]), log[k].at;
            match log[k].reply
            case Valid(c) => held == Some(c) && (c.expiresAt.None? || c.expiresAt.value > at + skew)
            case NotFound => held == None
            case Expired => held.Some? && held.value.expiresAt.Some? && held.value.expiresAt.value <= at + skew && Trim(held.value.refreshToken) == ""
            case Failed => false
  {
    RunInv(store, now, skew, ops);
    LawfulAt(Run(Initial(store, now), skew, ops).log, skew, k);
  }

  /** In every reachable state: an idle caller goes for the lock exactly if it finds a credential that
      expires at most `skew` from now, or has expired, and can be renewed; otherwise it is answered.
      With the lock, it decides on a refresh exactly if what it finds then expires at most `skew`
      from now, or has expired; otherwise it is answered, and the lock is free again. */
  lemma LooksDecide(store: Option<Credential>, now: int, skew: int, ops: seq<Op>, c: int)
    ensures var s := Run(Initial(store, now), skew, ops);
            var t := Do(s, skew, First(c));
            At(s, c).Idle? ==>
              && (At(t, c).WantsLock? <==>
                    && s.store.Some? && s.store.value.expiresAt.Some? && s.store.value.expiresAt.value <= s.now + skew
                    && Trim(s.store.value.refreshToken) != "")
              && (At(t, c).WantsLock? ==> t.log == s.log + [Waits(c, s.store.value, s.now)])
              && (!At(t, c).WantsLock? ==> At(t, c).Idle? && exists reply :: t.log == s.log + [Answered(c, reply, s.now)])
    ensures var s := Run(Initial(store, now), skew, ops);
            var t := Do(s, skew, Second(c));
            At(s, c).HoldsLock? ==>
              && (forall x :: At(t, c) == Decided(x) <==> s.store == Some(x) && x.expiresAt.Some? && x.expiresAt.value <= s.now + skew)
              && (At(t, c).Decided? ==> t.lock == Some(c) && t.log == s.log + [Look(c, s.store.value, s.now)])
              && (!At(t, c).Decided? ==> At(t, c).Idle? && t.lock.None? && exists reply :: t.log == s.log + [Answered(c, reply, s.now)])
  {
    RunInv(store, now, skew, ops);
    var s := Run(Initial(store, now), skew, ops);
    assert At(s, c).HoldsLock? ==> UsesLock(At(s, c));
  }

  // ---------- which credential a refresh uses, and what it overwrites ----------

  /** Nothing was stored between positions `i` and `k`. */
  ghost predicate NothingStored(log: seq<Event>, i: nat, k: nat)
    requires k <= |log|
  {
    forall j :: i < j < k ==> !log[j].Stored?
  }

  lemma {:induction false} CurrentSince(log: seq<Event>, i: nat, k: nat)
    requires i < k <= |log| && NothingStored(log, i, k)
    ensures Current(log[..k]) == if log[i].Stored? then log[i].credential else Current(log[..i])
  {
    assert log[..k][..k - 1] == log[..k - 1];
    if k > i + 1 {
      CurrentSince(log, i, k - 1);
    }
  }

  /** In every interleaving, a refresh that is decided on after a credential was stored, with nothing
      stored in between, is decided on for that credential and not before it nears its expiry:
      callers that were waiting for the lock do not refresh a fresh credential again. */
  lemma NoNeedlessRefresh(store: Option<Credential>, now: int, skew: int, ops: seq<Op>, i: nat, j: nat)
    requires var log := Run(Initial(store, now), skew, ops).log;
             i < j < |log| && log[i].Stored? && log[j].Look? && NothingStored(log, i, j)
    ensures var log := Run(Initial(store, now), skew, ops).log;
            && log[i].credential == Some(log[j].used)
            && log[j].used.expiresAt.Some?
            && log[j].at >= log[j].used.expiresAt.value - skew
  {
    RunInv(store, now, skew, ops);
    var log := Run(Initial(store, now), skew, ops).log;
    LawfulAt(log, skew, j);
    CurrentSince(log, i, j);
  }

  /** As long as a caller that has looked is not done, it is the one at work. */
  lemma {:induction false} StillWorking(log: seq<Event>, skew: int, i: nat, k: nat)
    requires Lawful(log, skew) && i < k <= |log| && log[i].Look? && forall j :: i < j < k ==> log[j] != Release(log[i].caller)
    ensures Working(log[..k]) == Some(log[i])
  {
    assert log[..k][..k - 1] == log[..k - 1];
    if k > i + 1 {
      StillWorking(log, skew, i, k - 1);
      LawfulAt(log, skew, k - 1);
    }
  }

  /** What caller `log[i].caller` does at `k` belongs to the look at `i`. */
  ghost predicate SameTurn(log: seq<Event>, i: nat, k: nat) {
    i < k < |log| && log[i].Look? && forall j :: i < j < k ==> log[j] != Release(log[i].caller)
  }

  /** Between a caller's second look and anything it does later in the same turn, only logins and
      logouts change the store. */
  lemma OnlyLogins(log: seq<Event>, skew: int, i: nat, k: nat, j: nat)
    requires Lawful(log, skew) && SameTurn(log, i, k) && i < j < k && log[j].Stored? && !log[k].Release?
    ensures log[j].source.None?
  {
    StillWorking(log, skew, i, j);
    LawfulAt(log, skew, j);
    LawfulAt(log, skew, j + 1);
  }

  /** In every interleaving, a request goes out for the credential of the caller's second look, which
      is the one then stored if no login or logout came in between. */
  lemma RequestUsesLook(store: Option<Credential>, now: int, skew: int, ops: seq<Op>, i: nat, k: nat)
    requires var log := Run(Initial(store, now), skew, ops).log;
             SameTurn(log, i, k) && log[k].Request? && log[k].caller == log[i].caller
    ensures var log := Run(Initial(store, now), skew, ops).log;
            && log[k].used == log[i].used
            && (forall j :: i < j < k && log[j].Stored? ==> log[j].source.None?)
            && (NothingStored(log, i, k) ==> Current(log[..k]) == Some(log[k].used))
  {
    RunInv(store, now, skew, ops);
    var log := Run(Initial(store, now), skew, ops).log;
    StillWorking(log, skew, i, k);
    LawfulAt(log, skew, k);
    LawfulAt(log, skew, i);
    forall j | i < j < k && log[j].Stored? ensures log[j].source.None? {
      OnlyLogins(log, skew, i, k, j);
    }
    if NothingStored(log, i, k) {
      CurrentSince(log, i, k);
    }
  }

  /** Position of the latest change of the store. */
  function LastChange(log: seq<Event>): int {
    if log == [] then -1 else if log[|log| - 1].Stored? then |log| - 1 else LastChange(log[..|log| - 1])
  }

  lemma {:induction false} LastChangeIs(log: seq<Event>, k: nat)
    requires k <= |log|
    ensures var n := LastChange(log[..k]);
            && -1 <= n < k && (n >= 0 ==> log[n].Stored? && Current(log[..k]) == log[n].credential)
            && forall j :: n < j < k ==> j >= 0 ==> !log[j].Stored?
  {
    if k > 0 {
      LastChangeIs(log, k - 1);
      assert log[..k][..k - 1] == log[..k - 1];
    }
  }

  /** In every interleaving, a refresh that stores its result puts it in place of the credential it
      was made from if and only if no login or logout came after its second look; otherwise it
      undoes the latest of them. */
  lemma SaveUndoesLogin(store: Option<Credential>, now: int, skew: int, ops: seq<Op>, i: nat, k: nat)
    requires var log := Run(Initial(store, now), skew, ops).log;
             SameTurn(log, i, k) && log[k].Stored? && log[k].source == Some(log[i].caller)
    ensures var log := Run(Initial(store, now), skew, ops).log;
            var n := LastChange(log[..k]);
            && Current(log[..k + 1]) == log[k].credential
            && (n < i <==> NothingStored(log, i, k))
            && (n < i ==> Current(log[..k]) == Some(log[i].used))
            && (n > i ==> n < k && log[n].Stored? && log[n].source.None? && Current(log[..k]) == log[n].credential)
  {
    RunInv(store, now, skew, ops);
    var log := Run(Initial(store, now), skew, ops).log;
    SaveReplaces(log, skew, i, k);
  }

  lemma SaveReplaces(log: seq<Event>, skew: int, i: nat, k: nat)
    requires Lawful(log, skew) && SameTurn(log, i, k) && log[k].Stored?
    ensures var n := LastChange(log[..k]);
            && Current(log[..k + 1]) == log[k].credential
            && (n < i <==> NothingStored(log, i, k))
            && (n < i ==> Current(log[..k]) == Some(log[i].used))
            && (n > i ==> n < k && log[n].Stored? && log[n].source.None? && Current(log[..k]) == log[n].credential)
  {
    LastChangeIs(log, k);
    LawfulAt(log, skew, i);
    assert log[..k + 1] == log[..k] + [log[k]];
    Snoc(log[..k], log[k]);
    var n := LastChange(log[..k]);
    if n > i {
      OnlyLogins(log, skew, i, k, n);
    } else {
      CurrentSince(log, i, k);
    }
  }

  const OLD := Credential("old", "r", Some(0))
  const NEW := Credential("new", "r", None)
  const LATE := Credential("late", "r", None)

  /** A login while a refresh is on its way is undone when the refresh is stored. */
  lemma LoginUndone()
    ensures var s := Initial(Some(OLD), 0);
            var t := Do(Do(Do(Do(Do(s, 0, First(1)), 0, Acquire(1)), 0, Second(1)), 0, Ask(1)), 0, Login(NEW));
            var u := Do(Do(t, 0, ProviderRenews(1, LATE)), 0, Save(1, true));
            t.store == Some(NEW) && u.store == Some(LATE)
  {
    var s := Initial(Some(OLD), 0);
    assert Trim("r") == "r";
    var s3 := Do(Do(Do(s, 0, First(1)), 0, Acquire(1)), 0, Second(1));
    assert At(s3, 1) == Decided(OLD);
    var t := Do(Do(s3, 0, Ask(1)), 0, Login(NEW));
    assert At(t, 1) == Refreshing(OLD);
  }
}
