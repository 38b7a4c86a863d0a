/** What a session stores, and the loop it is rebuilt into, internal/agent/session.go. The loop
    hands each of its messages over after it has put it into its own history; a user's message
    is stored when it is accepted, long before the loop takes it in, and an injected message
    after it was injected. So the stored order is not the order of any loop's history. */
module StoredLog {
  import opened Transcript
  import opened TurnLoop
  import opened HistoryRepair

  /** Something from outside was stored after the loop's latest batch or later message of its own. */
  predicate OutsideSince(log: Record) {
    match log
    case Blank => false
    case Then(b, m, x) => x || (m.role.Tool? && OutsideSince(b))
  }

  /** Nothing from outside was stored between a batch and a result of that batch. */
  predicate NothingBetween(log: Record) {
    match log
    case Blank => true
    case Then(b, m, x) => NothingBetween(b) && (!x && m.role.Tool? ==> !OutsideSince(b))
  }

  /** Following everything that was stored. */
  function FollowEvery(log: Record): Trail {
    match log
    case Blank => Waiting([])
    case Then(b, m, _) => Follow(FollowEvery(b), m)
  }

  lemma {:induction false} FollowEveryIs(log: Record)
    ensures FollowEvery(log) == FollowAll(Waiting([]), Messages(log))
  {
    if log.Then? {
      FollowEveryIs(log.before);
      assert Messages(log)[..|Messages(log)| - 1] == Messages(log.before);
    }
  }

  /** As long as nothing came between, the log expects what the loops' own messages expect. */
  lemma {:induction false} FollowBoth(log: Record)
    requires FollowOwn(log).Waiting? && InjectsPlain(log)
    ensures FollowEvery(log).Waiting? <==> NothingBetween(log)
    ensures FollowEvery(log).Waiting? ==>
              FollowEvery(log).calls == if OutsideSince(log) then [] else FollowOwn(log).calls
  {
    if log.Then? {
      FollowBoth(log.before);
    }
  }

  /** A log that loops have written to, with plain messages from outside at any moment, was left
      off exactly when nothing from outside came between a batch and a later result of it. */
  lemma LogLeftOff(log: Record)
    requires FollowOwn(log).Waiting? && InjectsPlain(log)
    ensures LeftOff(Messages(log)) <==> NothingBetween(log)
  {
    FollowBoth(log);
    FollowEveryIs(log);
    LeftOffIs(Waiting([]), Messages(log));
  }

  /** The transcript rebuilt from a log is well-formed exactly when nothing from outside came
      between a batch and a later result of it, and ids tell which results are missing. */
  lemma RebuiltTranscript(log: Record)
    requires FollowOwn(log).Waiting? && InjectsPlain(log)
    ensures WellFormed(Repair(Messages(log))) <==> NothingBetween(log) && IdsTell(Messages(log))
  {
    LogLeftOff(log);
    RepairHeals(Messages(log));
  }

  /** Builds the loop of a session anew from what is stored. */
  method EnsureLoop(e: Environment, log: Record) returns (loop: Loop)
    requires FollowOwn(log).Waiting?
    ensures fresh(loop) && loop.Steady() && !loop.activeTurn && loop.record == loop.tale == Blank && loop.log == loop.base == log
    ensures Runs(e, loop) && loop.unlocks == 0
    ensures loop.history == loop.initial == Repair(Messages(log))
    ensures InjectsPlain(log) ==> (WellFormed(loop.initial) <==> NothingBetween(log) && IdsTell(Messages(log)))
  {
    var history := RepairOrphanedToolCalls(Messages(log));
    loop := new Loop(e.model, e.outputs, e.others, true, history, log);
    if InjectsPlain(log) {
      RebuiltTranscript(log);
    }
  }

  /** What one loop of a session meets with. It is stopped at any moment: the last `lost` messages
      that it or the others would have stored are never stored. */
  datatype Environment = Environment(model: nat -> Answer, outputs: nat -> string, others: nat -> seq<Foreign>, rounds: nat, lost: nat)

  ghost predicate Runs(e: Environment, loop: Loop) {
    loop.model == e.model && loop.outputs == e.outputs && loop.others == e.others && loop.recording
  }

  /** The loop started from the repaired log and has been at work. What it added to the log are
      exactly its own messages, except users', in their order, and what others stored in the
      moments that have passed, in their order. Its own messages are the users', the model's
      answers and the tools' outputs as they came, and cancelled results for the calls not run. */
  ghost predicate Lived(e: Environment, log: Record, loop: Loop)
    reads loop
  {
    && Runs(e, loop) && loop.unlocks >= e.rounds
    && loop.initial == Repair(Messages(log)) && loop.history == loop.initial + Messages(loop.record)
    && Grown(log, loop.log)
    && Own(loop.log) == Own(log) + Kept(loop.record)
    && Outside(loop.log) == StoredIn(Outside(log), PastOf(e.others, loop.unlocks))
    && Outside(loop.record) == InjectedIn(PastOf(e.others, loop.unlocks))
    && Users(loop.record) + loop.messageQueue == QueuedIn(PastOf(e.others, loop.unlocks))
    && Accounts(e.model, e.outputs, loop.deeds, Stripped(loop.record), loop.answersUsed, loop.outputsUsed)
  }

  /** What is left of `log` without the last `n` messages that came after `base`. */
  function Cut(base: Record, log: Record, n: nat): Record {
    if n == 0 || log == base || log.Blank? then log else Cut(base, log.before, n - 1)
  }

  lemma {:induction false} CutKeeps(base: Record, log: Record, n: nat)
    requires FollowOwn(log).Waiting? && InjectsPlain(log) && Grown(base, log)
    ensures var c := Cut(base, log, n);
            FollowOwn(c).Waiting? && InjectsPlain(c) && Grown(base, c) && Grown(c, log)
  {
    if n > 0 && log != base && log.Then? {
      CutKeeps(base, log.before, n - 1);
    }
  }

  /** One loop: rebuilt from the log, run, and stopped. */
  method Generation(e: Environment, log: Record) returns (loop: Loop, later: Record)
    requires FollowOwn(log).Waiting? && InjectsPlain(log) && StoresOnlyPlain(e.others)
    ensures fresh(loop) && Lived(e, log, loop)
    ensures WellFormed(loop.initial) <==> NothingBetween(log) && IdsTell(Messages(log))
    ensures later == Cut(log, loop.log, e.lost) && Grown(log, later) && Grown(later, loop.log)
    ensures FollowOwn(later).Waiting? && InjectsPlain(later)
  {
    loop := EnsureLoop(e, log);
    var _, _ := loop.Go(e.rounds);
    loop.LookCloser();
    loop.LookInside();
    StrippedIs(loop.record);
    StrippedIs(loop.log);
    StrippedIs(loop.base);
    ShelvedIs(Stripped(loop.base), loop.tale);
    StoredFromOutside(e.others, loop.unlocks, log, loop.log);
    CutKeeps(log, loop.log, e.lost);
    later := Cut(log, loop.log, e.lost);
  }

  /** What `Session` says of its loop `k`. */
  ghost predicate IsGeneration(e: Environment, log: Record, loop: Loop, later: Record)
    reads loop
  {
    && Lived(e, log, loop) && later == Cut(log, loop.log, e.lost)
    && (WellFormed(loop.initial) <==> NothingBetween(log) && IdsTell(Messages(log)))
  }

  /** A whole session: any number of loops, one after the other, each rebuilt from what was stored
      until then. Whatever the model, the tools and the others do, each loop starts from a
      well-formed transcript exactly when nothing from outside had been stored between a batch
      and a later result of it, and ids tell which results were missing. */
  method Session(es: seq<Environment>) returns (loops: seq<Loop>, logs: seq<Record>)
    requires forall k :: 0 <= k < |es| ==> StoresOnlyPlain(es[k].others)
    ensures |loops| == |es| && |logs| == |es| + 1 && logs[0] == Blank
    ensures forall k :: 0 <= k < |es| ==> IsGeneration(es[k], logs[k], loops[k], logs[k + 1])
  {
    loops, logs := [], [Blank];
    for i := 0 to |es|
      invariant |loops| == i && |logs| == i + 1 && logs[0] == Blank
      invariant FollowOwn(logs[i]).Waiting? && InjectsPlain(logs[i])
      invariant forall k :: 0 <= k < i ==> IsGeneration(es[k], logs[k], loops[k], logs[k + 1])
    {
      var loop, later := Generation(es[i], logs[i]);
      loops, logs := loops + [loop], logs + [later];
    }
  }

  /** A user's message that is accepted while a tool runs is stored before the tool's result. The
      log comes from a loop at work, yet the loop rebuilt from it starts with the result made
      up, the user's message, and the real result as a stray. */
  lemma UserMessageBreaksLog()
    ensures var tc := ToolCall("c1", "bash");
            var log := Then(Then(Then(Blank, AssistantMessage("", [tc]), false), UserMessage("hi"), true), ToolResult(tc, "ok"), false);
            && FollowOwn(log).Waiting? && InjectsPlain(log) && !NothingBetween(log) && IdsTell(Messages(log))
            && !WellFormed(Repair(Messages(log)))
  {
    var tc := ToolCall("c1", "bash");
    var l1 := Then(Blank, AssistantMessage("", [tc]), false);
    var l2 := Then(l1, UserMessage("hi"), true);
    var log := Then(l2, ToolResult(tc, "ok"), false);
    assert FollowOwn(Blank) == Waiting([]);
    assert FollowOwn(l1) == Follow(Waiting([]), l1.message) == Waiting([tc]);
    assert FollowOwn(l2) == FollowOwn(l1);
    assert FollowOwn(log) == Follow(Waiting([tc]), log.message);
    assert InjectsPlain(Blank) && InjectsPlain(l1) && InjectsPlain(l2) && OutsideSince(l2);
    assert Messages(Blank) == [] && Messages(l1) == [l1.message];
    assert Messages(l2) == [l1.message] + [l2.message];
    var h := Messages(log);
    assert h == [l1.message, l2.message, log.message];
    assert forall i :: 0 <= i < |h| && IsBatch(h[i]) ==> DistinctIDs(h[i].toolCalls);
    DistinctIDsTell(h);
    RebuiltTranscript(log);
  }
}
