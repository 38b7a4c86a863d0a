/** repairOrphanedToolCalls of internal/agent/session.go: completes a stored transcript so
    that every tool call has a result in the tool block directly after it. */
module HistoryRepair {
  import opened Transcript

  /** Length of the run of tool messages that `h` starts with. */
  function ToolRun(h: seq<Message>): (n: nat)
    ensures n <= |h|
    ensures forall k :: 0 <= k < n ==> h[k].role.Tool?
    ensures n < |h| ==> !h[n].role.Tool?
  {
    if h == [] || !h[0].role.Tool? then 0 else 1 + ToolRun(h[1..])
  }

  /** The non-empty ids that a block of tool messages answers. */
  function AnsweredIDs(block: seq<Message>): set<string> {
    set k | 0 <= k < |block| && block[k].toolCallID != "" :: block[k].toolCallID
  }

  /** Synthetic results for the calls whose id is not in `answered`. */
  function Synthetic(calls: seq<ToolCall>, answered: set<string>): seq<Message> {
    if calls == [] then []
    else
      var n := |calls| - 1;
      var rest := Synthetic(calls[..n], answered);
      if calls[n].id in answered then rest else rest + [ToolResult(calls[n], CANCELLED)]
  }

  /** A batch with its block and the missing results. */
  function Completed(h: seq<Message>): seq<Message>
    requires h != [] && IsBatch(h[0])
  {
    var n := ToolRun(h[1..]);
    h[..n + 1] + Synthetic(h[0].toolCalls, AnsweredIDs(h[1..n + 1]))
  }

  /** The repaired transcript: each batch, the results it has, then the results it lacks. */
  function Repair(h: seq<Message>): seq<Message> {
    if h == [] then []
    else if !IsBatch(h[0]) then [h[0]] + Repair(h[1..])
    else
      var n := ToolRun(h[1..]);
      Completed(h) + Repair(h[n + 1..])
  }

  /** The tool messages from `i` on and the ids they answer. */
  method ToolBlock(history: seq<Message>, i: nat) returns (j: nat, answered: set<string>)
    requires i <= |history|
    ensures j == i + ToolRun(history[i..]) && answered == AnsweredIDs(history[i..j])
  {
    j, answered := i, {};
    while j < |history| && history[j].role.Tool?
      invariant i <= j <= i + ToolRun(history[i..])
      invariant answered == AnsweredIDs(history[i..j])
    {
      AnsweredSnoc(history[i..j], history[j]);
      assert history[i..j + 1] == history[i..j] + [history[j]];
      if history[j].toolCallID != "" {
        answered := answered + {history[j].toolCallID};
      }
      j := j + 1;
    }
  }

  method Synthesize(calls: seq<ToolCall>, answered: set<string>) returns (out: seq<Message>)
    ensures out == Synthetic(calls, answered)
  {
    out := [];
    for k := 0 to |calls|
      invariant out == Synthetic(calls[..k], answered)
    {
      assert calls[..k + 1][..k] == calls[..k];
      if calls[k].id !in answered {
        out := out + [ToolResult(calls[k], CANCELLED)];
      }
    }
    assert calls[..|calls|] == calls;
  }

  method RepairOrphanedToolCalls(history: seq<Message>) returns (result: seq<Message>)
    ensures result == Repair(history)
  {
    result := [];
    var i := 0;
    while i < |history|
      invariant 0 <= i <= |history|
      invariant result + Repair(history[i..]) == Repair(history)
    {
      if !IsBatch(history[i]) {
        RepairPlain(history, i);
        Regroup(result, [history[i]], Repair(history[i + 1..]));
        result := result + [history[i]];
        i := i + 1;
      } else {
        var j, answered := ToolBlock(history, i + 1);
        var missing := Synthesize(history[i].toolCalls, answered);
        RepairBatch(history, i, j);
        Regroup(result, history[i..j] + missing, Repair(history[j..]));
        result := result + (history[i..j] + missing);
        i := j;
      }
    }
  }

  lemma Regroup(a: seq<Message>, b: seq<Message>, c: seq<Message>)
    ensures a + (b + c) == (a + b) + c
  {
  }

  lemma RepairPlain(h: seq<Message>, i: nat)
    requires i < |h| && !IsBatch(h[i])
    ensures Repair(h[i..]) == [h[i]] + Repair(h[i + 1..])
  {
    assert h[i..][1..] == h[i + 1..];
  }

  lemma RepairBatch(h: seq<Message>, i: nat, j: nat)
    requires i < |h| && IsBatch(h[i]) && j == i + 1 + ToolRun(h[i + 1..])
    ensures Repair(h[i..]) == (h[i..j] + Synthetic(h[i].toolCalls, AnsweredIDs(h[i + 1..j]))) + Repair(h[j..])
  {
    assert h[i..][1..] == h[i + 1..];
    assert h[i..][1..j - i] == h[i + 1..j];
    assert h[i..][j - i..] == h[j..];
    assert h[i..][..j - i] == h[i..j];
  }

  lemma AnsweredSnoc(block: seq<Message>, m: Message)
    ensures AnsweredIDs(block + [m]) == AnsweredIDs(block) + if m.toolCallID != "" then {m.toolCallID} else {}
  {
    var all := block + [m];
    assert forall k :: 0 <= k < |block| ==> all[k] == block[k];
    assert all[|block|] == m;
  }

  // ---------- every call gets a result ----------

  /** Some message of the tool block directly after batch `i` answers `tc`. */
  ghost predicate AnsweredInBlock(h: seq<Message>, i: nat, tc: ToolCall)
    requires i < |h|
  {
    exists j :: i < j <= i + ToolRun(h[i + 1..]) && Answers(h[j], tc)
  }

  ghost predicate Complete(h: seq<Message>) {
    forall i, c :: 0 <= i < |h| && IsBatch(h[i]) && 0 <= c < |h[i].toolCalls| ==> AnsweredInBlock(h, i, h[i].toolCalls[c])
  }

  ghost predicate NoEmptyIDs(h: seq<Message>) {
    forall i, c :: 0 <= i < |h| && IsBatch(h[i]) && 0 <= c < |h[i].toolCalls| ==> h[i].toolCalls[c].id != ""
  }

  lemma {:induction false} SyntheticAnswers(calls: seq<ToolCall>, answered: set<string>)
    ensures forall k :: 0 <= k < |Synthetic(calls, answered)| ==> Synthetic(calls, answered)[k].role.Tool?
    ensures forall tc :: tc in calls && tc.id !in answered ==> ToolResult(tc, CANCELLED) in Synthetic(calls, answered)
    ensures (forall tc :: tc in calls ==> tc.id in answered) <==> Synthetic(calls, answered) == []
  {
    if calls != [] {
      var n := |calls| - 1;
      SyntheticAnswers(calls[..n], answered);
      assert calls == calls[..n] + [calls[n]];
    }
  }

  /** Messages before a tool run do not matter to it. */
  lemma {:induction false} ToolRunOf(a: seq<Message>, b: seq<Message>)
    requires forall k :: 0 <= k < |a| ==> a[k].role.Tool?
    requires b == [] || !b[0].role.Tool?
    ensures ToolRun(a + b) == |a|
  {
    if a == [] {
      assert a + b == b;
    } else {
      assert (a + b)[1..] == a[1..] + b;
      ToolRunOf(a[1..], b);
    }
  }

  /** Complete transcripts can be put one after the other. */
  lemma CompleteConcat(a: seq<Message>, b: seq<Message>)
    requires Complete(a) && Complete(b)
    ensures Complete(a + b)
  {
    forall i, c | 0 <= i < |a + b| && IsBatch((a + b)[i]) && 0 <= c < |(a + b)[i].toolCalls|
      ensures AnsweredInBlock(a + b, i, (a + b)[i].toolCalls[c])
    {
      var tc := (a + b)[i].toolCalls[c];
      if i < |a| {
        assert AnsweredInBlock(a, i, tc);
        var j :| i < j <= i + ToolRun(a[i + 1..]) && Answers(a[j], tc);
        ToolRunGrows(a[i + 1..], b);
        assert (a + b)[i + 1..] == a[i + 1..] + b;
        assert Answers((a + b)[j], tc);
      } else {
        var k := i - |a|;
        assert AnsweredInBlock(b, k, tc);
        var j :| k < j <= k + ToolRun(b[k + 1..]) && Answers(b[j], tc);
        assert (a + b)[i + 1..] == b[k + 1..];
        assert Answers((a + b)[j + |a|], tc);
      }
    }
  }

  lemma {:induction false} ToolRunGrows(a: seq<Message>, b: seq<Message>)
    ensures ToolRun(a) <= ToolRun(a + b)
  {
    if a != [] && a[0].role.Tool? {
      assert (a + b)[1..] == a[1..] + b;
      ToolRunGrows(a[1..], b);
    }
  }

  lemma CompletedBlock(h: seq<Message>)
    requires h != [] && IsBatch(h[0])
    ensures Completed(h)[0] == h[0] && ToolRun(Completed(h)[1..]) == |Completed(h)| - 1
  {
    var n := ToolRun(h[1..]);
    var syn := Synthetic(h[0].toolCalls, AnsweredIDs(h[1..n + 1]));
    SyntheticAnswers(h[0].toolCalls, AnsweredIDs(h[1..n + 1]));
    var block := h[1..n + 1];
    assert forall k :: 0 <= k < |block| ==> block[k].role.Tool?;
    ToolRunOf(block + syn, []);
    assert block + syn + [] == block + syn;
    assert Completed(h)[1..] == block + syn;
  }

  lemma CompletedAnswers(h: seq<Message>, tc: ToolCall)
    requires h != [] && IsBatch(h[0]) && tc in h[0].toolCalls
    ensures exists j :: 1 <= j < |Completed(h)| && Answers(Completed(h)[j], tc)
  {
    var n := ToolRun(h[1..]);
    var block := h[1..n + 1];
    var syn := Synthetic(h[0].toolCalls, AnsweredIDs(block));
    if tc.id in AnsweredIDs(block) {
      var k :| 0 <= k < |block| && block[k].toolCallID == tc.id;
      assert Completed(h)[k + 1] == block[k];
    } else {
      SyntheticAnswers(h[0].toolCalls, AnsweredIDs(block));
      var k :| 0 <= k < |syn| && syn[k] == ToolResult(tc, CANCELLED);
      assert Completed(h)[n + 1 + k] == syn[k];
    }
  }

  lemma CompletedIsComplete(h: seq<Message>)
    requires h != [] && IsBatch(h[0])
    ensures Complete(Completed(h))
  {
    var part := Completed(h);
    CompletedBlock(h);
    assert forall k :: 1 <= k < |part| ==> part[k] == part[1..][k - 1];
    forall i, c | 0 <= i < |part| && IsBatch(part[i]) && 0 <= c < |part[i].toolCalls|
      ensures AnsweredInBlock(part, i, part[i].toolCalls[c])
    {
      CompletedAnswers(h, part[0].toolCalls[c]);
    }
  }

  /** After repair every tool call is answered in the tool block directly after it. */
  lemma {:induction false} RepairCompletes(h: seq<Message>)
    ensures Complete(Repair(h))
    ensures h != [] ==> Repair(h) != [] && Repair(h)[0] == h[0]
  {
    if h == [] {
    } else if !IsBatch(h[0]) {
      RepairCompletes(h[1..]);
      CompleteConcat([h[0]], Repair(h[1..]));
    } else {
      var n := ToolRun(h[1..]);
      CompletedIsComplete(h);
      RepairCompletes(h[n + 1..]);
      CompleteConcat(Completed(h), Repair(h[n + 1..]));
    }
  }

  // ---------- nothing but results is added ----------

  predicate IsSynthetic(m: Message) {
    m.role.Tool? && m.content == CANCELLED && m.toolCalls == []
  }

  /** `r` is `h` with synthetic results inserted: every message of `h` is there, in order. */
  ghost predicate OnlyAdds(h: seq<Message>, r: seq<Message>) {
    if r == [] then h == []
    else
      || (h != [] && r[0] == h[0] && OnlyAdds(h[1..], r[1..]))
      || (IsSynthetic(r[0]) && OnlyAdds(h, r[1..]))
  }

  lemma {:induction false} AddsAfter(p: seq<Message>, syn: seq<Message>, h: seq<Message>, r: seq<Message>)
    requires OnlyAdds(h, r) && forall k :: 0 <= k < |syn| ==> IsSynthetic(syn[k])
    ensures OnlyAdds(p + h, p + syn + r)
    decreases |p| + |syn|
  {
    if p != [] {
      AddsAfter(p[1..], syn, h, r);
      assert (p + h)[1..] == p[1..] + h && (p + syn + r)[1..] == p[1..] + syn + r;
    } else if syn != [] {
      AddsAfter([], syn[1..], h, r);
      assert p + h == [] + h && (p + syn + r)[1..] == [] + syn[1..] + r;
    } else {
      assert p + h == h && p + syn + r == r;
    }
  }

  lemma {:induction false} SyntheticOnly(calls: seq<ToolCall>, answered: set<string>)
    ensures forall k :: 0 <= k < |Synthetic(calls, answered)| ==> IsSynthetic(Synthetic(calls, answered)[k])
  {
    if calls != [] {
      SyntheticOnly(calls[..|calls| - 1], answered);
    }
  }

  /** Repair keeps every message, in order, and adds nothing but cancelled results. */
  lemma {:induction false} RepairOnlyAdds(h: seq<Message>)
    ensures OnlyAdds(h, Repair(h))
  {
    if h == [] {
    } else if !IsBatch(h[0]) {
      RepairOnlyAdds(h[1..]);
      assert Repair(h)[1..] == Repair(h[1..]);
    } else {
      var n := ToolRun(h[1..]);
      var syn := Synthetic(h[0].toolCalls, AnsweredIDs(h[1..n + 1]));
      RepairOnlyAdds(h[n + 1..]);
      SyntheticOnly(h[0].toolCalls, AnsweredIDs(h[1..n + 1]));
      AddsAfter(h[..n + 1], syn, h[n + 1..], Repair(h[n + 1..]));
      assert h[..n + 1] + h[n + 1..] == h;
    }
  }

  // ---------- when repair changes nothing ----------

  /** The tool block directly after position `i`. */
  function BlockAfter(h: seq<Message>, i: nat): seq<Message>
    requires i < |h|
  {
    h[i + 1..i + 1 + ToolRun(h[i + 1..])]
  }

  /** Every call has a non-empty id that its own block answers. */
  ghost predicate Settled(h: seq<Message>) {
    if h == [] then true
    else if !IsBatch(h[0]) then Settled(h[1..])
    else SettledAt(h, 0) && Settled(h[ToolRun(h[1..]) + 1..])
  }

  ghost predicate SettledEverywhere(h: seq<Message>) {
    forall i :: 0 <= i < |h| && IsBatch(h[i]) ==> SettledAt(h, i)
  }

  ghost predicate SettledAt(h: seq<Message>, i: nat)
    requires i < |h|
  {
    forall c :: 0 <= c < |h[i].toolCalls| ==> h[i].toolCalls[c].id in AnsweredIDs(BlockAfter(h, i))
  }

  lemma SettledMeans(h: seq<Message>)
    ensures SettledEverywhere(h) <==> Complete(h) && NoEmptyIDs(h)
  {
    forall i, c | 0 <= i < |h| && IsBatch(h[i]) && 0 <= c < |h[i].toolCalls|
      ensures h[i].toolCalls[c].id in AnsweredIDs(BlockAfter(h, i)) <==>
              AnsweredInBlock(h, i, h[i].toolCalls[c]) && h[i].toolCalls[c].id != ""
    {
      var tc, block := h[i].toolCalls[c], BlockAfter(h, i);
      if tc.id in AnsweredIDs(block) {
        var k :| 0 <= k < |block| && block[k].toolCallID == tc.id;
        assert Answers(h[i + 1 + k], tc);
      }
      if AnsweredInBlock(h, i, tc) {
        var j :| i < j <= i + ToolRun(h[i + 1..]) && Answers(h[j], tc);
        assert block[j - i - 1] == h[j];
      }
    }
  }

  lemma SettledTail(h: seq<Message>, d: nat)
    requires d <= |h| && forall k :: 0 < k < d ==> !IsBatch(h[k])
    ensures SettledEverywhere(h) <==> SettledEverywhere(h[d..]) && (d > 0 && IsBatch(h[0]) ==> SettledAt(h, 0))
  {
    forall i | 0 <= i < |h| - d ensures SettledAt(h[d..], i) <==> SettledAt(h, i + d) {
      assert h[d..][i + 1..] == h[i + d + 1..];
      assert BlockAfter(h[d..], i) == BlockAfter(h, i + d);
    }
    if SettledEverywhere(h[d..]) {
      forall i | d <= i < |h| && IsBatch(h[i]) ensures SettledAt(h, i) {
        assert SettledAt(h[d..], i - d);
      }
    }
    assert forall i :: 0 <= i < |h| - d ==> h[d..][i] == h[i + d];
  }

  lemma {:induction false} SettledIs(h: seq<Message>)
    ensures Settled(h) <==> SettledEverywhere(h)
  {
    if h == [] {
    } else if !IsBatch(h[0]) {
      SettledIs(h[1..]);
      SettledTail(h, 1);
    } else {
      var n := ToolRun(h[1..]);
      SettledIs(h[n + 1..]);
      SettledTail(h, n + 1);
    }
  }

  lemma SettledFirst(h: seq<Message>)
    requires h != [] && IsBatch(h[0])
    ensures |Completed(h)| >= ToolRun(h[1..]) + 1
    ensures |Completed(h)| == ToolRun(h[1..]) + 1 <==> SettledAt(h, 0)
  {
    var n := ToolRun(h[1..]);
    SyntheticAnswers(h[0].toolCalls, AnsweredIDs(h[1..n + 1]));
  }

  /** Repair adds a message exactly when some call has an empty id or no result. */
  lemma {:induction false} RepairGrows(h: seq<Message>)
    ensures |Repair(h)| >= |h|
    ensures |Repair(h)| == |h| <==> Settled(h)
  {
    if h == [] {
    } else if !IsBatch(h[0]) {
      RepairGrows(h[1..]);
    } else {
      RepairGrows(h[ToolRun(h[1..]) + 1..]);
      SettledFirst(h);
    }
  }

  lemma {:induction false} AddsNothing(h: seq<Message>, r: seq<Message>)
    requires OnlyAdds(h, r)
    ensures |r| >= |h| && (|r| == |h| ==> r == h)
  {
    if r != [] {
      if h != [] && r[0] == h[0] && OnlyAdds(h[1..], r[1..]) {
        AddsNothing(h[1..], r[1..]);
        assert |r| == |h| ==> r == [r[0]] + r[1..] == [h[0]] + h[1..] == h;
      } else {
        AddsNothing(h, r[1..]);
      }
    }
  }

  /** Repair is the identity exactly on transcripts where every call has a non-empty id and a result. */
  lemma RepairIdentity(h: seq<Message>)
    ensures Repair(h) == h <==> Complete(h) && NoEmptyIDs(h)
  {
    SettledMeans(h);
    SettledIs(h);
    RepairGrows(h);
    RepairOnlyAdds(h);
    AddsNothing(h, Repair(h));
  }

  /** The same batches, in the same order. */
  function Batches(h: seq<Message>): seq<Message> {
    if h == [] then [] else if IsBatch(h[0]) then [h[0]] + Batches(h[1..]) else Batches(h[1..])
  }

  lemma {:induction false} BatchesConcat(a: seq<Message>, b: seq<Message>)
    ensures Batches(a + b) == Batches(a) + Batches(b)
  {
    if a == [] {
      assert a + b == b;
    } else {
      assert (a + b)[1..] == a[1..] + b;
      BatchesConcat(a[1..], b);
    }
  }

  lemma {:induction false} NoBatches(a: seq<Message>)
    requires forall k :: 0 <= k < |a| ==> a[k].role.Tool?
    ensures Batches(a) == []
  {
    if a != [] {
      NoBatches(a[1..]);
    }
  }

  lemma {:induction false} RepairKeepsBatches(h: seq<Message>)
    ensures Batches(Repair(h)) == Batches(h)
  {
    if h == [] {
    } else if !IsBatch(h[0]) {
      RepairKeepsBatches(h[1..]);
      assert Repair(h)[1..] == Repair(h[1..]);
    } else {
      var n := ToolRun(h[1..]);
      var a, b := h[..n + 1], h[n + 1..];
      RepairKeepsBatches(b);
      CompletedKeepsBatches(h);
      BatchesConcat(Completed(h), Repair(b));
      BatchesConcat(a, b);
      assert h == a + b;
    }
  }

  lemma CompletedKeepsBatches(h: seq<Message>)
    requires h != [] && IsBatch(h[0])
    ensures Batches(Completed(h)) == Batches(h[..ToolRun(h[1..]) + 1])
  {
    var n := ToolRun(h[1..]);
    var syn := Synthetic(h[0].toolCalls, AnsweredIDs(h[1..n + 1]));
    SyntheticAnswers(h[0].toolCalls, AnsweredIDs(h[1..n + 1]));
    NoBatches(syn);
    BatchesConcat(h[..n + 1], syn);
  }

  lemma {:induction false} EmptyIDsInBatches(h: seq<Message>)
    ensures NoEmptyIDs(h) <==> NoEmptyIDs(Batches(h))
  {
    if h != [] {
      EmptyIDsInBatches(h[1..]);
      NoEmptyIDsCons(h[0], h[1..]);
      assert h == [h[0]] + h[1..];
      if IsBatch(h[0]) {
        NoEmptyIDsCons(h[0], Batches(h[1..]));
      }
    }
  }

  lemma NoEmptyIDsCons(m: Message, h: seq<Message>)
    ensures NoEmptyIDs([m] + h) <==>
            NoEmptyIDs(h) && (IsBatch(m) ==> forall c :: 0 <= c < |m.toolCalls| ==> m.toolCalls[c].id != "")
  {
    var g := [m] + h;
    assert g[0] == m && forall i :: 0 <= i < |h| ==> h[i] == g[i + 1];
  }

  /** Repairing twice changes nothing more, exactly when no call has an empty id. */
  lemma RepairIdempotent(h: seq<Message>)
    ensures Repair(Repair(h)) == Repair(h) <==> NoEmptyIDs(h)
  {
    var r := Repair(h);
    RepairIdentity(r);
    RepairCompletes(h);
    RepairKeepsBatches(h);
    EmptyIDsInBatches(h);
    EmptyIDsInBatches(r);
  }

  /** A call with an empty id is answered again by every repair. */
  lemma EmptyIDRepairedTwice()
    ensures var h := [Message(Assistant, "", [ToolCall("", "bash")], "")];
            Repair(Repair(h)) != Repair(h)
  {
    var h := [Message(Assistant, "", [ToolCall("", "bash")], "")];
    assert IsBatch(h[0]) && h[0].toolCalls[0].id == "";
    RepairIdempotent(h);
  }

  // ---------- repair after a crash or a depth exit ----------

  /** A transcript that stopped anywhere: each batch is followed by results for some first
      part of its calls, and there are no other results. */
  ghost predicate LeftOff(h: seq<Message>) {
    if h == [] then true
    else if h[0].role.Tool? then false
    else if !IsBatch(h[0]) then LeftOff(h[1..])
    else
      var n := ToolRun(h[1..]);
      AnswersFirst(h[1..n + 1], h[0].toolCalls) && LeftOff(h[n + 1..])
  }

  /** `block` answers the first calls in order. */
  ghost predicate AnswersFirst(block: seq<Message>, calls: seq<ToolCall>) {
    |block| <= |calls| && forall k :: 0 <= k < |block| ==> Answers(block[k], calls[k])
  }

  /** The ids of the first `n` calls are not empty and no later call repeats one of them. */
  ghost predicate Resumable(calls: seq<ToolCall>, n: nat)
    requires n <= |calls|
  {
    && (forall c :: 0 <= c < n ==> calls[c].id != "")
    && (forall c, d :: 0 <= c < n <= d < |calls| ==> calls[c].id != calls[d].id)
  }

  /** Where a batch was left off, its ids tell what is missing. */
  ghost predicate IdsTell(h: seq<Message>) {
    if h == [] then true
    else if !IsBatch(h[0]) then IdsTell(h[1..])
    else
      var n := ToolRun(h[1..]);
      (n <= |h[0].toolCalls| ==> Resumable(h[0].toolCalls, n)) && IdsTell(h[n + 1..])
  }

  /** The ids of a batch tell its calls apart. */
  ghost predicate DistinctIDs(calls: seq<ToolCall>) {
    && (forall c :: 0 <= c < |calls| ==> calls[c].id != "")
    && (forall c, d :: 0 <= c < d < |calls| ==> calls[c].id != calls[d].id)
  }

  lemma {:induction false} DistinctIDsTell(h: seq<Message>)
    requires forall i :: 0 <= i < |h| && IsBatch(h[i]) ==> DistinctIDs(h[i].toolCalls)
    ensures IdsTell(h)
  {
    if h == [] {
    } else if !IsBatch(h[0]) {
      DistinctIDsTell(h[1..]);
    } else {
      assert DistinctIDs(h[0].toolCalls);
      DistinctIDsTell(h[ToolRun(h[1..]) + 1..]);
    }
  }

  lemma {:induction false} ReadMalformed(h: seq<Message>)
    ensures ReadAll(Malformed, h) == Malformed
  {
    if h != [] {
      ReadMalformed(h[..|h| - 1]);
    }
  }

  /** Results read one after the other are accepted only as answers in call order. */
  lemma {:induction false} ReadResults(r: Reading, ts: seq<Message>)
    requires r.Reading? && forall k :: 0 <= k < |ts| ==> ts[k].role.Tool?
    ensures ReadAll(r, ts).Reading? <==> AnswersFirst(ts, r.pending)
    ensures ReadAll(r, ts).Reading? ==>
              ReadAll(r, ts) == Reading(r.pending[|ts|..], r.started || ts != [], r.abandoned)
  {
    if ts != [] {
      var n := |ts| - 1;
      ReadResults(r, ts[..n]);
    }
  }

  lemma {:induction false} SyntheticConcat(a: seq<ToolCall>, b: seq<ToolCall>, answered: set<string>)
    ensures Synthetic(a + b, answered) == Synthetic(a, answered) + Synthetic(b, answered)
  {
    if b == [] {
      assert a + b == a;
    } else {
      var n := |b| - 1;
      SyntheticConcat(a, b[..n], answered);
      assert (a + b)[..|a| + n] == a + b[..n];
    }
  }

  /** Calls of which none is answered all get a result. */
  lemma {:induction false} SyntheticAll(calls: seq<ToolCall>, answered: set<string>)
    requires forall c :: 0 <= c < |calls| ==> calls[c].id !in answered
    ensures |Synthetic(calls, answered)| == |calls|
    ensures forall k :: 0 <= k < |calls| ==> Answers(Synthetic(calls, answered)[k], calls[k])
  {
    if calls != [] {
      SyntheticAll(calls[..|calls| - 1], answered);
    }
  }

  /** No result is made up for an answered call. */
  lemma {:induction false} SyntheticUnanswered(calls: seq<ToolCall>, answered: set<string>)
    ensures forall k :: 0 <= k < |Synthetic(calls, answered)| ==> Synthetic(calls, answered)[k].toolCallID !in answered
  {
    if calls != [] {
      SyntheticUnanswered(calls[..|calls| - 1], answered);
    }
  }

  /** A block that answers the first calls answers their ids, except empty ones. */
  lemma AnsweredByPrefix(calls: seq<ToolCall>, block: seq<Message>, id: string)
    requires AnswersFirst(block, calls)
    ensures id in AnsweredIDs(block) <==> id != "" && exists c :: 0 <= c < |block| && calls[c].id == id
  {
    if id in AnsweredIDs(block) {
      var k :| 0 <= k < |block| && block[k].toolCallID == id;
      assert calls[k].id == id;
    }
    if c :| id != "" && 0 <= c < |block| && calls[c].id == id {
      assert block[c].toolCallID == id;
    }
  }

  lemma ResumableAnswered(calls: seq<ToolCall>, block: seq<Message>)
    requires AnswersFirst(block, calls) && Resumable(calls, |block|)
    ensures forall c :: 0 <= c < |block| ==> calls[c].id in AnsweredIDs(block)
    ensures forall d :: |block| <= d < |calls| ==> calls[d].id !in AnsweredIDs(block)
  {
    forall c | 0 <= c < |block| ensures calls[c].id in AnsweredIDs(block) {
      AnsweredByPrefix(calls, block, calls[c].id);
    }
    forall d | |block| <= d < |calls| ensures calls[d].id !in AnsweredIDs(block) {
      AnsweredByPrefix(calls, block, calls[d].id);
    }
  }

  lemma AnsweredResumable(calls: seq<ToolCall>, block: seq<Message>)
    requires AnswersFirst(block, calls)
    requires forall c :: 0 <= c < |block| ==> calls[c].id in AnsweredIDs(block)
    requires forall d :: |block| <= d < |calls| ==> calls[d].id !in AnsweredIDs(block)
    ensures Resumable(calls, |block|)
  {
    forall c | 0 <= c < |block| ensures calls[c].id != "" {
      AnsweredByPrefix(calls, block, calls[c].id);
    }
  }

  /** How the made-up results split between the first calls and the others. */
  lemma SyntheticSplit(calls: seq<ToolCall>, n: nat, answered: set<string>)
    requires n <= |calls|
    ensures Synthetic(calls, answered) == Synthetic(calls[..n], answered) + Synthetic(calls[n..], answered)
    ensures Synthetic(calls[..n], answered) == [] <==> forall c :: 0 <= c < n ==> calls[c].id in answered
  {
    assert calls == calls[..n] + calls[n..];
    SyntheticConcat(calls[..n], calls[n..], answered);
    SyntheticAnswers(calls[..n], answered);
    assert forall c :: 0 <= c < n ==> calls[c] in calls[..n];
  }

  /** The made-up results are those of the remaining calls exactly when the ids tell. */
  lemma MissingAnswer(calls: seq<ToolCall>, block: seq<Message>)
    requires AnswersFirst(block, calls)
    ensures var n, syn := |block|, Synthetic(calls, AnsweredIDs(block));
            |syn| == |calls| - n && AnswersFirst(syn, calls[n..]) <==> Resumable(calls, n)
  {
    var n, answered := |block|, AnsweredIDs(block);
    var b, syn := calls[n..], Synthetic(calls, AnsweredIDs(block));
    SyntheticSplit(calls, n, answered);
    if Resumable(calls, n) {
      ResumableAnswered(calls, block);
      SyntheticAll(b, answered);
      assert syn == Synthetic(b, answered);
    }
    if |syn| == |calls| - n && AnswersFirst(syn, b) {
      SyntheticUnanswered(calls, answered);
      forall d | n <= d < |calls| ensures calls[d].id !in answered {
        assert Answers(syn[d - n], b[d - n]);
      }
      SyntheticAll(b, answered);
      AnsweredResumable(calls, block);
    }
  }

  /** The reading after a batch with its block and its made-up results. */
  ghost predicate Closed(q: Reading, abandoned: nat, good: bool) {
    if good then q.Reading? && q.pending == [] && q.abandoned == abandoned
    else q.Malformed? || (q.pending != [] && q.started)
  }

  lemma BlockReads(waiting: Reading, calls: seq<ToolCall>, block: seq<Message>)
    requires waiting.Reading? && waiting.pending == calls && calls != []
    requires forall k :: 0 <= k < |block| ==> block[k].role.Tool?
    ensures Closed(ReadAll(waiting, block + Synthetic(calls, AnsweredIDs(block))), waiting.abandoned,
                   AnswersFirst(block, calls) && Resumable(calls, |block|))
  {
    var syn := Synthetic(calls, AnsweredIDs(block));
    ReadConcat(waiting, block, syn);
    ReadResults(waiting, block);
    SyntheticAnswers(calls, AnsweredIDs(block));
    if AnswersFirst(block, calls) {
      var left := ReadAll(waiting, block);
      ReadResults(left, syn);
      MissingAnswer(calls, block);
      assert block == [] ==> AnsweredIDs(block) == {};
    } else {
      ReadMalformed(syn);
    }
  }

  lemma ReadOne(r: Reading, m: Message)
    ensures ReadAll(r, [m]) == Read(r, m)
  {
    ReadSnoc(r, [], m);
    assert [] + [m] == [m];
  }

  ghost predicate GoodBatch(h: seq<Message>)
    requires h != []
  {
    var n := ToolRun(h[1..]);
    AnswersFirst(h[1..n + 1], h[0].toolCalls) && Resumable(h[0].toolCalls, n)
  }

  lemma CompletedReads(r: Reading, h: seq<Message>)
    requires r.Reading? && r.pending == [] && h != [] && IsBatch(h[0])
    ensures Closed(ReadAll(r, Completed(h)), r.abandoned, GoodBatch(h))
  {
    var n := ToolRun(h[1..]);
    var block := h[1..n + 1];
    var syn := Synthetic(h[0].toolCalls, AnsweredIDs(block));
    assert Completed(h) == [h[0]] + (block + syn);
    ReadConcat(r, [h[0]], block + syn);
    ReadOne(r, h[0]);
    BlockReads(Read(r, h[0]), h[0].toolCalls, block);
  }

  /** A batch that is not closed never gets closed by what follows its block. */
  lemma NeverClosed(q: Reading, rest: seq<Message>)
    requires q.Malformed? || (q.pending != [] && q.started)
    requires rest == [] || !rest[0].role.Tool?
    ensures ReadAll(q, rest).Reading? ==> ReadAll(q, rest).pending != []
  {
    if rest != [] {
      assert rest == [rest[0]] + rest[1..];
      ReadConcat(q, [rest[0]], rest[1..]);
      ReadOne(q, rest[0]);
      ReadMalformed(rest[1..]);
    }
  }

  /** Repair makes a transcript well-formed exactly when each batch was left off somewhere, with
      ids that tell what is missing; a stray or misplaced result cannot be repaired. */
  lemma {:induction false} RepairReads(r: Reading, h: seq<Message>)
    requires r.Reading? && r.pending == []
    ensures var q := ReadAll(r, Repair(h));
            if LeftOff(h) && IdsTell(h) then q.Reading? && q.pending == [] && q.abandoned == r.abandoned
            else q.Reading? ==> q.pending != []
    decreases |h|
  {
    if h == [] {
    } else if !IsBatch(h[0]) {
      ReadConcat(r, [h[0]], Repair(h[1..]));
      ReadOne(r, h[0]);
      if h[0].role.Tool? {
        ReadMalformed(Repair(h[1..]));
      } else {
        RepairReads(Read(r, h[0]), h[1..]);
      }
    } else {
      var n := ToolRun(h[1..]);
      CompletedReads(r, h);
      ReadConcat(r, Completed(h), Repair(h[n + 1..]));
      RepairCompletes(h[n + 1..]);
      if GoodBatch(h) {
        RepairReads(ReadAll(r, Completed(h)), h[n + 1..]);
      } else {
        NeverClosed(ReadAll(r, Completed(h)), Repair(h[n + 1..]));
      }
    }
  }

  /** For every transcript. */
  lemma RepairHeals(h: seq<Message>)
    ensures WellFormed(Repair(h)) <==> LeftOff(h) && IdsTell(h)
    ensures (forall i :: 0 <= i < |h| && IsBatch(h[i]) ==> DistinctIDs(h[i].toolCalls)) ==>
              (WellFormed(Repair(h)) <==> LeftOff(h))
  {
    RepairReads(START, h);
    if forall i :: 0 <= i < |h| && IsBatch(h[i]) ==> DistinctIDs(h[i].toolCalls) {
      DistinctIDsTell(h);
    }
  }

  // ---------- left off, read from the left ----------

  lemma {:induction false} FollowBroken(h: seq<Message>)
    ensures FollowAll(Broken, h) == Broken
  {
    if h != [] {
      FollowBroken(h[..|h| - 1]);
    }
  }

  lemma {:induction false} FollowResults(t: Trail, ts: seq<Message>)
    requires t.Waiting? && forall k :: 0 <= k < |ts| ==> ts[k].role.Tool?
    ensures FollowAll(t, ts) == if AnswersFirst(ts, t.calls) then Waiting(t.calls[|ts|..]) else Broken
  {
    if ts != [] {
      FollowResults(t, ts[..|ts| - 1]);
    }
  }

  lemma FollowFirst(t: Trail, h: seq<Message>)
    requires h != []
    ensures FollowAll(t, h) == FollowAll(Follow(t, h[0]), h[1..])
  {
    assert h == [h[0]] + h[1..] && [h[0]][..0] == [];
    FollowConcat(t, [h[0]], h[1..]);
    assert FollowAll(t, [h[0]]) == Follow(t, h[0]);
  }

  /** A transcript was left off exactly when following it never breaks. */
  lemma {:induction false} LeftOffIs(t: Trail, h: seq<Message>)
    requires t.Waiting? && (h != [] && h[0].role.Tool? ==> t.calls == [])
    ensures LeftOff(h) <==> FollowAll(t, h).Waiting?
    decreases |h|
  {
    if h != [] {
      FollowFirst(t, h);
      if h[0].role.Tool? {
        FollowBroken(h[1..]);
      } else if !IsBatch(h[0]) {
        LeftOffIs(Waiting([]), h[1..]);
      } else {
        var n := ToolRun(h[1..]);
        var block, rest := h[1..n + 1], h[n + 1..];
        assert h[1..] == block + rest;
        FollowConcat(Waiting(h[0].toolCalls), block, rest);
        FollowResults(Waiting(h[0].toolCalls), block);
        if AnswersFirst(block, h[0].toolCalls) {
          LeftOffIs(Waiting(h[0].toolCalls[n..]), rest);
        } else {
          FollowBroken(rest);
        }
      }
    }
  }
}
