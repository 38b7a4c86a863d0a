/** LLM messages and the shape of a transcript: a batch of tool calls made by the
    assistant is answered in place, one tool result per call and in call order. */
module Transcript {

  datatype Role = System | User | Assistant | Tool

  datatype ToolCall = ToolCall(id: string, name: string)

  datatype Message = Message(role: Role, content: string, toolCalls: seq<ToolCall>, toolCallID: string)

  const CANCELLED := "Tool execution was cancelled."

  /** An assistant message that makes tool calls. */
  predicate IsBatch(m: Message) {
    m.role.Assistant? && m.toolCalls != []
  }

  /** A message that neither makes nor answers tool calls. */
  predicate IsPlain(m: Message) {
    !m.role.Tool? && !IsBatch(m)
  }

  function ToolResult(tc: ToolCall, content: string): Message {
    Message(Tool, content, [], tc.id)
  }

  predicate Answers(m: Message, tc: ToolCall) {
    m.role.Tool? && m.toolCallID == tc.id
  }

  /** Reading a transcript from the left: the calls of the latest batch that still
      wait for a result, whether one of that batch's calls has its result already,
      and how many earlier batches were left with no result at all. */
  datatype Reading = Malformed | Reading(pending: seq<ToolCall>, started: bool, abandoned: nat) {
    predicate AtRest() {
      Reading? && (pending == [] || !started)
    }

    /** Batches with no result, counting the latest one. */
    function Unanswered(): nat
      requires Reading?
    {
      abandoned + if pending == [] then 0 else 1
    }
  }

  const START := Reading([], false, 0)

  function Read(r: Reading, m: Message): Reading {
    if r.Malformed? then Malformed
    else if m.role.Tool? then
      if r.pending != [] && Answers(m, r.pending[0]) then Reading(r.pending[1..], true, r.abandoned)
      else Malformed
    else if r.AtRest() then
      Reading(if IsBatch(m) then m.toolCalls else [], false, r.Unanswered())
    else Malformed
  }

  function ReadAll(r: Reading, h: seq<Message>): Reading {
    if h == [] then r else Read(ReadAll(r, h[..|h| - 1]), h[|h| - 1])
  }

  /** Every batch answered in place and in full, every tool result an answer. */
  ghost predicate WellFormed(h: seq<Message>) {
    var r := ReadAll(START, h);
    r.Reading? && r.pending == [] && r.abandoned == 0
  }

  lemma ReadSnoc(r: Reading, h: seq<Message>, m: Message)
    ensures ReadAll(r, h + [m]) == Read(ReadAll(r, h), m)
  {
    assert (h + [m])[..|h|] == h;
  }

  lemma {:induction false} ReadConcat(r: Reading, a: seq<Message>, b: seq<Message>)
    ensures ReadAll(r, a + b) == ReadAll(ReadAll(r, a), b)
  {
    if b == [] {
      assert a + b == a;
    } else {
      ReadConcat(r, a, b[..|b| - 1]);
      assert a + b == (a + b[..|b| - 1]) + [b[|b| - 1]];
      ReadSnoc(r, a + b[..|b| - 1], b[|b| - 1]);
    }
  }

  /** Two readings that agree but for whether an answered batch was started. */
  predicate Alike(q: Reading, r: Reading, extra: nat) {
    if q.Malformed? || r.Malformed? then q.Malformed? && r.Malformed?
    else q.pending == r.pending && q.abandoned == r.abandoned + extra && (q.pending != [] ==> q.started == r.started)
  }

  lemma {:induction false} ReadAlike(q: Reading, r: Reading, extra: nat, h: seq<Message>)
    requires Alike(q, r, extra)
    ensures Alike(ReadAll(q, h), ReadAll(r, h), extra)
  {
    if h != [] {
      ReadAlike(q, r, extra, h[..|h| - 1]);
    }
  }

  /** Nothing later makes up for a batch without results or for a stray result. */
  lemma {:induction false} ReadNeverHeals(q: Reading, h: seq<Message>)
    requires q.Malformed? || q.abandoned > 0
    ensures ReadAll(q, h).Malformed? || ReadAll(q, h).abandoned > 0
  {
    if h != [] {
      ReadNeverHeals(q, h[..|h| - 1]);
    }
  }

  /** Two transcripts put together are well-formed exactly when each of them is. */
  lemma WellFormedConcat(a: seq<Message>, b: seq<Message>)
    requires b == [] || !b[0].role.Tool?
    ensures WellFormed(a + b) <==> WellFormed(a) && WellFormed(b)
  {
    var q := ReadAll(START, a);
    ReadConcat(START, a, b);
    if WellFormed(a) {
      ReadAlike(q, START, 0, b);
    } else if b == [] {
      assert a + b == a;
    } else {
      assert b == [b[0]] + b[1..];
      ReadConcat(q, [b[0]], b[1..]);
      assert [b[0]][..0] == [] && ReadAll(q, [b[0]]) == Read(q, b[0]);
      ReadNeverHeals(Read(q, b[0]), b[1..]);
    }
  }

  // ---------- transcripts that may stop anywhere ----------

  /** What a transcript that was interrupted now and then may still expect: the calls of the
      latest batch that have no result yet. */
  datatype Trail = Broken | Waiting(calls: seq<ToolCall>)

  /** Unlike `Read`, anything but a result may follow at any moment, and the calls still
      waiting then stay without results. */
  function Follow(t: Trail, m: Message): Trail {
    if t.Broken? then Broken
    else if m.role.Tool? then
      if t.calls != [] && Answers(m, t.calls[0]) then Waiting(t.calls[1..]) else Broken
    else Waiting(if IsBatch(m) then m.toolCalls else [])
  }

  function FollowAll(t: Trail, h: seq<Message>): Trail {
    if h == [] then t else Follow(FollowAll(t, h[..|h| - 1]), h[|h| - 1])
  }

  lemma {:induction false} FollowConcat(t: Trail, a: seq<Message>, b: seq<Message>)
    ensures FollowAll(t, a + b) == FollowAll(FollowAll(t, a), b)
  {
    if b == [] {
      assert a + b == a;
    } else {
      var n := |b| - 1;
      FollowConcat(t, a, b[..n]);
      assert (a + b)[..|a| + n] == a + b[..n];
    }
  }

  // ---------- well-formed means answered ----------

  /** Batch `i` is followed by exactly one result for each of its calls, in call order. */
  ghost predicate AnsweredInPlace(h: seq<Message>, i: nat)
    requires i < |h|
  {
    && i + |h[i].toolCalls| < |h|
    && forall k :: 0 <= k < |h[i].toolCalls| ==> Answers(h[i + 1 + k], h[i].toolCalls[k])
  }

  /** Result `j` lies in the block of a batch before it. */
  ghost predicate InSomeBlock(h: seq<Message>, j: nat)
    requires j < |h|
  {
    exists i :: 0 <= i < j && IsBatch(h[i]) && j <= i + |h[i].toolCalls|
  }

  /** What a reading that abandoned nothing knows: all batches are answered in place
      except that the latest may still wait for its last calls. */
  ghost predicate Known(h: seq<Message>, pending: seq<ToolCall>) {
    && (forall i :: 0 <= i < |h| && IsBatch(h[i]) ==>
          || AnsweredInPlace(h, i)
          || (pending != [] && LatestBatch(h, pending, i)))
    && (pending != [] ==> exists i :: 0 <= i < |h| && LatestBatch(h, pending, i))
    && (forall j :: 0 <= j < |h| && h[j].role.Tool? ==> InSomeBlock(h, j))
  }

  /** Batch `i` is the last thing but for its own results, and waits for `pending`. */
  ghost predicate LatestBatch(h: seq<Message>, pending: seq<ToolCall>, i: nat)
    requires i < |h|
  {
    var done := |h| - 1 - i;
    && IsBatch(h[i])
    && done + |pending| == |h[i].toolCalls|
    && pending == h[i].toolCalls[done..]
    && forall k :: 0 <= k < done ==> Answers(h[i + 1 + k], h[i].toolCalls[k])
  }

  lemma {:induction false} ReadingKnows(h: seq<Message>)
    requires ReadAll(START, h).Reading? && ReadAll(START, h).abandoned == 0
    ensures Known(h, ReadAll(START, h).pending)
  {
    if h != [] {
      var g, m := h[..|h| - 1], h[|h| - 1];
      ReadingKnows(g);
      assert h == g + [m];
      if m.role.Tool? {
        KnownAfterResult(g, ReadAll(START, g).pending, m);
      } else {
        KnownAfterOther(g, m);
      }
    }
  }

  /** One more result moves the latest batch on, or completes it. */
  lemma LatestAfterResult(g: seq<Message>, p: seq<ToolCall>, m: Message, i: nat)
    requires p != [] && Answers(m, p[0]) && i < |g| && LatestBatch(g, p, i)
    ensures if p[1..] == [] then AnsweredInPlace(g + [m], i) else LatestBatch(g + [m], p[1..], i)
  {
    var done := |g| - 1 - i;
    assert g[i].toolCalls[done..][1..] == g[i].toolCalls[done + 1..];
    assert g[i].toolCalls[done] == p[0];
  }

  lemma KnownAfterResult(g: seq<Message>, p: seq<ToolCall>, m: Message)
    requires Known(g, p) && p != [] && Answers(m, p[0])
    ensures Known(g + [m], p[1..])
  {
    var h := g + [m];
    var last :| 0 <= last < |g| && LatestBatch(g, p, last);
    LatestAfterResult(g, p, m, last);
    forall i | 0 <= i < |h| && IsBatch(h[i])
      ensures AnsweredInPlace(h, i) || (p[1..] != [] && LatestBatch(h, p[1..], i))
    {
      if !AnsweredInPlace(g, i) {
        LatestAfterResult(g, p, m, i);
      }
    }
    KeepsBlocks(g, m);
    assert InSomeBlock(h, |g|);
  }

  lemma KnownAfterOther(g: seq<Message>, m: Message)
    requires Known(g, []) && !m.role.Tool?
    ensures Known(g + [m], if IsBatch(m) then m.toolCalls else [])
  {
    var h := g + [m];
    forall i | 0 <= i < |g| && IsBatch(h[i]) ensures AnsweredInPlace(h, i) {
      assert AnsweredInPlace(g, i);
    }
    if IsBatch(m) {
      assert LatestBatch(h, m.toolCalls, |g|);
    }
    KeepsBlocks(g, m);
  }

  lemma KeepsBlocks(g: seq<Message>, m: Message)
    ensures forall j :: 0 <= j < |g| && InSomeBlock(g, j) ==> InSomeBlock(g + [m], j)
  {
    forall j | 0 <= j < |g| && InSomeBlock(g, j) ensures InSomeBlock(g + [m], j) {
      var i :| 0 <= i < j && IsBatch(g[i]) && j <= i + |g[i].toolCalls|;
      assert (g + [m])[i] == g[i];
    }
  }

  /** Every batch has its results right after it, and there are no other results. */
  ghost predicate AllAnswered(h: seq<Message>) {
    && (forall i :: 0 <= i < |h| && IsBatch(h[i]) ==> AnsweredInPlace(h, i))
    && (forall j :: 0 <= j < |h| && h[j].role.Tool? ==> InSomeBlock(h, j))
  }

  /** The scanning definition says what one would write down directly: in a well-formed
      transcript each batch is followed by its results and nothing else is a result. */
  lemma WellFormedMeansAnswered(h: seq<Message>)
    ensures WellFormed(h) <==> AllAnswered(h)
  {
    if WellFormed(h) {
      ReadingKnows(h);
    }
    if AllAnswered(h) {
      TracksPrefix(h, |h|);
      assert h[..|h|] == h;
    }
  }

  /** Batch `i` has results at or after position `n`. */
  ghost predicate Spans(h: seq<Message>, n: nat, i: int) {
    0 <= i < n <= |h| && IsBatch(h[i]) && n <= i + |h[i].toolCalls|
  }

  ghost predicate Tracks(h: seq<Message>, n: nat, r: Reading) {
    && r.Reading? && r.abandoned == 0
    && (r.pending != [] ==> exists i :: Spans(h, n, i) && r.pending == h[i].toolCalls[n - 1 - i..])
    && (r.pending == [] ==> forall i :: !Spans(h, n, i))
  }

  lemma {:induction false} TracksPrefix(h: seq<Message>, n: nat)
    requires n <= |h| && AllAnswered(h)
    ensures Tracks(h, n, ReadAll(START, h[..n]))
  {
    if n != 0 {
      var j := n - 1;
      TracksPrefix(h, j);
      assert h[..n] == h[..j] + [h[j]];
      var r := ReadAll(START, h[..j]);
      if r.pending == [] {
        TracksOutside(h, j, r);
      } else {
        TracksInside(h, j, r);
      }
    }
  }

  lemma TracksOutside(h: seq<Message>, j: nat, r: Reading)
    requires j < |h| && AllAnswered(h) && Tracks(h, j, r) && r.pending == []
    ensures Tracks(h, j + 1, Read(r, h[j]))
  {
    forall i | 0 <= i < j ensures !(IsBatch(h[i]) && j <= i + |h[i].toolCalls|) {
      assert !Spans(h, j, i);
    }
    assert !InSomeBlock(h, j);
    var n := j + 1;
    assert forall i :: Spans(h, n, i) && i < j ==> Spans(h, j, i);
    if IsBatch(h[j]) {
      assert Spans(h, n, j) && h[j].toolCalls[n - 1 - j..] == h[j].toolCalls;
    }
  }

  lemma TracksInside(h: seq<Message>, j: nat, r: Reading)
    requires j < |h| && AllAnswered(h) && Tracks(h, j, r) && r.pending != []
    ensures Tracks(h, j + 1, Read(r, h[j]))
  {
    var i :| Spans(h, j, i) && r.pending == h[i].toolCalls[j - 1 - i..];
    assert AnsweredInPlace(h, i);
    assert Answers(h[i + 1 + (j - 1 - i)], h[i].toolCalls[j - 1 - i]);
    assert r.pending[1..] == h[i].toolCalls[j - i..];
    var n := j + 1;
    if r.pending[1..] != [] {
      assert Spans(h, n, i);
    } else {
      forall k ensures !Spans(h, n, k) {
        BlocksAreTools(h, i, k);
        BlocksAreTools(h, k, i);
        BlocksAreTools(h, i, j);
      }
    }
  }

  /** The results of a batch are results, so blocks do not overlap. */
  lemma BlocksAreTools(h: seq<Message>, i: int, k: int)
    requires AllAnswered(h)
    ensures 0 <= i < k < |h| && IsBatch(h[i]) && k <= i + |h[i].toolCalls| ==> h[k].role.Tool?
  {
    if 0 <= i < k < |h| && IsBatch(h[i]) && k <= i + |h[i].toolCalls| {
      assert AnsweredInPlace(h, i);
      assert Answers(h[i + 1 + (k - i - 1)], h[i].toolCalls[k - i - 1]);
    }
  }
}
