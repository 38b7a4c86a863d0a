/** Follow-up chat text of internal/agent/session.go and internal/agent/api.go: text that
    arrives while the agent works is merged into one queued message, which a flush takes
    out, delivers or puts back, possibly after moving to a continuation session. */
module ChatQueue {

  const SEPARATOR := "\n\n"

  function Join(xs: seq<string>): string {
    if xs == [] then ""
    else if |xs| == 1 then xs[0]
    else xs[0] + SEPARATOR + Join(xs[1..])
  }

  ghost predicate NonEmpty(xs: seq<string>) {
    forall k :: 0 <= k < |xs| ==> xs[k] != ""
  }

  lemma {:induction false} JoinConcat(xs: seq<string>, ys: seq<string>)
    requires xs != [] && ys != []
    ensures Join(xs + ys) == Join(xs) + "\n\n" + Join(ys)
  {
    if |xs| == 1 {
      assert (xs + ys)[1..] == ys;
    } else {
      assert (xs + ys)[1..] == xs[1..] + ys;
      JoinConcat(xs[1..], ys);
      assert Join(xs + ys) == xs[0] + SEPARATOR + (Join(xs[1..]) + SEPARATOR + Join(ys));
    }
  }

  /** A merged message stands for the messages it was merged from. */
  lemma JoinMerged(xs: seq<string>, ys: seq<string>, zs: seq<string>)
    requires ys != []
    ensures Join(xs + [Join(ys)] + zs) == Join(xs + ys + zs)
  {
    var one := [Join(ys)];
    if xs != [] {
      JoinConcat(xs, one);
      JoinConcat(xs, ys);
    } else {
      assert xs + one == one && xs + ys == ys;
    }
    if zs != [] {
      JoinConcat(xs + one, zs);
      JoinConcat(xs + ys, zs);
    } else {
      assert xs + one + zs == xs + one && xs + ys + zs == xs + ys;
    }
  }

  lemma JoinNonEmpty(xs: seq<string>)
    requires xs != [] && NonEmpty(xs)
    ensures Join(xs) != ""
  {
  }

  /** The queue fields of a session manager. */
  class SessionQueue {
    var queuedChatMessages: seq<string>
    var flushingQueuedChat: bool

    constructor ()
      ensures queuedChatMessages == [] && !flushingQueuedChat
    {
      queuedChatMessages, flushingQueuedChat := [], false;
    }

    method Enqueue(content: string)
      modifies this`queuedChatMessages
      ensures queuedChatMessages == old(queuedChatMessages) + [content]
    {
      queuedChatMessages := queuedChatMessages + [content];
    }

    method EnqueueAll(contents: seq<string>)
      modifies this`queuedChatMessages
      ensures queuedChatMessages == old(queuedChatMessages) + contents
    {
      for i := 0 to |contents|
        invariant queuedChatMessages == old(queuedChatMessages) + contents[..i]
      {
        Enqueue(contents[i]);
      }
    }

    method BeginQueuedChatFlush() returns (text: string, ok: bool)
      modifies this
      ensures ok == (!old(flushingQueuedChat) && old(queuedChatMessages) != [])
      ensures if ok then text == Join(old(queuedChatMessages)) && queuedChatMessages == [] && flushingQueuedChat
              else text == "" && unchanged(this)
    {
      if flushingQueuedChat || queuedChatMessages == [] {
        return "", false;
      }
      flushingQueuedChat := true;
      text, ok := Join(queuedChatMessages), true;
      queuedChatMessages := [];
    }

    method RestoreQueuedChatInput(text: string)
      modifies this
      ensures !flushingQueuedChat
      ensures queuedChatMessages == (if text == "" then [] else [text]) + old(queuedChatMessages)
    {
      if text == "" {
        CompleteQueuedChatFlush();
        return;
      }
      flushingQueuedChat := false;
      queuedChatMessages := [text] + queuedChatMessages;
    }

    method CompleteQueuedChatFlush()
      modifies this`flushingQueuedChat
      ensures !flushingQueuedChat
    {
      flushingQueuedChat := false;
    }

    /** The continuation session takes over the queue and the flush marker. */
    method CarryOver(next: SessionQueue)
      requires next != this
      modifies next
      ensures next.queuedChatMessages == old(next.queuedChatMessages) + queuedChatMessages
      ensures next.flushingQueuedChat ==
              if queuedChatMessages != [] || flushingQueuedChat then flushingQueuedChat else old(next.flushingQueuedChat)
    {
      if queuedChatMessages != [] || flushingQueuedChat {
        next.queuedChatMessages := next.queuedChatMessages + queuedChatMessages;
        next.flushingQueuedChat := flushingQueuedChat;
      }
    }
  }

  datatype Compaction = NotNeeded | CompactionFailed | Rotated

  /** One flush, in a session that rotates or not, with other text arriving meanwhile: `early`
      before the queue is copied, `late` after it. Nothing is lost, doubled or reordered,
      unless the session rotated and the continuation then could not be found. */
  method FlushQueuedChatMessage(mgr: SessionQueue, next: SessionQueue, compaction: Compaction,
                                found: bool, accepted: bool, early: seq<string>, late: seq<string>)
    returns (target: SessionQueue, delivered: seq<string>)
    requires mgr != next && next.queuedChatMessages == [] && !next.flushingQueuedChat
    requires NonEmpty(mgr.queuedChatMessages)
    modifies mgr, next
    ensures var began := !old(mgr.flushingQueuedChat) && old(mgr.queuedChatMessages) != [];
            var misplaced := began && compaction.Rotated? && !found;
            && target == (if began && compaction.Rotated? then next else mgr)
            && (!misplaced ==>
                  Join(delivered + target.queuedChatMessages) == Join(old(mgr.queuedChatMessages) + early + late))
            && (misplaced ==> delivered == [] && target.queuedChatMessages == early + late && target.flushingQueuedChat)
            && (began && !misplaced ==> !target.flushingQueuedChat)
            && (!began ==> target.flushingQueuedChat == old(mgr.flushingQueuedChat))
            && delivered == (if began && !compaction.CompactionFailed? && found && accepted
                             then [Join(old(mgr.queuedChatMessages))] else [])
  {
    target, delivered := mgr, [];
    var text, ok := mgr.BeginQueuedChatFlush();
    ghost var q := old(mgr.queuedChatMessages);
    mgr.EnqueueAll(early);
    if !ok {
      mgr.EnqueueAll(late);
      assert delivered + target.queuedChatMessages == q + early + late;
      return;
    }
    JoinNonEmpty(q);
    JoinMerged([], q, early + late);
    assert [] + q + (early + late) == q + early + late;
    if compaction.CompactionFailed? {
      mgr.RestoreQueuedChatInput(text);
      mgr.EnqueueAll(late);
      assert delivered + target.queuedChatMessages == [] + [text] + (early + late);
      return;
    }
    if compaction.Rotated? {
      mgr.CarryOver(next);
      target := next;
    }
    target.EnqueueAll(late);
    assert target.queuedChatMessages == early + late;
    if !found {
      mgr.RestoreQueuedChatInput(text);
    } else if accepted {
      delivered := [text];
      target.CompleteQueuedChatFlush();
    } else {
      target.RestoreQueuedChatInput(text);
    }
    assert !(compaction.Rotated? && !found) ==> delivered + target.queuedChatMessages == [] + [text] + (early + late);
  }
}
