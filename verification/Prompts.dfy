/** User prompts of internal/agent/session.go and command approval of
    internal/agent/approval.go: prompts are announced, waited for on a channel that holds one
    response, and answered by explicit responses, chat text, cancellation or time running out. */
module Prompts {

  datatype PromptType = General | CommandApproval

  datatype Response = Response(promptID: string, selected: seq<string>, freeText: string, cancelled: bool)

  function ChatText(id: string, text: string): Response {
    Response(id, [], text, false)
  }

  function Cancellation(id: string): Response {
    Response(id, [], "", true)
  }

  /** An unknown prompt counts as a general one. */
  function TypeOf(types: map<string, PromptType>, id: string): PromptType {
    if id in types then types[id] else General
  }

  /** Chat text and partial cancellation pass command approvals by. */
  predicate Reachable(promptType: PromptType, approvals: bool) {
    approvals || promptType != CommandApproval
  }

  /** What cancelling does to the channel of one pending prompt. */
  function Cancelled(promptType: PromptType, id: string, buffer: seq<Response>, approvals: bool): seq<Response> {
    if buffer == [] && Reachable(promptType, approvals) then [Cancellation(id)] else buffer
  }

  /** The prompt is on record as a command approval. */
  predicate AsksApproval(types: map<string, PromptType>, id: string) {
    id in types && types[id] == CommandApproval
  }

  /** A channel with room for one response. */
  class Channel {
    var buffer: seq<Response>

    constructor ()
      ensures buffer == []
    {
      buffer := [];
    }

    method TrySend(r: Response) returns (sent: bool)
      modifies this
      ensures sent == (old(buffer) == [])
      ensures buffer == if sent then [r] else old(buffer)
    {
      sent := buffer == [];
      if sent {
        buffer := [r];
      }
    }

    method TryReceive() returns (r: seq<Response>)
      modifies this
      ensures r == old(buffer) && buffer == []
    {
      r := buffer;
      buffer := [];
    }
  }

  /** The prompt fields of a session manager. */
  class PromptBoard {
    var pendingPrompts: map<string, Channel>
    var promptTypes: map<string, PromptType>

    ghost predicate Valid()
      reads this
    {
      forall x, y :: x in pendingPrompts && y in pendingPrompts && x != y ==> pendingPrompts[x] != pendingPrompts[y]
    }

    constructor ()
      ensures Valid() && pendingPrompts == map[] && promptTypes == map[]
    {
      pendingPrompts, promptTypes := map[], map[];
    }

    method EmitUserPrompt(id: string, promptType: PromptType)
      modifies this`promptTypes
      ensures promptTypes == old(promptTypes)[id := promptType]
    {
      promptTypes := promptTypes[id := promptType];
    }

    method BeginWait(id: string) returns (ch: Channel)
      requires Valid()
      modifies this`pendingPrompts
      ensures Valid() && fresh(ch) && ch.buffer == [] && pendingPrompts == old(pendingPrompts)[id := ch]
    {
      ch := new Channel();
      pendingPrompts := pendingPrompts[id := ch];
    }

    method EndWait(id: string)
      requires Valid()
      modifies this
      ensures Valid() && pendingPrompts == old(pendingPrompts) - {id} && promptTypes == old(promptTypes) - {id}
    {
      pendingPrompts := pendingPrompts - {id};
      promptTypes := promptTypes - {id};
    }

    /** The lookup and the send are separate moments. */
    method Lookup(r: Response) returns (ch: Channel?)
      ensures if r.promptID in pendingPrompts then ch == pendingPrompts[r.promptID] else ch == null
    {
      ch := if r.promptID in pendingPrompts then pendingPrompts[r.promptID] else null;
    }

    method CancelOne(id: string, includeApprovals: bool)
      requires id in pendingPrompts
      modifies pendingPrompts[id]
      ensures pendingPrompts[id].buffer == if old(pendingPrompts[id].buffer) == [] && (includeApprovals || !AsksApproval(promptTypes, id))
                                           then [Response(id, [], "", true)] else old(pendingPrompts[id].buffer)
    {
      if includeApprovals || TypeOf(promptTypes, id) != CommandApproval {
        var _ := pendingPrompts[id].TrySend(Cancellation(id));
      }
    }

    /** `order` is the arbitrary order in which the map is iterated. */
    method CancelPendingPrompts(includeApprovals: bool, order: seq<string>)
      requires Valid()
      requires (forall id :: id in order <==> id in pendingPrompts) && forall i, j :: 0 <= i < j < |order| ==> order[i] != order[j]
      modifies pendingPrompts.Values
      ensures Valid()
      ensures forall x :: x in pendingPrompts ==>
                pendingPrompts[x].buffer == if old(pendingPrompts[x].buffer) == [] && (includeApprovals || !AsksApproval(promptTypes, x))
                                            then [Response(x, [], "", true)] else old(pendingPrompts[x].buffer)
    {
      for i := 0 to |order|
        invariant forall x :: x in order[..i] && x in pendingPrompts ==>
                    pendingPrompts[x].buffer == if old(pendingPrompts[x].buffer) == [] && (includeApprovals || !AsksApproval(promptTypes, x))
                                                then [Response(x, [], "", true)] else old(pendingPrompts[x].buffer)
        invariant forall x :: x in pendingPrompts && x !in order[..i] ==> pendingPrompts[x].buffer == old(pendingPrompts[x].buffer)
      {
        assert order[..i + 1] == order[..i] + [order[i]] && order[i] !in order[..i];
        assert order[i] in order;
        CancelOne(order[i], includeApprovals);
      }
      assert order[..|order|] == order;
    }

    /** Chat text answers the first open general prompt, if there is one. */
    method TryRouteToGeneralPrompt(text: string, order: seq<string>) returns (id: string, routed: bool)
      requires Valid()
      requires (forall id :: id in order <==> id in pendingPrompts) && forall i, j :: 0 <= i < j < |order| ==> order[i] != order[j]
      modifies pendingPrompts.Values
      ensures Valid()
      ensures routed ==> id in pendingPrompts && !AsksApproval(promptTypes, id)
      ensures routed ==> old(pendingPrompts[id].buffer) == [] && pendingPrompts[id].buffer == [Response(id, [], text, false)]
      ensures !routed ==> forall x :: x in pendingPrompts ==>
                            AsksApproval(promptTypes, x) || old(pendingPrompts[x].buffer) != []
      ensures forall x :: x in pendingPrompts && (routed ==> x != id) ==> pendingPrompts[x].buffer == old(pendingPrompts[x].buffer)
    {
      for i := 0 to |order|
        invariant forall x :: x in pendingPrompts ==> pendingPrompts[x].buffer == old(pendingPrompts[x].buffer)
        invariant forall x :: x in order[..i] && x in pendingPrompts ==>
                    AsksApproval(promptTypes, x) || old(pendingPrompts[x].buffer) != []
      {
        id := order[i];
        assert order[..i + 1] == order[..i] + [id] && id in order;
        if TypeOf(promptTypes, id) == CommandApproval {
          continue;
        }
        var sent := pendingPrompts[id].TrySend(ChatText(id, text));
        if sent {
          return id, true;
        }
      }
      assert order[..|order|] == order;
      return "", false;
    }
  }

  // ---------- every interleaving ----------

  /** Steps of the goroutines that share a session. Waiting, receiving and unregistering are
      separate steps, as are looking a prompt up and sending the response to it. */
  datatype Op =
    | Emit(id: string, promptType: PromptType)
    | Wait(id: string)
    | Receive(id: string)
    | TimeOut(id: string)
    | Unregister(id: string)
    | Submit(response: Response)
    | Send(response: Response)
    | Route(id: string, text: string)
    | Cancel(approvals: bool)
    | SetCanceling(on: bool)

  datatype Outcome = NotWaited | Waiting | Got(response: Response) | Expired

  /** One prompt: its type, whether the type is on record, whether its channel is registered,
      what the channel holds (a late sender may still hold a channel that is not registered
      any more), and how the wait for it ended. */
  datatype Prompt = Prompt(promptType: PromptType, typed: bool, registered: bool, buffer: seq<Response>, outcome: Outcome) {
    function Known(): PromptType {
      if typed then promptType else General
    }
  }

  /** Submissions between lookup and send are `sending`; `submitted` remembers them all. */
  datatype State = State(prompts: map<string, Prompt>, sending: multiset<Response>, submitted: set<Response>, canceling: bool)

  const EMPTY := State(map[], multiset{}, {}, false)

  /** What a step addressed to prompt `id` does to it; a step that is not enabled does nothing.
      A prompt is announced before it is waited for, once, and a wait ends before it is
      unregistered. */
  function Step(p: Prompt, id: string, op: Op, canceling: bool): Prompt {
    match op
    case Wait(_) =>
      if p.outcome.NotWaited? then p.(registered := true, buffer := [], outcome := Waiting) else p
    case Receive(_) =>
      if p.outcome.Waiting? && p.buffer != [] then p.(buffer := p.buffer[1..], outcome := Got(p.buffer[0])) else p
    case TimeOut(_) =>
      if p.outcome.Waiting? && p.buffer == [] then p.(outcome := if canceling then Got(Cancellation(id)) else Expired) else p
    case Unregister(_) =>
      if p.outcome.Got? || p.outcome.Expired? then p.(registered := false, typed := false) else p
    case Send(r) =>
      if !p.outcome.NotWaited? && p.buffer == [] then p.(buffer := [r]) else p
    case Route(_, text) =>
      if p.registered && p.buffer == [] && Reachable(p.Known(), false) then p.(buffer := [ChatText(id, text)]) else p
    case Cancel(approvals) =>
      if p.registered then p.(buffer := Cancelled(p.Known(), id, p.buffer, approvals)) else p
    case _ => p
  }

  function Touch(s: State, id: string, op: Op): State {
    if id in s.prompts then s.(prompts := s.prompts[id := Step(s.prompts[id], id, op, s.canceling)]) else s
  }

  function Do(s: State, op: Op): State {
    match op
    case Emit(id, t) =>
      if id in s.prompts then s else s.(prompts := s.prompts[id := Prompt(t, true, false, [], NotWaited)])
    case Submit(r) =>
      if r.promptID in s.prompts && s.prompts[r.promptID].registered
      then s.(submitted := s.submitted + {r}, sending := s.sending + multiset{r})
      else s.(submitted := s.submitted + {r})
    case Send(r) => if r in s.sending then Touch(s.(sending := s.sending - multiset{r}), r.promptID, op) else s
    case Cancel(_) => s.(prompts := map id | id in s.prompts :: Step(s.prompts[id], id, op, s.canceling))
    case SetCanceling(on) => s.(canceling := on)
    case Wait(id) => Touch(s, id, op)
    case Receive(id) => Touch(s, id, op)
    case TimeOut(id) => Touch(s, id, op)
    case Unregister(id) => Touch(s, id, op)
    case Route(id, _) => Touch(s, id, op)
  }

  function Run(s: State, ops: seq<Op>): State {
    if ops == [] then s else Do(Run(s, ops[..|ops| - 1]), ops[|ops| - 1])
  }

  /** A response that may reach the wait for `id`: it carries that id, and for an approval it
      was either submitted as such or is a full cancellation. */
  ghost predicate Legitimate(promptType: PromptType, id: string, r: Response, submitted: set<Response>) {
    && r.promptID == id
    && (promptType == CommandApproval ==> r in submitted || r == Cancellation(id))
  }

  ghost predicate PromptInv(p: Prompt, id: string, submitted: set<Response>) {
    && (p.registered ==> p.typed)
    && (p.outcome.NotWaited? ==> p.typed && !p.registered && p.buffer == [])
    && (p.outcome.Waiting? ==> p.registered)
    && |p.buffer| <= 1
    && (p.buffer != [] ==> Legitimate(p.promptType, id, p.buffer[0], submitted))
    && (p.outcome.Got? ==> Legitimate(p.promptType, id, p.outcome.response, submitted))
  }

  ghost predicate Inv(s: State) {
    && (forall r :: r in s.sending ==> r in s.submitted)
    && (forall id :: id in s.prompts ==> PromptInv(s.prompts[id], id, s.submitted))
  }

  lemma StepInv(p: Prompt, id: string, op: Op, canceling: bool, submitted: set<Response>)
    requires PromptInv(p, id, submitted)
    requires op.Send? ==> op.response in submitted && op.response.promptID == id
    ensures PromptInv(Step(p, id, op, canceling), id, submitted)
    ensures Step(p, id, op, canceling).promptType == p.promptType
    ensures p.outcome.Got? || p.outcome.Expired? ==> Step(p, id, op, canceling).outcome == p.outcome
    ensures p.promptType == CommandApproval && (op.Route? || op == Cancel(false)) ==> Step(p, id, op, canceling) == p
  {
  }

  lemma TouchInv(s: State, id: string, op: Op)
    requires Inv(s) && (op.Send? ==> op.response in s.submitted && op.response.promptID == id)
    ensures Inv(Touch(s, id, op))
  {
    if id in s.prompts {
      StepInv(s.prompts[id], id, op, s.canceling, s.submitted);
    }
  }

  lemma SubmitInv(s: State, r: Response)
    requires Inv(s)
    ensures Inv(Do(s, Submit(r)))
  {
    forall id | id in s.prompts ensures PromptInv(s.prompts[id], id, s.submitted + {r}) {
      assert PromptInv(s.prompts[id], id, s.submitted);
    }
  }

  lemma DoInv(s: State, op: Op)
    requires Inv(s)
    ensures Inv(Do(s, op))
  {
    match op
    case Emit(_, _) =>
    case Submit(r) => SubmitInv(s, r);
    case SetCanceling(_) =>
    case Send(r) =>
      if r in s.sending {
        TouchInv(s.(sending := s.sending - multiset{r}), r.promptID, op);
      }
    case Cancel(_) =>
      forall id | id in s.prompts ensures PromptInv(Step(s.prompts[id], id, op, s.canceling), id, s.submitted) {
        StepInv(s.prompts[id], id, op, s.canceling, s.submitted);
      }
    case Wait(id) => TouchInv(s, id, op);
    case Receive(id) => TouchInv(s, id, op);
    case TimeOut(id) => TouchInv(s, id, op);
    case Unregister(id) => TouchInv(s, id, op);
    case Route(id, _) => TouchInv(s, id, op);
  }

  lemma {:induction false} RunInv(ops: seq<Op>)
    ensures Inv(Run(EMPTY, ops))
  {
    if ops != [] {
      RunInv(ops[..|ops| - 1]);
      DoInv(Run(EMPTY, ops[..|ops| - 1]), ops[|ops| - 1]);
    }
  }

  /** What the caller of a command approval makes of the end of its wait. */
  function Approved(outcome: Outcome): bool {
    outcome.Got? && !outcome.response.cancelled && "approve" in outcome.response.selected
  }

  lemma {:induction false} SubmittedMeans(ops: seq<Op>, r: Response)
    ensures r in Run(EMPTY, ops).submitted <==> Submit(r) in ops
  {
    if ops != [] {
      var n := |ops| - 1;
      SubmittedMeans(ops[..n], r);
      assert ops == ops[..n] + [ops[n]];
    }
  }

  /** In every interleaving, a wait that returns a response returns one for its own prompt,
      and a command is approved exactly when the response is one that somebody submitted for
      that very prompt, that is not cancelled and that selects approval. */
  lemma ApprovalNeedsApproval(ops: seq<Op>, id: string)
    requires id in Run(EMPTY, ops).prompts
    ensures var p := Run(EMPTY, ops).prompts[id];
            && (p.outcome.Got? ==> p.outcome.response.promptID == id)
            && (p.promptType == CommandApproval ==>
                  (Approved(p.outcome) <==>
                     exists r :: Submit(r) in ops && p.outcome == Got(r) && !r.cancelled && "approve" in r.selected))
  {
    RunInv(ops);
    var p := Run(EMPTY, ops).prompts[id];
    if p.promptType == CommandApproval && Approved(p.outcome) {
      SubmittedMeans(ops, p.outcome.response);
    }
  }

  // ---------- what arrives ----------

  /** The step puts `r` into the empty channel of a waiting prompt. */
  ghost predicate Brings(s: State, op: Op, id: string, r: Response)
    requires id in s.prompts
  {
    match op
    case Send(x) => x == r && r.promptID == id && r in s.sending
    case Route(x, text) => x == id && r == Response(id, [], text, false) && s.prompts[id].promptType != CommandApproval
    case Cancel(approvals) => r == Response(id, [], "", true) && (approvals || s.prompts[id].promptType != CommandApproval)
    case _ => false
  }

  /** Somebody waits for `id`, and nothing has arrived. */
  predicate Open(s: State, id: string) {
    id in s.prompts && s.prompts[id].outcome.Waiting? && s.prompts[id].buffer == []
  }

  /** `r` is in the channel of a waiting prompt, or the wait has returned it. */
  predicate Holds(s: State, id: string, r: Response) {
    id in s.prompts && (s.prompts[id].outcome == Got(r) || (s.prompts[id].outcome.Waiting? && s.prompts[id].buffer == [r]))
  }

  lemma HoldsStep(s: State, op: Op, id: string, r: Response)
    requires Holds(s, id, r)
    ensures Holds(Do(s, op), id, r)
    ensures op == Receive(id) ==> Do(s, op).prompts[id].outcome == Got(r)
  {
  }

  lemma {:induction false} HoldsOn(s: State, ops: seq<Op>, id: string, r: Response)
    requires Holds(s, id, r)
    ensures Holds(Run(s, ops), id, r)
  {
    if ops != [] {
      HoldsOn(s, ops[..|ops| - 1], id, r);
      HoldsStep(Run(s, ops[..|ops| - 1]), ops[|ops| - 1], id, r);
    }
  }

  lemma BringsStep(s: State, op: Op, id: string, r: Response)
    requires Inv(s) && Open(s, id) && Brings(s, op, id, r)
    ensures Holds(Do(s, op), id, r)
  {
    assert PromptInv(s.prompts[id], id, s.submitted);
  }

  /** In every reachable state, for prompts of either type: what is brought to an open wait is
      what the wait returns, whatever happens in between. If it is an approval that was asked
      for, the command is approved exactly when the response says so. */
  lemma BroughtArrives(ops: seq<Op>, op: Op, more: seq<Op>, id: string, r: Response)
    requires Open(Run(EMPTY, ops), id) && Brings(Run(EMPTY, ops), op, id, r)
    ensures var s := Do(Run(Do(Run(EMPTY, ops), op), more), Receive(id));
            && id in s.prompts && s.prompts[id].outcome == Got(r)
            && (Approved(s.prompts[id].outcome) <==> !r.cancelled && "approve" in r.selected)
  {
    RunInv(ops);
    var s := Do(Run(EMPTY, ops), op);
    BringsStep(Run(EMPTY, ops), op, id, r);
    HoldsOn(s, more, id, r);
    HoldsStep(Run(s, more), Receive(id), id, r);
  }

  /** A submission to an open wait can be sent to it: nobody needs to help. */
  lemma SubmissionArrives(ops: seq<Op>, id: string, r: Response)
    requires Open(Run(EMPTY, ops), id) && r.promptID == id
    ensures var s := Do(Do(Do(Run(EMPTY, ops), Submit(r)), Send(r)), Receive(id));
            id in s.prompts && s.prompts[id].outcome == Got(r)
  {
    RunInv(ops);
    var s := Run(EMPTY, ops);
    assert PromptInv(s.prompts[id], id, s.submitted);
    var t := Do(s, Submit(r));
    assert t == Run(EMPTY, ops + [Submit(r)]) by {
      assert (ops + [Submit(r)])[..|ops|] == ops;
    }
    BroughtArrives(ops + [Submit(r)], Send(r), [], id, r);
  }

  lemma {:induction false} RunTwo(ops: seq<Op>, a: Op, b: Op)
    ensures Run(EMPTY, ops + [a, b]) == Do(Do(Run(EMPTY, ops), a), b)
  {
    assert (ops + [a, b])[..|ops| + 1] == ops + [a] && (ops + [a])[..|ops|] == ops;
  }

  /** After any run, a new prompt of either type that is announced, waited for and answered
      returns its answer; and if nobody answers, time runs out on it. */
  lemma AnnouncedIsAnswered(ops: seq<Op>, id: string, t: PromptType, r: Response)
    requires id !in Run(EMPTY, ops).prompts && r.promptID == id
    ensures var s := Do(Do(Run(EMPTY, ops), Emit(id, t)), Wait(id));
            && Open(s, id) && s.prompts[id].promptType == t
            && Ended(Do(Do(Do(s, Submit(r)), Send(r)), Receive(id)), id, Got(r))
            && Ended(Do(s, TimeOut(id)), id, if s.canceling then Got(Response(id, [], "", true)) else Expired)
  {
    RunTwo(ops, Emit(id, t), Wait(id));
    SubmissionArrives(ops + [Emit(id, t), Wait(id)], id, r);
  }

  /** The step lets the wait for `id` return `r`, or will: it brings `r` to the open wait, or
      time runs out on it during a cancellation. */
  ghost predicate Gives(s: State, op: Op, id: string, r: Response) {
    Open(s, id) && (Brings(s, op, id, r) || (op == TimeOut(id) && s.canceling && r == Response(id, [], "", true)))
  }

  lemma GivesStep(s: State, op: Op, id: string, r: Response)
    requires Inv(s) && Holds(Do(s, op), id, r)
    ensures id in s.prompts && (Holds(s, id, r) || Gives(s, op, id, r))
  {
    if id in s.prompts {
      assert PromptInv(s.prompts[id], id, s.submitted);
      StepOf(s, op, id);
    }
  }

  /** A step is addressed to `id`. */
  predicate Addresses(s: State, op: Op, id: string) {
    match op
    case Send(r) => r in s.sending && r.promptID == id
    case Cancel(_) => true
    case Wait(x) => x == id
    case Receive(x) => x == id
    case TimeOut(x) => x == id
    case Unregister(x) => x == id
    case Route(x, _) => x == id
    case _ => false
  }

  lemma StepOf(s: State, op: Op, id: string)
    requires id in s.prompts
    ensures id in Do(s, op).prompts
    ensures Do(s, op).prompts[id] == if Addresses(s, op, id) then Step(s.prompts[id], id, op, s.canceling) else s.prompts[id]
  {
  }

  /** Over every run: a response that a wait has returned came from one step, which found the
      wait open: its sending, a chat text to a general prompt, a cancellation, or time that
      ran out during one. */
  lemma {:induction false} GotCameFrom(ops: seq<Op>, id: string, r: Response)
    requires Holds(Run(EMPTY, ops), id, r)
    ensures exists k :: 0 <= k < |ops| && Gives(Run(EMPTY, ops[..k]), ops[k], id, r)
  {
    var n := |ops| - 1;
    RunInv(ops[..n]);
    GivesStep(Run(EMPTY, ops[..n]), ops[n], id, r);
    if Holds(Run(EMPTY, ops[..n]), id, r) {
      GotCameFrom(ops[..n], id, r);
      var k :| 0 <= k < n && Gives(Run(EMPTY, ops[..n][..k]), ops[..n][k], id, r);
      assert ops[..n][..k] == ops[..k];
    }
  }

  /** The wait for `id` has ended, with this outcome. */
  ghost predicate Ended(s: State, id: string, outcome: Outcome) {
    id in s.prompts && s.prompts[id].outcome == outcome && (outcome.Got? || outcome.Expired?)
  }

  lemma EndedStep(s: State, op: Op, id: string, outcome: Outcome)
    requires Ended(s, id, outcome)
    ensures Ended(Do(s, op), id, outcome)
  {
  }

  /** A wait that has ended keeps its outcome for good: it returns at most once. */
  lemma {:induction false} OutcomeIsFinal(s: State, ops: seq<Op>, id: string, outcome: Outcome)
    requires Ended(s, id, outcome)
    ensures Ended(Run(s, ops), id, outcome)
  {
    if ops != [] {
      OutcomeIsFinal(s, ops[..|ops| - 1], id, outcome);
      EndedStep(Run(s, ops[..|ops| - 1]), ops[|ops| - 1], id, outcome);
    }
  }

  /** The wait is over and the prompt is off the board: no submission finds it, and neither chat text
      nor cancellation reaches it. */
  ghost predicate OffBoard(s: State, id: string) {
    && id in s.prompts && !s.prompts[id].registered && !s.prompts[id].typed && !s.prompts[id].outcome.NotWaited?
    && (forall r: Response :: r.promptID == id ==> Do(s, Submit(r)).sending == s.sending)
    && (forall text :: Do(s, Route(id, text)) == s)
    && (forall approvals :: id in Do(s, Cancel(approvals)).prompts && Do(s, Cancel(approvals)).prompts[id] == s.prompts[id])
  }

  lemma OffBoardIs(s: State, id: string)
    requires id in s.prompts && !s.prompts[id].registered && !s.prompts[id].typed && !s.prompts[id].outcome.NotWaited?
    ensures OffBoard(s, id)
  {
    forall text ensures Do(s, Route(id, text)) == s {
      assert s.prompts[id := s.prompts[id]] == s.prompts;
    }
  }

  lemma OffBoardStep(s: State, op: Op, id: string)
    requires OffBoard(s, id)
    ensures OffBoard(Do(s, op), id)
  {
    StepOf(s, op, id);
    OffBoardIs(Do(s, op), id);
  }

  lemma {:induction false} OffBoardOn(s: State, ops: seq<Op>, id: string)
    requires OffBoard(s, id)
    ensures OffBoard(Run(s, ops), id)
  {
    if ops != [] {
      OffBoardOn(s, ops[..|ops| - 1], id);
      OffBoardStep(Run(s, ops[..|ops| - 1]), ops[|ops| - 1], id);
    }
  }

  /** Once a wait has ended and was unregistered, its prompt is off the board for good. */
  lemma UnregisteredForGood(ops: seq<Op>, more: seq<Op>, id: string, outcome: Outcome)
    requires Ended(Run(EMPTY, ops), id, outcome)
    ensures OffBoard(Run(Do(Run(EMPTY, ops), Unregister(id)), more), id)
  {
    var s := Do(Run(EMPTY, ops), Unregister(id));
    OffBoardIs(s, id);
    OffBoardOn(s, more, id);
  }

  /** Chat text and partial cancellation never reach a command approval, in any reachable state. */
  lemma ApprovalsUntouched(ops: seq<Op>, op: Op, id: string)
    requires op.Route? || op == Cancel(false)
    requires id in Run(EMPTY, ops).prompts && Run(EMPTY, ops).prompts[id].promptType == CommandApproval
    ensures id in Do(Run(EMPTY, ops), op).prompts
    ensures Do(Run(EMPTY, ops), op).prompts[id] == Run(EMPTY, ops).prompts[id]
  {
    RunInv(ops);
    var s := Run(EMPTY, ops);
    StepInv(s.prompts[id], id, op, s.canceling, s.submitted);
  }
}
