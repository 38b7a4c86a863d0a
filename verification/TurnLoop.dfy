/** The session turn loop of internal/agent/loop.go. Everything the loop does not decide
    itself is an arbitrary function chosen in advance: the model's answers, the tools'
    outputs, and what other goroutines do each time the loop's mutex is free. A statement
    that holds for every such choice holds for every interleaving. */
module TurnLoop {
  import opened Transcript

  const MAX_TOOL_CALL_DEPTH := 50

  datatype Answer = Failed | Reply(content: string, toolCalls: seq<ToolCall>)

  /** What other goroutines do. `Store` is the session storing a message of its own accord: a
      user's when it is accepted, an injected one after it was injected. */
  datatype Foreign = Queue(text: string) | Interrupt | External(message: Message) | Store(message: Message)

  predicate NoneInjects(fs: seq<Foreign>) {
    forall k :: 0 <= k < |fs| ==> !fs[k].External?
  }

  predicate PlainInjects(fs: seq<Foreign>) {
    forall k :: 0 <= k < |fs| && fs[k].External? ==> IsPlain(fs[k].message)
  }

  predicate PlainStores(fs: seq<Foreign>) {
    forall k :: 0 <= k < |fs| && fs[k].Store? ==> IsPlain(fs[k].message)
  }

  ghost predicate NeverInjects(others: nat -> seq<Foreign>) {
    forall n :: NoneInjects(others(n))
  }

  ghost predicate InjectsOnlyPlain(others: nat -> seq<Foreign>) {
    forall n :: PlainInjects(others(n))
  }

  ghost predicate StoresOnlyPlain(others: nat -> seq<Foreign>) {
    forall n :: PlainStores(others(n))
  }

  datatype Outcome = Answered | LlmFailed | Interrupted | TooDeep

  datatype Event =
    | LlmRequest(transcript: Record)
    | ToolRun(call: ToolCall)
    | InterruptSet

  /** The actions of others so far, oldest first. */
  datatype Past = Nothing | Did(before: Past, action: Foreign)

  function Extend(p: Past, fs: seq<Foreign>): Past {
    if fs == [] then p else Did(Extend(p, fs[..|fs| - 1]), fs[|fs| - 1])
  }

  /** All actions at the first `n` moments at which others could act. */
  function PastOf(others: nat -> seq<Foreign>, n: nat): Past {
    if n == 0 then Nothing else Extend(PastOf(others, n - 1), others(n - 1))
  }

  /** The messages that were queued. */
  function QueuedIn(p: Past): seq<Message> {
    match p
    case Nothing => []
    case Did(b, f) => if f.Queue? then QueuedIn(b) + [UserMessage(f.text)] else QueuedIn(b)
  }

  /** Those that were injected. */
  function InjectedIn(p: Past): seq<Message> {
    match p
    case Nothing => []
    case Did(b, f) => if f.External? then InjectedIn(b) + [f.message] else InjectedIn(b)
  }

  /** Those that were stored, after the ones in `base`. */
  function StoredIn(base: seq<Message>, p: Past): seq<Message> {
    match p
    case Nothing => base
    case Did(b, f) => if f.Store? then StoredIn(base, b) + [f.message] else StoredIn(base, b)
  }

  function AssistantMessage(content: string, toolCalls: seq<ToolCall>): Message {
    Message(Assistant, content, toolCalls, "")
  }

  function UserMessage(text: string): Message {
    Message(User, text, [], "")
  }

  // ---------- how a transcript came about ----------

  /** A transcript, oldest message first, with a mark on messages injected from outside. */
  datatype Record = Blank | Then(before: Record, message: Message, external: bool)

  function Messages(r: Record): seq<Message> {
    match r
    case Blank => []
    case Then(b, m, _) => Messages(b) + [m]
  }

  /** The messages that the loop itself put there. */
  function Own(r: Record): seq<Message> {
    match r
    case Blank => []
    case Then(b, m, x) => if x then Own(b) else Own(b) + [m]
  }

  function OwnCount(r: Record): nat {
    match r
    case Blank => 0
    case Then(b, _, x) => OwnCount(b) + if x then 0 else 1
  }

  /** Those of them that are not a user's. */
  function Kept(r: Record): seq<Message> {
    match r
    case Blank => []
    case Then(b, m, x) => if !x && !m.role.User? then Kept(b) + [m] else Kept(b)
  }

  /** The messages that came from outside. */
  function Outside(r: Record): seq<Message> {
    match r
    case Blank => []
    case Then(b, m, x) => if x then Outside(b) + [m] else Outside(b)
  }

  /** `r` is `base` with messages added. */
  predicate Grown(base: Record, r: Record) {
    r == base || (r.Then? && Grown(base, r.before))
  }

  /** Everything that `r` was on the way. */
  function Versions(r: Record): set<Record> {
    match r
    case Blank => {r}
    case Then(b, _, _) => {r} + Versions(b)
  }

  lemma {:induction false} VersionIs(base: Record, r: Record)
    requires base in Versions(r)
    ensures Grown(base, r) && Messages(base) <= Messages(r)
  {
    if base != r {
      VersionIs(base, r.before);
    }
  }

  /** The user messages among them. */
  function Users(r: Record): seq<Message> {
    match r
    case Blank => []
    case Then(b, m, x) => if !x && m.role.User? then Users(b) + [m] else Users(b)
  }

  /** The assistant's messages among them. */
  function SaidIn(r: Record): seq<Message> {
    match r
    case Blank => []
    case Then(b, m, x) => if !x && m.role.Assistant? then SaidIn(b) + [m] else SaidIn(b)
  }

  /** Reading the loop's own messages. */
  function ReadOwn(r: Record): Reading {
    match r
    case Blank => START
    case Then(b, m, x) => if x then ReadOwn(b) else Read(ReadOwn(b), m)
  }

  /** Following the loop's own messages. */
  function FollowOwn(r: Record): Trail {
    match r
    case Blank => Waiting([])
    case Then(b, m, x) => if x then FollowOwn(b) else Follow(FollowOwn(b), m)
  }

  /** Nothing came from outside. */
  predicate AllOwn(r: Record) {
    r.Then? ==> !r.external && AllOwn(r.before)
  }

  predicate InjectsPlain(r: Record) {
    match r
    case Blank => true
    case Then(b, m, x) => InjectsPlain(b) && (x ==> IsPlain(m))
  }

  /** Reading everything. */
  function ReadEvery(r: Record): Reading {
    match r
    case Blank => START
    case Then(b, m, _) => Read(ReadEvery(b), m)
  }

  lemma {:induction false} ReadOwnIs(r: Record)
    ensures ReadOwn(r) == ReadAll(START, Own(r))
  {
    if r.Then? {
      ReadOwnIs(r.before);
      ReadSnoc(START, Own(r.before), r.message);
    }
  }

  lemma {:induction false} ReadEveryIs(r: Record)
    ensures ReadEvery(r) == ReadAll(START, Messages(r))
  {
    if r.Then? {
      ReadEveryIs(r.before);
      ReadSnoc(START, Messages(r.before), r.message);
    }
  }

  /** Without the messages from outside. */
  function Stripped(r: Record): Record {
    match r
    case Blank => Blank
    case Then(b, m, x) => if x then Stripped(b) else Then(Stripped(b), m, false)
  }

  lemma {:induction false} StrippedIs(r: Record)
    ensures Own(Stripped(r)) == Own(r) && ReadOwn(Stripped(r)) == ReadOwn(r) && FollowOwn(Stripped(r)) == FollowOwn(r)
    ensures Users(Stripped(r)) == Users(r) && Kept(Stripped(r)) == Kept(r) && SaidIn(Stripped(r)) == SaidIn(r) && AllOwn(Stripped(r))
  {
    if r.Then? {
      StrippedIs(r.before);
    }
  }

  /** What is in the log after the messages in `tale`, except users', were stored. */
  function Shelved(base: Record, tale: Record): Record {
    match tale
    case Blank => base
    case Then(t, m, _) => if m.role.User? then Shelved(base, t) else Then(Shelved(base, t), m, false)
  }

  lemma {:induction false} ShelvedUsers(base: Record, tale: Record, ms: seq<Message>)
    requires forall k :: 0 <= k < |ms| ==> ms[k].role.User?
    ensures Shelved(base, Append(tale, ms)) == Shelved(base, tale)
  {
    if ms != [] {
      ShelvedUsers(base, tale, ms[..|ms| - 1]);
    }
  }

  lemma {:induction false} ShelvedIs(base: Record, tale: Record)
    requires AllOwn(tale)
    ensures Own(Shelved(base, tale)) == Own(base) + Kept(tale)
  {
    if tale.Then? {
      ShelvedIs(base, tale.before);
    } else {
      assert Own(base) + [] == Own(base);
    }
  }

  function Append(r: Record, ms: seq<Message>): Record {
    if ms == [] then r else Then(Append(r, ms[..|ms| - 1]), ms[|ms| - 1], false)
  }

  lemma {:induction false} AppendText(r: Record, ms: seq<Message>)
    ensures Messages(Append(r, ms)) == Messages(r) + ms && Own(Append(r, ms)) == Own(r) + ms
  {
    if ms == [] {
      assert Messages(r) + ms == Messages(r) && Own(r) + ms == Own(r);
    } else {
      var n := |ms| - 1;
      AppendText(r, ms[..n]);
      assert ms == ms[..n] + [ms[n]];
    }
  }

  lemma {:induction false} AppendVersions(r: Record, ms: seq<Message>)
    ensures Versions(r) <= Versions(Append(r, ms))
  {
    if ms != [] {
      AppendVersions(r, ms[..|ms| - 1]);
    }
  }

  lemma {:induction false} AppendMarks(r: Record, ms: seq<Message>)
    ensures AllOwn(Append(r, ms)) == AllOwn(r) && InjectsPlain(Append(r, ms)) == InjectsPlain(r)
    ensures Outside(Append(r, ms)) == Outside(r) && Stripped(Append(r, ms)) == Append(Stripped(r), ms)
  {
    if ms != [] {
      AppendMarks(r, ms[..|ms| - 1]);
    }
  }

  /** User messages enter together, and settle a batch that was left open before them. */
  lemma {:induction false} AppendUsers(r: Record, ms: seq<Message>)
    requires forall k :: 0 <= k < |ms| ==> ms[k].role.User?
    ensures Users(Append(r, ms)) == Users(r) + ms && Kept(Append(r, ms)) == Kept(r)
    ensures OwnCount(Append(r, ms)) == OwnCount(r) + |ms|
    ensures ms != [] && ReadOwn(r).AtRest() ==> ReadOwn(Append(r, ms)) == Reading([], false, ReadOwn(r).Unanswered())
  {
    if ms == [] {
      assert Users(r) + ms == Users(r);
    } else {
      var n := |ms| - 1;
      AppendUsers(r, ms[..n]);
      assert ms == ms[..n] + [ms[n]];
      assert n == 0 ==> Append(r, ms[..n]) == r;
    }
  }

  // ---------- what the loop did ----------

  /** How a message of the loop's own came about: a user's message entered, answer `n` of the model
      was recorded, or could not be had, tool run `n` gave a result, or a call was cancelled. */
  datatype Deed = Entered(message: Message) | Replied(n: nat) | Refused(n: nat) | Ran(call: ToolCall, n: nat) | Cancelled(call: ToolCall)

  datatype Deeds = NoDeeds | Done(before: Deeds, deed: Deed)

  function ReplyMessage(a: Answer): Message {
    if a.Reply? then AssistantMessage(a.content, a.toolCalls) else AssistantMessage("", [])
  }

  /** The deeds account for the loop's own messages, and use the model's answers and the tools'
      outputs in their order, each once. A tool runs only for a batch just received or after
      another tool of it: once a call is cancelled, so is the rest of its batch. */
  ghost predicate Accounts(model: nat -> Answer, outputs: nat -> string, ds: Deeds, tale: Record, answers: nat, runs: nat) {
    match ds
    case NoDeeds => tale == Blank && answers == runs == 0
    case Done(b, Entered(m)) =>
      m.role.User? && Adds(tale, m) && Accounts(model, outputs, b, tale.before, answers, runs)
    case Done(b, Replied(n)) =>
      answers == n + 1 && model(n).Reply? && Adds(tale, ReplyMessage(model(n))) && Accounts(model, outputs, b, tale.before, n, runs)
    case Done(b, Refused(n)) =>
      answers == n + 1 && model(n).Failed? && Accounts(model, outputs, b, tale, n, runs)
    case Done(b, Ran(c, n)) =>
      && runs == n + 1 && b.Done? && (b.deed.Replied? || b.deed.Ran?)
      && Adds(tale, ToolResult(c, outputs(n))) && Accounts(model, outputs, b, tale.before, answers, n)
    case Done(b, Cancelled(c)) =>
      Adds(tale, ToolResult(c, CANCELLED)) && Accounts(model, outputs, b, tale.before, answers, runs)
  }

  predicate Adds(r: Record, m: Message) {
    r.Then? && r.message == m && !r.external
  }

  function EnterAll(ds: Deeds, ms: seq<Message>): Deeds {
    if ms == [] then ds else Done(EnterAll(ds, ms[..|ms| - 1]), Entered(ms[|ms| - 1]))
  }

  /** The first `k` calls are run one after the other, from tool run `n` on. */
  function RunAll(ds: Deeds, calls: seq<ToolCall>, k: nat, n: nat): Deeds
    requires k <= |calls|
  {
    if k == 0 then ds else Done(RunAll(ds, calls, k - 1, n), Ran(calls[k - 1], n + k - 1))
  }

  /** What is left when the first `k` calls are done. */
  function Rest(calls: seq<ToolCall>, k: nat): (left: seq<ToolCall>)
    requires k <= |calls|
    ensures |left| == |calls| - k
  {
    if k == 0 then calls else Rest(calls, k - 1)[1..]
  }

  lemma {:induction false} RestIs(calls: seq<ToolCall>, k: nat)
    requires k <= |calls|
    ensures Rest(calls, k) == calls[k..]
  {
    if k > 0 {
      RestIs(calls, k - 1);
      assert calls[k - 1..][1..] == calls[k..];
    }
  }

  lemma NextOf(calls: seq<ToolCall>, k: nat)
    requires k < |calls|
    ensures Rest(calls, k)[0] == calls[k]
  {
    RestIs(calls, k);
  }

  /** The first `k` calls are cancelled. */
  function CancelAll(ds: Deeds, calls: seq<ToolCall>, k: nat): Deeds
    requires k <= |calls|
  {
    if k == 0 then ds else Done(CancelAll(ds, calls, k - 1), Cancelled(calls[k - 1]))
  }

  lemma {:induction false} EnterTells(model: nat -> Answer, outputs: nat -> string, ds: Deeds, tale: Record, ms: seq<Message>, answers: nat, runs: nat)
    requires Accounts(model, outputs, ds, tale, answers, runs) && forall k :: 0 <= k < |ms| ==> ms[k].role.User?
    ensures Accounts(model, outputs, EnterAll(ds, ms), Append(tale, ms), answers, runs)
  {
    if ms != [] {
      EnterTells(model, outputs, ds, tale, ms[..|ms| - 1], answers, runs);
    }
  }

  /** What the model said in its first `n` answers. */
  function SaidBy(model: nat -> Answer, n: nat): seq<Message> {
    if n == 0 then []
    else if model(n - 1).Reply? then SaidBy(model, n - 1) + [AssistantMessage(model(n - 1).content, model(n - 1).toolCalls)]
    else SaidBy(model, n - 1)
  }

  /** The assistant's messages are what the model said, all of it, in order. */
  lemma {:induction false} AccountSays(model: nat -> Answer, outputs: nat -> string, ds: Deeds, tale: Record, answers: nat, runs: nat)
    requires Accounts(model, outputs, ds, tale, answers, runs)
    ensures SaidIn(tale) == SaidBy(model, answers)
  {
    if ds.Done? {
      match ds.deed {
        case Replied(n) => AccountSays(model, outputs, ds.before, tale.before, n, runs);
        case Refused(n) => AccountSays(model, outputs, ds.before, tale, n, runs);
        case Ran(_, n) => AccountSays(model, outputs, ds.before, tale.before, answers, n);
        case _ => AccountSays(model, outputs, ds.before, tale.before, answers, runs);
      }
    }
  }

  // ---------- what happens in a turn ----------

  /** Every batch before this point has its results, except those abandoned earlier. */
  predicate NothingPending(r: Record) {
    ReadOwn(r).Reading? && ReadOwn(r).pending == []
  }

  /** What happened since the turn began, oldest event first. */
  datatype Trace = Quiet | After(before: Trace, event: Event)

  predicate IsStart(e: Event) {
    !e.InterruptSet?
  }

  /** An interrupt has arrived. */
  predicate Armed(t: Trace) {
    t.After? && (t.event.InterruptSet? || Armed(t.before))
  }

  /** Calls, oldest first. */
  datatype Calls = NoCalls | Called(before: Calls, call: ToolCall)

  function CallAll(cs: Calls, calls: seq<ToolCall>, k: nat): Calls
    requires k <= |calls|
  {
    if k == 0 then cs else Called(CallAll(cs, calls, k - 1), calls[k - 1])
  }

  /** What counts in a turn: the requests made, the requests and tool runs begun after an
      interrupt had arrived, whether each request carried a transcript with no batch waiting for
      results, the tools begun, and the transcript sent last. */
  datatype Tally = Tally(requests: nat, late: nat, complete: bool, runs: Calls, sent: Record) {
    /** Starting a request or a tool, late or not. */
    function Start(e: Event, lateness: nat): Tally {
      match e
      case LlmRequest(r) => Tally(requests + 1, late + lateness, complete && NothingPending(r), runs, r)
      case ToolRun(c) => Tally(requests, late + lateness, complete, Called(runs, c), sent)
      case InterruptSet => this
    }

    predicate Fine(n: nat) {
      requests == n && late == 0 && complete
    }
  }

  function Count(t: Trace): Tally {
    match t
    case Quiet => Tally(0, 0, true, NoCalls, Blank)
    case After(b, e) => Count(b).Start(e, if Armed(b) then 1 else 0)
  }

  function Events(t: Trace): seq<Event> {
    match t
    case Quiet => []
    case After(b, e) => Events(b) + [e]
  }

  ghost predicate SentComplete(es: seq<Event>) {
    forall k :: 0 <= k < |es| && es[k].LlmRequest? ==> NothingPending(es[k].transcript)
  }

  /** Event `i` starts something although an interrupt came before it. */
  ghost predicate StartsLate(es: seq<Event>, i: nat) {
    i < |es| && IsStart(es[i]) && InterruptSet in es[..i]
  }

  ghost predicate NoneLate(es: seq<Event>) {
    forall i: nat :: !StartsLate(es, i)
  }

  ghost predicate AtMostOneLate(es: seq<Event>) {
    forall i: nat, j: nat :: StartsLate(es, i) && StartsLate(es, j) ==> i == j
  }

  lemma SentMore(es: seq<Event>, e: Event)
    ensures SentComplete(es + [e]) <==> SentComplete(es) && (e.LlmRequest? ==> NothingPending(e.transcript))
  {
    var fs := es + [e];
    assert fs[|es|] == e && forall k :: 0 <= k < |es| ==> fs[k] == es[k];
  }

  lemma LateMore(es: seq<Event>, e: Event)
    ensures NoneLate(es + [e]) <==> NoneLate(es) && !(IsStart(e) && InterruptSet in es)
    ensures AtMostOneLate(es + [e]) <==> AtMostOneLate(es) && (IsStart(e) && InterruptSet in es ==> NoneLate(es))
  {
    var fs, n := es + [e], |es|;
    forall i: nat | i < n ensures StartsLate(fs, i) <==> StartsLate(es, i) {
      assert fs[i] == es[i] && fs[..i] == es[..i];
    }
    assert fs[n] == e && fs[..n] == es;
    assert StartsLate(fs, n) <==> IsStart(e) && InterruptSet in es;
    assert forall i: nat :: StartsLate(es, i) ==> i < n && StartsLate(fs, i);
    assert forall i: nat :: StartsLate(fs, i) && i != n ==> StartsLate(es, i);
  }

  /** What the counts say of the events one by one: whether every request carried a transcript
      without open calls, and whether no start, or only one, followed an interrupt. */
  lemma {:induction false} CountMeans(t: Trace)
    ensures Count(t).complete <==> SentComplete(Events(t))
    ensures Count(t).late == 0 <==> NoneLate(Events(t))
    ensures Count(t).late <= 1 <==> AtMostOneLate(Events(t))
  {
    if t.After? {
      CountMeans(t.before);
      ArmedMeans(t.before);
      LateMore(Events(t.before), t.event);
      SentMore(Events(t.before), t.event);
    }
  }

  lemma {:induction false} ArmedMeans(t: Trace)
    ensures Armed(t) <==> InterruptSet in Events(t)
  {
    if t.After? {
      ArmedMeans(t.before);
    }
  }

  /** What every turn respects, whatever the model, the tools and the others do. */
  predicate Disciplined(t: Trace) {
    Count(t).requests <= MAX_TOOL_CALL_DEPTH + 1 && Count(t).late <= 1 && Count(t).complete
  }

  /** The latest deed is the latest answer, a reply. */
  predicate JustAnswered(ds: Deeds, answers: nat) {
    answers > 0 && ds.Done? && ds.deed == Replied(answers - 1)
  }

  /** What the loop did last in a turn that ended this way. */
  predicate EndsAs(outcome: Outcome, model: nat -> Answer, ds: Deeds, answers: nat) {
    && answers > 0 && ds.Done?
    && match outcome
       case Answered => ds.deed == Replied(answers - 1) && ReplyMessage(model(answers - 1)).toolCalls == []
       case TooDeep => ds.deed == Replied(answers - 1)
       case LlmFailed => ds.deed == Refused(answers - 1)
       case Interrupted => !ds.deed.Refused? && !ds.deed.Entered?
  }

  /** A request was made: it carried all of `record`, of the loop's own no more and no less, and
      perhaps messages that others added to it. */
  ghost predicate Asked(record: Record, tale: Record, c: Tally, d: Tally, excused: bool) {
    && (d == c.Start(LlmRequest(d.sent), 0) || (d == c.Start(LlmRequest(d.sent), 1) && excused))
    && Grown(record, d.sent) && Stripped(d.sent) == tale && NothingPending(d.sent)
  }

  /** Exactly the first `k` calls were started. */
  predicate RanFrom(c: Tally, d: Tally, calls: seq<ToolCall>, k: nat)
    requires k <= |calls|
  {
    d == Tally(c.requests, d.late, c.complete, CallAll(c.runs, calls, k), c.sent)
  }

  /** Every user message that was queued in the first `n` moments has entered the transcript. */
  ghost predicate Caught(tale: Record, others: nat -> seq<Foreign>, n: nat) {
    QueuedIn(PastOf(others, n)) <= Users(tale)
  }

  lemma {:induction false} ExtendQueued(p: Past, fs: seq<Foreign>)
    ensures QueuedIn(p) <= QueuedIn(Extend(p, fs))
  {
    if fs != [] {
      ExtendQueued(p, fs[..|fs| - 1]);
    }
  }

  lemma {:induction false} QueuedGrows(others: nat -> seq<Foreign>, n: nat, m: nat)
    requires n <= m
    ensures QueuedIn(PastOf(others, n)) <= QueuedIn(PastOf(others, m))
  {
    if n < m {
      QueuedGrows(others, n, m - 1);
      ExtendQueued(PastOf(others, m - 1), others(m - 1));
    }
  }

  lemma CaughtNow(tale: Record, others: nat -> seq<Foreign>, n: nat, m: nat)
    requires n <= m && Users(tale) == QueuedIn(PastOf(others, m))
    ensures Caught(tale, others, n)
  {
    QueuedGrows(others, n, m);
  }

  lemma CaughtUp(tale: Record, others: nat -> seq<Foreign>, n: nat, m: nat)
    requires n <= m && Caught(tale, others, m)
    ensures Caught(tale, others, n)
  {
    QueuedGrows(others, n, m);
  }

  lemma {:induction false} QueuedIsUser(p: Past, k: nat)
    requires k < |QueuedIn(p)|
    ensures QueuedIn(p)[k].role.User?
  {
    if !p.action.Queue? || k < |QueuedIn(p.before)| {
      QueuedIsUser(p.before, k);
    }
  }

  lemma QueuedAreUsers(p: Past, entered: seq<Message>, waiting: seq<Message>)
    requires QueuedIn(p) == entered + waiting
    ensures forall k :: 0 <= k < |waiting| ==> waiting[k].role.User?
  {
    forall k | 0 <= k < |waiting| ensures waiting[k].role.User? {
      assert waiting[k] == QueuedIn(p)[|entered| + k];
      QueuedIsUser(p, |entered| + k);
    }
  }

  /** What the queue does to the transcript when it enters. */
  lemma Entering(initial: seq<Message>, base: Record, record: Record, tale: Record, past: Past, queue: seq<Message>)
    requires Stripped(record) == tale && Users(tale) + queue == QueuedIn(past) && queue != [] && ReadOwn(tale).AtRest()
    ensures forall k :: 0 <= k < |queue| ==> queue[k].role.User?
    ensures initial + Messages(Append(record, queue)) == initial + Messages(record) + queue
    ensures Stripped(Append(record, queue)) == Append(tale, queue) && Outside(Append(record, queue)) == Outside(record)
    ensures Versions(record) <= Versions(Append(record, queue))
    ensures Users(Append(tale, queue)) == Users(Append(tale, queue)) + [] == QueuedIn(past)
    ensures ReadOwn(Append(tale, queue)) == Reading([], false, ReadOwn(tale).Unanswered())
    ensures Shelved(base, Append(tale, queue)) == Shelved(base, tale)
  {
    QueuedAreUsers(past, Users(tale), queue);
    AppendText(record, queue);
    AppendUsers(tale, queue);
    AppendMarks(record, queue);
    AppendVersions(record, queue);
    ShelvedUsers(base, tale, queue);
  }

  predicate Inside(b: bool) {
    true
  }

  class Loop {
    const model: nat -> Answer
    const outputs: nat -> string
    const others: nat -> seq<Foreign>
    const recording: bool
    const initial: seq<Message>
    const base: Record                // what was stored before

    var history: seq<Message>
    var messageQueue: seq<Message>
    var activeTurn: bool
    var interruptRequested: bool
    var sequenceID: nat

    // What the session has stored, marked where the loop did not store it.
    var log: Record

    // How many answers, outputs and free moments have been used up.
    var answersUsed: nat
    var outputsUsed: nat
    var unlocks: nat

    ghost var record: Record          // where the messages after the initial ones came from
    ghost var trace: Trace            // what happened in this turn
    ghost var past: Past              // what others did
    ghost var deeds: Deeds            // what the loop did
    ghost var tale: Record            // the loop's own messages in the transcript
    ghost var shelf: Record           // and in the log

    ghost predicate Core()
      reads this`history, this`record, this`tale, this`log, this`shelf, this`messageQueue, this`interruptRequested, this`trace
    {
      && history == initial + Messages(record) && Stripped(record) == tale && Stripped(log) == shelf
      && (interruptRequested <==> Armed(trace))
    }

    /** Everything from outside is what others have done, in the order they did it. */
    ghost predicate Tracked()
      reads this`record, this`tale, this`log, this`messageQueue, this`past
    {
      && Users(tale) + messageQueue == QueuedIn(past) && Outside(record) == InjectedIn(past)
      && Outside(log) == StoredIn(Outside(base), past) && Grown(base, log)
    }

    ghost predicate Sound()
      reads this`history, this`record, this`tale, this`log, this`shelf, this`messageQueue, this`interruptRequested, this`trace, this`past, this`unlocks
    {
      Core() && Tracked() && past == PastOf(others, unlocks)
    }

    /** `Sound`, behind a guard that keeps it closed in proofs that only hand it on. */
    ghost predicate Valid()
      reads this`history, this`record, this`tale, this`log, this`shelf, this`messageQueue, this`interruptRequested, this`trace, this`past, this`unlocks
    {
      forall b {:trigger Inside(b)} :: Inside(b) ==> Sound()
    }

    lemma LookInside()
      requires Valid()
      ensures Sound()
    {
      assert Inside(true);
    }

    /** The loop has stored exactly its own messages, and the log expects the results that the
        transcript expects. */
    ghost predicate InStep()
      reads this`tale, this`shelf
    {
      && FollowOwn(shelf).Waiting? && shelf == (if recording then Shelved(Stripped(base), tale) else Stripped(base))
      && (recording && Reading().Reading? && Reading().pending != [] ==> FollowOwn(shelf) == Waiting(Reading().pending))
    }

    ghost predicate Ready()
      reads this`history, this`record, this`tale, this`log, this`shelf, this`messageQueue, this`interruptRequested, this`trace, this`past, this`unlocks
    {
      Valid() && InStep()
    }

    /** The loop's own messages, and what it used up, are accounted for by its deeds. Closed in
        the same way. */
    ghost predicate Owned()
      reads this`tale, this`shelf, this`deeds, this`answersUsed, this`outputsUsed
    {
      forall b {:trigger Inside(b)} :: Inside(b) ==> InStep() && Accounts(model, outputs, deeds, tale, answersUsed, outputsUsed)
    }

    ghost predicate Steady()
      reads this
    {
      Valid() && Owned()
    }

    lemma CloseUp()
      requires Sound()
      ensures Valid()
    {
    }

    lemma AccountFor()
      requires InStep() && Accounts(model, outputs, deeds, tale, answersUsed, outputsUsed)
      ensures Owned()
    {
    }

    lemma LookCloser()
      requires Owned()
      ensures InStep() && Accounts(model, outputs, deeds, tale, answersUsed, outputsUsed)
    {
      assert Inside(true);
    }

    ghost function Reading(): Reading
      reads this`tale
    {
      ReadOwn(tale)
    }

    /** `stored` is what earlier loops of the session and others have stored. */
    constructor (model: nat -> Answer, outputs: nat -> string, others: nat -> seq<Foreign>,
                 recording: bool, initial: seq<Message>, stored: Record)
      requires FollowOwn(stored).Waiting?
      ensures Steady() && !activeTurn && !interruptRequested && messageQueue == [] && trace == Quiet && deeds == NoDeeds
      ensures this.model == model && this.outputs == outputs && this.others == others && this.recording == recording
      ensures history == this.initial == initial && record == tale == Blank && log == base == stored && unlocks == 0
    {
      this.model, this.outputs, this.others := model, outputs, others;
      this.recording, this.initial, base := recording, initial, stored;
      history, messageQueue, activeTurn, interruptRequested, sequenceID := initial, [], false, false, 0;
      answersUsed, outputsUsed, unlocks := 0, 0, 0;
      record, log, trace, past, deeds := Blank, stored, Quiet, Nothing, NoDeeds;
      tale, shelf := Blank, Stripped(stored);
      StrippedIs(stored);
    }

    method QueueUserMessage(message: Message)
      requires message.role.User?
      modifies this`messageQueue
      ensures messageQueue == old(messageQueue) + [message]
    {
      messageQueue := messageQueue + [message];
    }

    method RequestInterrupt()
      modifies this`interruptRequested, this`trace
      ensures interruptRequested && trace == After(old(trace), InterruptSet)
    {
      interruptRequested := true;
      trace := After(trace, InterruptSet);
    }

    method AppendExternalHistory(message: Message)
      modifies this`history, this`record
      ensures history == old(history) + [message] && record == Then(old(record), message, true)
    {
      history := history + [message];
      record := Then(record, message, true);
    }

    /** The session stores a message that the loop did not hand to it. */
    method StoreMessage(message: Message)
      modifies this`log
      ensures log == Then(old(log), message, true)
    {
      log := Then(log, message, true);
    }

    /** The transcript only grew, and the interrupt flag stayed up. */
    twostate predicate Later()
      reads this
    {
      && old(Versions(record)) <= Versions(record)
      && (old(interruptRequested) ==> interruptRequested)
    }

    /** One action of another goroutine. */
    method Act(f: Foreign)
      requires Core() && Tracked()
      modifies this`history, this`record, this`log, this`messageQueue, this`interruptRequested, this`trace, this`past
      ensures Core() && Tracked() && Later() && Count(trace) == old(Count(trace)) && past == Did(old(past), f)
      ensures record == old(record) || (record.Then? && record.before == old(record))
    {
      match f {
        case Queue(text) =>
          assert Users(tale) + (messageQueue + [UserMessage(text)]) == Users(tale) + messageQueue + [UserMessage(text)];
          QueueUserMessage(UserMessage(text));
        case Interrupt => RequestInterrupt();
        case External(m) => AppendExternalHistory(m);
        case Store(m) => StoreMessage(m);
      }
      past := Did(past, f);
    }

    method ActAll(todo: seq<Foreign>)
      requires Core() && Tracked()
      modifies this`history, this`record, this`log, this`messageQueue, this`interruptRequested, this`trace, this`past
      ensures Core() && Tracked() && Later() && Count(trace) == old(Count(trace)) && past == Extend(old(past), todo)
      ensures Grown(old(record), record)
    {
      for i := 0 to |todo|
        invariant Core() && Tracked() && Later() && Count(trace) == old(Count(trace)) && past == Extend(old(past), todo[..i])
        invariant Grown(old(record), record)
      {
        assert todo[..i + 1][..i] == todo[..i];
        Act(todo[i]);
      }
      assert todo[..|todo|] == todo;
    }

    /** The mutex is free: other goroutines queue, interrupt, inject and store as they like. */
    method Others()
      requires Valid()
      modifies this`history, this`record, this`log, this`messageQueue, this`interruptRequested, this`trace, this`past, this`unlocks
      ensures Valid() && Later() && Count(trace) == old(Count(trace)) && unlocks == old(unlocks) + 1
      ensures Grown(old(record), record)
    {
      LookInside();
      ActAll(others(unlocks));
      unlocks := unlocks + 1;
    }

    /** A request or a tool run begins, and takes its time. */
    method Launch(ghost e: Event)
      requires Valid() && IsStart(e)
      modifies this`history, this`record, this`log, this`messageQueue, this`interruptRequested, this`trace, this`past, this`unlocks
      ensures Valid() && Later() && unlocks == old(unlocks) + 2
      ensures Count(trace) == old(Count(trace)).Start(e, 0) || (Count(trace) == old(Count(trace)).Start(e, 1) && interruptRequested)
    {
      Others();
      LookInside();
      trace := After(trace, e);
      Others();
    }

    method AppendToHistory(m: Message, ghost d: Deed) returns (seqID: nat)
      requires Valid() && !m.role.User?
      modifies this`history, this`record, this`log, this`messageQueue, this`interruptRequested, this`trace, this`past, this`unlocks, this`sequenceID, this`deeds, this`tale
      ensures Valid() && Later() && unlocks == old(unlocks) + 1 && Count(trace) == old(Count(trace))
      ensures deeds == Done(old(deeds), d) && tale == Then(old(tale), m, false)
      ensures seqID == sequenceID == old(sequenceID) + 1
    {
      Others();
      LookInside();
      history := history + [m];
      record, tale := Then(record, m, false), Then(tale, m, false);
      deeds := Done(deeds, d);
      sequenceID := sequenceID + 1;
      seqID := sequenceID;
      CloseUp();
    }

    method HasInterruptRequested() returns (b: bool)
      requires Valid()
      modifies this`history, this`record, this`log, this`messageQueue, this`interruptRequested, this`trace, this`past, this`unlocks
      ensures Valid() && Later() && unlocks == old(unlocks) + 1 && Count(trace) == old(Count(trace))
      ensures b == interruptRequested
    {
      Others();
      b := interruptRequested;
    }

    /** Adds a message to the transcript and then hands it to the session, which stores it. */
    method RecordOwn(m: Message, ghost d: Deed)
      requires Ready() && !m.role.User? && Read(Reading(), m).Reading?
      modifies this`history, this`record, this`log, this`messageQueue, this`interruptRequested, this`trace, this`past, this`unlocks, this`sequenceID, this`deeds, this`tale, this`shelf
      ensures Ready() && Later() && unlocks == old(unlocks) + 2 && Count(trace) == old(Count(trace))
      ensures deeds == Done(old(deeds), d) && tale == Then(old(tale), m, false)
      ensures sequenceID == old(sequenceID) + 1
    {
      var _ := AppendToHistory(m, d);
      Others();
      if recording {
        StoreOwn(m);
      }
    }

    /** The session stores a message that the loop handed to it. */
    method StoreOwn(m: Message)
      requires Valid()
      modifies this`log, this`shelf
      ensures Valid() && log == Then(old(log), m, false) && shelf == Then(old(shelf), m, false)
    {
      LookInside();
      log, shelf := Then(log, m, false), Then(shelf, m, false);
      CloseUp();
    }

    /** The transcript as it is when the lock is taken goes to the model. */
    method Request()
      requires Valid() && Reading().Reading? && Reading().pending == []
      modifies this`history, this`record, this`log, this`messageQueue, this`interruptRequested, this`trace, this`past, this`unlocks
      ensures Valid() && Later() && unlocks == old(unlocks) + 3
      ensures Asked(old(record), tale, old(Count(trace)), Count(trace), interruptRequested)
    {
      Others();
      LookInside();
      StrippedIs(record);
      Launch(LlmRequest(record));
    }

    /** Records what the model answered; of a failure only a number is used up. */
    method RecordAnswer(answer: Answer)
      requires Steady() && Reading().Reading? && Reading().pending == [] && answer == model(answersUsed)
      modifies this`history, this`record, this`log, this`messageQueue, this`interruptRequested, this`trace, this`past, this`unlocks, this`sequenceID, this`deeds, this`tale, this`shelf, this`answersUsed
      ensures Steady() && Later() && unlocks >= old(unlocks) && answersUsed == old(answersUsed) + 1
      ensures deeds == Done(old(deeds), if answer.Failed? then Refused(old(answersUsed)) else Replied(old(answersUsed)))
      ensures tale == if answer.Failed? then old(tale) else Then(old(tale), AssistantMessage(answer.content, answer.toolCalls), false)
      ensures sequenceID == old(sequenceID) + if answer.Failed? && !recording then 0 else 1
      ensures Count(trace) == old(Count(trace))
    {
      LookCloser();
      if answer.Failed? {
        sequenceID := if recording then sequenceID + 1 else sequenceID;
        deeds := Done(deeds, Refused(answersUsed));
      } else {
        RecordOwn(AssistantMessage(answer.content, answer.toolCalls), Replied(answersUsed));
      }
      answersUsed := answersUsed + 1;
      AccountFor();
    }

    /** Sends the transcript to the model and records the answer. */
    method SendRequest() returns (answer: Answer)
      requires Steady() && Reading().Reading? && Reading().pending == []
      modifies this`history, this`record, this`log, this`messageQueue, this`interruptRequested, this`trace, this`past, this`unlocks, this`sequenceID, this`deeds, this`tale, this`shelf, this`answersUsed
      ensures Steady() && Later() && unlocks > old(unlocks) && answer == model(old(answersUsed)) && answersUsed == old(answersUsed) + 1
      ensures deeds == Done(old(deeds), if answer.Failed? then Refused(old(answersUsed)) else Replied(old(answersUsed)))
      ensures tale == if answer.Failed? then old(tale) else Then(old(tale), AssistantMessage(answer.content, answer.toolCalls), false)
      ensures sequenceID == old(sequenceID) + if answer.Failed? && !recording then 0 else 1
      ensures Asked(old(record), old(tale), old(Count(trace)), Count(trace), interruptRequested)
    {
      Request();
      answer := model(answersUsed);
      RecordAnswer(answer);
    }

    method RecordToolResult(tc: ToolCall, content: string, ghost d: Deed)
      requires Ready() && Reading().Reading? && Reading().pending != [] && Reading().pending[0] == tc
      modifies this`history, this`record, this`log, this`messageQueue, this`interruptRequested, this`trace, this`past, this`unlocks, this`sequenceID, this`deeds, this`tale, this`shelf
      ensures Ready() && Later() && unlocks > old(unlocks) && Count(trace) == old(Count(trace))
      ensures deeds == Done(old(deeds), d) && tale == Then(old(tale), ToolResult(tc, content), false)
      ensures Reading() == Transcript.Reading(old(Reading().pending)[1..], true, old(Reading().abandoned))
      ensures sequenceID == old(sequenceID) + 1
    {
      RecordOwn(ToolResult(tc, content), d);
    }

    /** The turn went on: no user message entered, and every own message took a number. */
    twostate predicate Continues(unstored: nat)
      reads this
    {
      && Later() && unlocks >= old(unlocks) && activeTurn == old(activeTurn)
      && Users(tale) == old(Users(tale))
      && sequenceID == old(sequenceID) + OwnCount(tale) - old(OwnCount(tale)) + unstored
    }

    method CancelCall(tc: ToolCall)
      requires Steady() && Reading().Reading? && Reading().pending != [] && Reading().pending[0] == tc
      modifies this`history, this`record, this`log, this`messageQueue, this`interruptRequested, this`trace, this`past, this`unlocks, this`sequenceID, this`deeds, this`tale, this`shelf
      ensures Steady() && Continues(0) && Count(trace) == old(Count(trace))
      ensures deeds == Done(old(deeds), Cancelled(tc)) && tale == Then(old(tale), ToolResult(tc, CANCELLED), false)
      ensures Reading() == Transcript.Reading(old(Reading().pending)[1..], true, old(Reading().abandoned))
    {
      LookCloser();
      RecordToolResult(tc, CANCELLED, Cancelled(tc));
      AccountFor();
    }

    method RecordCancelledToolResults(toolCalls: seq<ToolCall>)
      requires Steady() && Reading().Reading? && Reading().pending == toolCalls
      modifies this`history, this`record, this`log, this`messageQueue, this`interruptRequested, this`trace, this`past, this`unlocks, this`sequenceID, this`deeds, this`tale, this`shelf
      ensures Steady() && Continues(0) && Count(trace) == old(Count(trace))
      ensures deeds == CancelAll(old(deeds), toolCalls, |toolCalls|) && answersUsed == old(answersUsed) && outputsUsed == old(outputsUsed)
      ensures Reading().Reading? && Reading().pending == [] && Reading().abandoned == old(Reading().abandoned)
    {
      for i := 0 to |toolCalls|
        invariant Steady() && Continues(0) && Count(trace) == old(Count(trace))
        invariant deeds == CancelAll(old(deeds), toolCalls, i) && answersUsed == old(answersUsed) && outputsUsed == old(outputsUsed)
        invariant Reading().Reading? && Reading().pending == Rest(toolCalls, i) && Reading().abandoned == old(Reading().abandoned)
      {
        NextOf(toolCalls, i);
        CancelCall(toolCalls[i]);
      }
    }

    /** Runs one tool and records its result. */
    method PerformCall(tc: ToolCall)
      requires Steady() && Reading().Reading? && Reading().pending != [] && Reading().pending[0] == tc
      requires deeds.Done? && (deeds.deed.Replied? || deeds.deed.Ran?)
      modifies this`history, this`record, this`log, this`messageQueue, this`interruptRequested, this`trace, this`past, this`unlocks, this`sequenceID, this`deeds, this`tale, this`shelf, this`outputsUsed
      ensures Steady() && Later() && unlocks > old(unlocks)
      ensures tale == Then(old(tale), ToolResult(tc, outputs(old(outputsUsed))), false) && deeds == Done(old(deeds), Ran(tc, old(outputsUsed)))
      ensures outputsUsed == old(outputsUsed) + 1 && sequenceID == old(sequenceID) + 1
      ensures Count(trace) == old(Count(trace)).Start(ToolRun(tc), 0)
              || (Count(trace) == old(Count(trace)).Start(ToolRun(tc), 1) && interruptRequested)
    {
      Launch(ToolRun(tc));
      LookCloser();
      var output := outputs(outputsUsed);
      RecordToolResult(tc, output, Ran(tc, outputsUsed));
      outputsUsed := outputsUsed + 1;
      AccountFor();
    }

    /** Runs one tool, records its result and looks whether an interrupt is pending. */
    method RunTool(tc: ToolCall) returns (stop: bool)
      requires Steady() && Reading().Reading? && Reading().pending != [] && Reading().pending[0] == tc
      requires deeds.Done? && (deeds.deed.Replied? || deeds.deed.Ran?)
      modifies this`history, this`record, this`log, this`messageQueue, this`interruptRequested, this`trace, this`past, this`unlocks, this`sequenceID, this`deeds, this`tale, this`shelf, this`outputsUsed
      ensures Steady() && Continues(0)
      ensures tale == Then(old(tale), ToolResult(tc, outputs(old(outputsUsed))), false) && deeds == Done(old(deeds), Ran(tc, old(outputsUsed)))
      ensures outputsUsed == old(outputsUsed) + 1
      ensures Reading() == Transcript.Reading(old(Reading().pending)[1..], true, old(Reading().abandoned))
      ensures Count(trace) == old(Count(trace)).Start(ToolRun(tc), 0)
              || (Count(trace) == old(Count(trace)).Start(ToolRun(tc), 1) && stop)
      ensures stop == interruptRequested
    {
      PerformCall(tc);
      stop := HasInterruptRequested();
    }

    /** Runs the calls one by one, stopping after the first one that ends with an interrupt pending. */
    method ExecuteToolCalls(toolCalls: seq<ToolCall>) returns (executed: nat)
      requires Steady() && Reading().Reading? && Reading().pending == toolCalls && toolCalls != []
      requires Count(trace).late == 0 && deeds.Done? && deeds.deed.Replied?
      modifies this`history, this`record, this`log, this`messageQueue, this`interruptRequested, this`trace, this`past, this`unlocks, this`sequenceID, this`deeds, this`tale, this`shelf, this`outputsUsed
      ensures Steady() && Continues(0) && 1 <= executed <= |toolCalls|
      ensures deeds == RunAll(old(deeds), toolCalls, executed, old(outputsUsed))
      ensures outputsUsed == old(outputsUsed) + executed && answersUsed == old(answersUsed)
      ensures Reading() == Transcript.Reading(Rest(toolCalls, executed), true, old(Reading().abandoned))
      ensures executed < |toolCalls| ==> interruptRequested
      ensures RanFrom(old(Count(trace)), Count(trace), toolCalls, executed)
      ensures Count(trace).late == 0 || (Count(trace).late == 1 && interruptRequested)
    {
      for i := 0 to |toolCalls|
        invariant Steady() && Continues(0)
        invariant deeds == RunAll(old(deeds), toolCalls, i, old(outputsUsed))
        invariant outputsUsed == old(outputsUsed) + i && answersUsed == old(answersUsed)
        invariant Reading() == Transcript.Reading(Rest(toolCalls, i), i > 0 || old(Reading().started), old(Reading().abandoned))
        invariant RanFrom(old(Count(trace)), Count(trace), toolCalls, i) && Count(trace).late == 0
      {
        NextOf(toolCalls, i);
        var stop := RunTool(toolCalls[i]);
        if stop {
          return i + 1;
        }
      }
      executed := |toolCalls|;
    }

    /** Where a turn may leave off: every batch has its results, unless the turn ran out of depth. */
    ghost predicate Settled(outcome: Outcome, abandoned: nat)
      reads this
    {
      && Reading().Reading?
      && (if outcome.TooDeep? then Reading().pending != [] && !Reading().started else Reading().pending == [])
      && Reading().abandoned == abandoned
      && Disciplined(trace) && Count(trace).requests >= 1
      && (outcome.TooDeep? ==> Count(trace).requests == MAX_TOOL_CALL_DEPTH + 1)
      && EndsAs(outcome, model, deeds, answersUsed)
      && (!outcome.LlmFailed? ==> (outcome.Interrupted? <==> interruptRequested))
    }

    /** Sends a request; if an interrupt is pending after it, cancels what the answer calls for. */
    method Ask() returns (answer: Answer, stop: bool)
      requires Steady() && Reading().Reading? && Reading().pending == [] && Count(trace).late == 0
      modifies this`history, this`record, this`log, this`messageQueue, this`interruptRequested, this`trace, this`past, this`unlocks, this`sequenceID, this`deeds, this`tale, this`shelf, this`answersUsed, this`outputsUsed
      ensures Steady() && Continues(if answer.Failed? && recording then 1 else 0)
      ensures Asked(old(record), old(tale), old(Count(trace)), Count(trace), stop || answer.Failed?)
      ensures Reading().Reading? && Reading().abandoned == old(Reading().abandoned)
      ensures if answer.Reply? && !stop then Reading().pending == answer.toolCalls && !Reading().started
              else Reading().pending == []
      ensures if answer.Reply? then stop <==> interruptRequested else !stop
      ensures answer == model(old(answersUsed)) && answersUsed == old(answersUsed) + 1 && outputsUsed == old(outputsUsed)
      ensures deeds == if answer.Failed? then Done(old(deeds), Refused(old(answersUsed)))
                       else CancelAll(Done(old(deeds), Replied(old(answersUsed))), answer.toolCalls, if stop then |answer.toolCalls| else 0)
    {
      stop := false;
      answer := SendRequest();
      if answer.Reply? {
        stop := HasInterruptRequested();
        if stop {
          RecordCancelledToolResults(answer.toolCalls);
        }
      }
    }

    /** Runs a batch; if an interrupt stops it, cancels the calls not yet run. */
    method AnswerBatch(toolCalls: seq<ToolCall>) returns (stop: bool, ghost executed: nat)
      requires Steady() && Reading().Reading? && Reading().pending == toolCalls && toolCalls != []
      requires Count(trace).late == 0 && deeds.Done? && deeds.deed.Replied?
      modifies this`history, this`record, this`log, this`messageQueue, this`interruptRequested, this`trace, this`past, this`unlocks, this`sequenceID, this`deeds, this`tale, this`shelf, this`answersUsed, this`outputsUsed
      ensures Steady() && Continues(0) && 1 <= executed <= |toolCalls|
      ensures (stop <==> interruptRequested) && (executed < |toolCalls| ==> stop)
      ensures deeds == CancelAll(RunAll(old(deeds), toolCalls, executed, old(outputsUsed)), toolCalls[executed..], |toolCalls| - executed)
      ensures outputsUsed == old(outputsUsed) + executed && answersUsed == old(answersUsed)
      ensures Reading().Reading? && Reading().pending == [] && Reading().abandoned == old(Reading().abandoned)
      ensures RanFrom(old(Count(trace)), Count(trace), toolCalls, executed)
      ensures Count(trace).late == 0 || (Count(trace).late == 1 && stop)
    {
      var n := ExecuteToolCalls(toolCalls);
      executed := n;
      if n < |toolCalls| {
        RestIs(toolCalls, n);
        RecordCancelledToolResults(toolCalls[n..]);
        return true, n;
      }
      stop := HasInterruptRequested();
    }

    /** Answers a batch, asks the model again, and so on to the maximal depth. */
    method HandleToolCalls(first: seq<ToolCall>) returns (outcome: Outcome)
      requires Steady() && Reading().Reading? && Reading().pending == first && first != [] && !Reading().started
      requires Count(trace).Fine(1) && !interruptRequested && JustAnswered(deeds, answersUsed)
      modifies this`history, this`record, this`log, this`messageQueue, this`interruptRequested, this`trace, this`past, this`unlocks, this`sequenceID, this`deeds, this`tale, this`shelf, this`answersUsed, this`outputsUsed
      ensures Steady() && Continues(if outcome.LlmFailed? && recording then 1 else 0)
      ensures Settled(outcome, old(Reading().abandoned))
    {
      var toolCalls := first;
      for depth := 0 to MAX_TOOL_CALL_DEPTH
        invariant Steady() && Continues(0)
        invariant toolCalls != [] && Reading() == Transcript.Reading(toolCalls, false, old(Reading().abandoned))
        invariant Count(trace).Fine(depth + 1) && !interruptRequested && JustAnswered(deeds, answersUsed)
      {
        var stop, _ := AnswerBatch(toolCalls);
        if stop {
          return Interrupted;
        }
        var answer;
        answer, stop := Ask();
        if answer.Failed? {
          return LlmFailed;
        }
        if stop {
          return Interrupted;
        }
        if answer.toolCalls == [] {
          return Answered;
        }
        toolCalls := answer.toolCalls;
      }
      return TooDeep;
    }

    /** One turn of the conversation. */
    method ProcessLLMRequest() returns (outcome: Outcome)
      requires Steady() && Reading().Reading? && Reading().pending == []
      requires Count(trace).Fine(0)
      modifies this`history, this`record, this`log, this`messageQueue, this`interruptRequested, this`trace, this`past, this`unlocks, this`sequenceID, this`deeds, this`tale, this`shelf, this`answersUsed, this`outputsUsed
      ensures Steady() && Continues(if outcome.LlmFailed? && recording then 1 else 0)
      ensures Settled(outcome, old(Reading().abandoned))
    {
      var answer, stop := Ask();
      if answer.Failed? {
        return LlmFailed;
      }
      if stop {
        return Interrupted;
      }
      if answer.toolCalls != [] {
        outcome := HandleToolCalls(answer.toolCalls);
        return;
      }
      return Answered;
    }

    /** Moves the queue into the transcript. */
    method TakeQueue()
      requires Steady() && Reading().AtRest() && messageQueue != []
      modifies this`history, this`record, this`messageQueue, this`deeds, this`tale
      ensures Steady() && messageQueue == [] && deeds == EnterAll(old(deeds), old(messageQueue))
      ensures history == old(history) + old(messageQueue) && old(Versions(record)) <= Versions(record)
      ensures Users(tale) == QueuedIn(past) && Reading() == Transcript.Reading([], false, old(Reading().Unanswered()))
    {
      LookCloser();
      LookInside();
      Entering(initial, Stripped(base), record, tale, past, messageQueue);
      EnterTells(model, outputs, deeds, tale, messageQueue, answersUsed, outputsUsed);
      deeds := EnterAll(deeds, messageQueue);
      record, tale := Append(record, messageQueue), Append(tale, messageQueue);
      history, messageQueue := history + messageQueue, [];
      CloseUp();
      AccountFor();
    }

    /** Begins a turn with what is queued and forgets any older interrupt request. */
    method EnterQueue()
      requires Steady() && Reading().AtRest() && messageQueue != []
      modifies this`history, this`record, this`messageQueue, this`activeTurn, this`interruptRequested, this`trace, this`deeds, this`tale
      ensures Steady() && activeTurn && !interruptRequested && messageQueue == [] && trace == Quiet
      ensures deeds == EnterAll(old(deeds), old(messageQueue))
      ensures history == old(history) + old(messageQueue) && old(Versions(record)) <= Versions(record)
      ensures Users(tale) == QueuedIn(past) && Reading() == Transcript.Reading([], false, old(Reading().Unanswered()))
    {
      TakeQueue();
      LookInside();
      activeTurn, interruptRequested, trace := true, false, Quiet;
      CloseUp();
    }

    /** Starts a turn with everything queued so far, unless one is active or the queue is empty. */
    method ActivateQueuedTurn() returns (active: bool)
      requires Steady() && Reading().AtRest() && !activeTurn
      modifies this
      ensures Steady() && sequenceID == old(sequenceID) && old(Versions(record)) <= Versions(record)
      ensures active == activeTurn && messageQueue == [] && Users(tale) == QueuedIn(past) && unlocks > old(unlocks)
      ensures if active then
                && !interruptRequested && trace == Quiet
                && Reading() == Transcript.Reading([], false, old(Reading().Unanswered()))
              else
                tale == old(tale) && deeds == old(deeds)
    {
      Others();
      if !activeTurn && messageQueue != [] {
        EnterQueue();
      }
      active := activeTurn;
      LookInside();
      assert messageQueue == [] && Users(tale) + messageQueue == Users(tale);
    }

    method FinishActiveTurn()
      requires Steady()
      modifies this`history, this`record, this`log, this`messageQueue, this`interruptRequested, this`trace, this`past, this`unlocks, this`activeTurn
      ensures Steady() && !activeTurn && Later() && unlocks > old(unlocks)
      ensures Count(trace) == old(Count(trace))
    {
      Others();
      activeTurn := false;
    }

    /** One round of the main loop: a turn, if there is anything to do. */
    method Round() returns (outcomes: seq<Outcome>, ghost turns: seq<Trace>)
      requires Steady() && !activeTurn && Reading().AtRest()
      modifies this
      ensures Steady() && !activeTurn && old(Versions(record)) <= Versions(record)
      ensures Reading().AtRest() && unlocks > old(unlocks) && Caught(tale, others, old(unlocks))
      ensures |turns| == |outcomes| <= 1
      ensures outcomes == [] ==> tale == old(tale) && deeds == old(deeds)
      ensures outcomes != [] ==>
                && Reading().Unanswered() == old(Reading().Unanswered()) + (if outcomes[0].TooDeep? then 1 else 0)
                && Disciplined(turns[0]) && Count(turns[0]).requests >= 1 && EndsAs(outcomes[0], model, deeds, answersUsed)
    {
      outcomes, turns := [], [];
      var active := ActivateQueuedTurn();
      LookInside();
      assert Caught(tale, others, old(unlocks)) by {
        CaughtNow(tale, others, old(unlocks), unlocks);
      }
      if active {
        var outcome := ProcessLLMRequest();
        outcomes, turns := [outcome], [trace];
        FinishActiveTurn();
      }
    }

    /** `rounds` rounds of the main loop. Whatever the model, the tools and the other
        goroutines do, no tool call is left without its result except by a turn that ran
        out of depth, and each such turn leaves exactly one batch. */
    method Go(rounds: nat) returns (outcomes: seq<Outcome>, ghost turns: seq<Trace>)
      requires Steady() && !activeTurn && Reading().AtRest()
      modifies this
      ensures Steady() && !activeTurn && old(history) <= history
      ensures Reading().AtRest() && unlocks >= old(unlocks) + rounds
      ensures Reading().Unanswered() == old(Reading().Unanswered()) + DepthExits(outcomes)
      ensures WellFormed(Own(record)) <==> old(WellFormed(Own(record))) && DepthExits(outcomes) == 0
      ensures NeverInjects(others) ==>
                (WellFormed(history) <==> WellFormed(initial) && old(WellFormed(Own(record))) && DepthExits(outcomes) == 0)
      ensures InjectsOnlyPlain(others) ==>
                (WellFormed(history) <==> WellFormed(initial) && old(WellFormed(Own(record))) && DepthExits(outcomes) == 0
                                          && LandedBetweenBatches(record))
      ensures |turns| == |outcomes| && forall k :: 0 <= k < |turns| ==> Disciplined(turns[k]) && Count(turns[k]).requests >= 1
      ensures Users(record) + messageQueue == QueuedIn(PastOf(others, unlocks))
      ensures rounds > 0 ==> QueuedIn(PastOf(others, old(unlocks))) <= Users(record)
      ensures Accounts(model, outputs, deeds, Stripped(record), answersUsed, outputsUsed)
      ensures SaidIn(record) == SaidBy(model, answersUsed)
    {
      LookCloser();
      LookInside();
      UnansweredIs(record);
      StrippedIs(record);
      outcomes, turns := Rounds(rounds);
      LookCloser();
      LookInside();
      EveryTurnIs(turns);
      VersionIs(old(record), record);
      UnansweredIs(record);
      StrippedIs(record);
      AccountSays(model, outputs, deeds, tale, answersUsed, outputsUsed);
      FromOutside(others, unlocks, record);
      WholeHistory(initial, record);
    }

    method Rounds(rounds: nat) returns (outcomes: seq<Outcome>, ghost turns: seq<Trace>)
      requires Steady() && !activeTurn && Reading().AtRest()
      modifies this
      ensures Steady() && !activeTurn && old(Versions(record)) <= Versions(record)
      ensures Reading().AtRest() && unlocks >= old(unlocks) + rounds
      ensures Reading().Unanswered() == old(Reading().Unanswered()) + DepthExits(outcomes)
      ensures |turns| == |outcomes| && EveryTurn(turns)
      ensures rounds > 0 ==> Caught(tale, others, old(unlocks))
    {
      outcomes, turns := [], [];
      for i := 0 to rounds
        invariant Steady() && !activeTurn && old(Versions(record)) <= Versions(record)
        invariant Reading().AtRest() && unlocks >= old(unlocks) + i
        invariant Reading().Unanswered() == old(Reading().Unanswered()) + DepthExits(outcomes)
        invariant |turns| == |outcomes| && EveryTurn(turns)
        invariant i > 0 ==> Caught(tale, others, old(unlocks))
      {
        var more; ghost var ts;
        ghost var before := unlocks;
        more, ts := Round();
        CaughtUp(tale, others, old(unlocks), before);
        DepthExitsMore(outcomes, more);
        EveryTurnMore(turns, ts);
        outcomes, turns := outcomes + more, turns + ts;
      }
    }
  }

  /** Every turn makes a request and keeps its bounds. */
  ghost predicate EveryTurn(turns: seq<Trace>) {
    turns == [] ||
    var n := |turns| - 1;
    EveryTurn(turns[..n]) && Disciplined(turns[n]) && Count(turns[n]).requests >= 1
  }

  lemma EveryTurnMore(turns: seq<Trace>, more: seq<Trace>)
    requires EveryTurn(turns) && |more| <= 1 && (more != [] ==> Disciplined(more[0]) && Count(more[0]).requests >= 1)
    ensures EveryTurn(turns + more)
  {
    if more == [] {
      assert turns + more == turns;
    } else {
      assert (turns + more)[..|turns|] == turns;
    }
  }

  lemma {:induction false} EveryTurnIs(turns: seq<Trace>)
    requires EveryTurn(turns)
    ensures forall k :: 0 <= k < |turns| ==> Disciplined(turns[k]) && Count(turns[k]).requests >= 1
  {
    if turns != [] {
      EveryTurnIs(turns[..|turns| - 1]);
    }
  }

  /** At rest, the loop's own messages are well-formed exactly when no batch is unanswered. */
  lemma UnansweredIs(r: Record)
    ensures ReadOwn(r).AtRest() ==> (WellFormed(Own(r)) <==> ReadOwn(r).Unanswered() == 0)
  {
    ReadOwnIs(r);
  }

  lemma DepthExitsMore(outcomes: seq<Outcome>, more: seq<Outcome>)
    requires |more| <= 1
    ensures DepthExits(outcomes + more) == DepthExits(outcomes) + if more != [] && more[0].TooDeep? then 1 else 0
  {
    if more == [] {
      assert outcomes + more == outcomes;
    } else {
      assert (outcomes + more)[..|outcomes|] == outcomes;
    }
  }

  /** How many turns ended at the maximal depth. */
  function DepthExits(outcomes: seq<Outcome>): nat {
    if outcomes == [] then 0
    else DepthExits(outcomes[..|outcomes| - 1]) + if outcomes[|outcomes| - 1].TooDeep? then 1 else 0
  }

  // ---------- messages injected from outside ----------

  /** Each injected message arrived when no batch was waiting for results. */
  predicate LandedBetweenBatches(r: Record) {
    match r
    case Blank => true
    case Then(b, _, x) => LandedBetweenBatches(b) && (x ==> NothingPending(b))
  }

  /** With plain injected messages a transcript is well-formed exactly when the loop's own part
      is and each injected message landed between batches. */
  lemma ExternalLanding(r: Record)
    requires InjectsPlain(r)
    ensures WellFormed(Messages(r)) <==> WellFormed(Own(r)) && LandedBetweenBatches(r)
  {
    ReadOwnIs(r);
    ReadEveryIs(r);
    if LandedBetweenBatches(r) {
      LandedReading(r);
    } else {
      MislandedReading(r);
    }
  }

  lemma {:induction false} LandedReading(r: Record)
    requires InjectsPlain(r) && LandedBetweenBatches(r)
    ensures var p, q := ReadEvery(r), ReadOwn(r);
            && (p.Malformed? <==> q.Malformed?)
            && (p.Reading? ==> p.pending == q.pending && p.abandoned == q.abandoned && (p.pending != [] ==> p.started == q.started))
  {
    if r.Then? {
      LandedReading(r.before);
    }
  }

  lemma {:induction false} MislandedReading(r: Record)
    requires InjectsPlain(r) && !LandedBetweenBatches(r)
    ensures ReadEvery(r).Reading? ==> ReadEvery(r).abandoned > 0
  {
    if LandedBetweenBatches(r.before) {
      LandedReading(r.before);
    } else {
      MislandedReading(r.before);
    }
  }

  lemma {:induction false} PlainOutside(r: Record)
    ensures InjectsPlain(r) <==> AllPlain(Outside(r))
    ensures AllOwn(r) <==> Outside(r) == []
  {
    if r.Then? {
      PlainOutside(r.before);
      if r.external {
        AllPlainMore(Outside(r.before), r.message);
      }
    }
  }

  predicate AllPlain(ms: seq<Message>) {
    forall k :: 0 <= k < |ms| ==> IsPlain(ms[k])
  }

  lemma AllPlainMore(ms: seq<Message>, m: Message)
    ensures AllPlain(ms + [m]) <==> AllPlain(ms) && IsPlain(m)
  {
    assert (ms + [m])[|ms|] == m;
    assert forall k :: 0 <= k < |ms| ==> (ms + [m])[k] == ms[k];
  }

  lemma {:induction false} ExtendOutside(p: Past, fs: seq<Foreign>, base: seq<Message>)
    ensures NoneInjects(fs) ==> InjectedIn(Extend(p, fs)) == InjectedIn(p)
    ensures PlainInjects(fs) && AllPlain(InjectedIn(p)) ==> AllPlain(InjectedIn(Extend(p, fs)))
    ensures PlainStores(fs) && AllPlain(StoredIn(base, p)) ==> AllPlain(StoredIn(base, Extend(p, fs)))
  {
    if fs != [] {
      ExtendOutside(p, fs[..|fs| - 1], base);
    }
  }

  lemma {:induction false} PastOutside(others: nat -> seq<Foreign>, n: nat, base: seq<Message>)
    ensures NeverInjects(others) ==> InjectedIn(PastOf(others, n)) == []
    ensures InjectsOnlyPlain(others) ==> AllPlain(InjectedIn(PastOf(others, n)))
    ensures StoresOnlyPlain(others) && AllPlain(base) ==> AllPlain(StoredIn(base, PastOf(others, n)))
  {
    if n > 0 {
      PastOutside(others, n - 1, base);
      ExtendOutside(PastOf(others, n - 1), others(n - 1), base);
    }
  }

  /** What others never or only do shows in the transcript. */
  lemma FromOutside(others: nat -> seq<Foreign>, n: nat, r: Record)
    requires Outside(r) == InjectedIn(PastOf(others, n))
    ensures NeverInjects(others) ==> InjectsPlain(r) && LandedBetweenBatches(r) && Own(r) == Messages(r)
    ensures InjectsOnlyPlain(others) ==> InjectsPlain(r)
  {
    PastOutside(others, n, []);
    PlainOutside(r);
    AllOwnIsPlain(r);
  }

  /** And in the log. */
  lemma StoredFromOutside(others: nat -> seq<Foreign>, n: nat, base: Record, log: Record)
    requires Outside(log) == StoredIn(Outside(base), PastOf(others, n)) && StoresOnlyPlain(others) && InjectsPlain(base)
    ensures InjectsPlain(log)
  {
    PlainOutside(base);
    PastOutside(others, n, Outside(base));
    PlainOutside(log);
  }

  lemma {:induction false} AllOwnIsPlain(r: Record)
    ensures AllOwn(r) ==> InjectsPlain(r) && LandedBetweenBatches(r) && Own(r) == Messages(r)
  {
    if r.Then? {
      AllOwnIsPlain(r.before);
    }
  }

  lemma {:induction false} StartsWithoutResult(r: Record)
    requires InjectsPlain(r) && ReadOwn(r).Reading?
    ensures Messages(r) == [] || !Messages(r)[0].role.Tool?
    ensures Own(r) == [] ==> ReadOwn(r) == START
  {
    if r.Then? {
      StartsWithoutResult(r.before);
      if Messages(r.before) == [] {
        EmptyRecord(r.before);
      }
    }
  }

  lemma EmptyRecord(r: Record)
    requires Messages(r) == []
    ensures r == Blank
  {
  }

  /** The whole history of a loop is well-formed exactly when what it started from is, its own
      messages are, and every injected message landed between batches. */
  lemma WholeHistory(initial: seq<Message>, r: Record)
    ensures InjectsPlain(r) && ReadOwn(r).Reading? ==>
              (WellFormed(initial + Messages(r)) <==> WellFormed(initial) && WellFormed(Own(r)) && LandedBetweenBatches(r))
  {
    if InjectsPlain(r) && ReadOwn(r).Reading? {
      StartsWithoutResult(r);
      WellFormedConcat(initial, Messages(r));
      ExternalLanding(r);
    }
  }

  /** A notification injected while a batch waits for its result breaks the transcript. */
  lemma ExternalBreaksBatch()
    ensures var tc := ToolCall("c1", "bash");
            var r := Then(Then(Then(Blank, AssistantMessage("", [tc]), false), AssistantMessage("done", []), true), ToolResult(tc, "ok"), false);
            WellFormed(Own(r)) && !WellFormed(Messages(r))
  {
    var tc := ToolCall("c1", "bash");
    var r1 := Then(Blank, AssistantMessage("", [tc]), false);
    var r2 := Then(r1, AssistantMessage("done", []), true);
    var r3 := Then(r2, ToolResult(tc, "ok"), false);
    assert ReadOwn(Blank) == ReadEvery(Blank) == START;
    assert ReadOwn(r1) == ReadEvery(r1) == Reading([tc], false, 0);
    assert ReadEvery(r2) == Reading([], false, 1);
    assert ReadOwn(r2) == ReadOwn(r1) && [tc][1..] == [];
    assert ReadOwn(r3) == Read(ReadOwn(r2), ToolResult(tc, "ok")) == Reading([], true, 0);
    assert ReadEvery(r3) == Read(ReadEvery(r2), ToolResult(tc, "ok")) == Malformed;
    ReadOwnIs(r3);
    ReadEveryIs(r3);
  }
}
