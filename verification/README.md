# Dagu agent engine: a verified model

This project models the agent session engine of Dagu in Dafny and proves what it keeps over
every run: the turn loop that talks to a language model and runs tools, the session manager
around it (storing, publishing and subscribing, queued chat text, user prompts, costs), history
repair, the search for what a distributed run needs, the shell policy, and a few smaller pieces
(label globs, the provider cache, slug ids, token refresh, CSV output).

`dafny verify dfyconfig.toml` checks the whole project.

## How the model is built

- An object whose methods change its fields is a class with those fields. Each section that the
  program runs under a mutex is one method, and its contract gives the whole new state.
- What the program does not decide itself is an arbitrary input: the model's answers, tool
  outputs, the clock, other goroutines, map iteration order, the regular expression engine.
- Concurrency is a state machine whose steps are the atomic sections. A statement about every
  list of steps is a statement about every interleaving. Where a step is not enabled it does
  nothing, so no list of steps is excluded.
- In the turn loop, other goroutines act each time the loop's mutex is free. What they do there
  is a function chosen in advance, so a contract of the loop holds for all of them.

| module | models |
|---|---|
| `Transcript` | messages, and when a transcript answers its tool calls in place |
| `TurnLoop` | `internal/agent/loop.go` |
| `HistoryRepair` | `repairOrphanedToolCalls` in `internal/agent/session.go` |
| `StoredLog` | what a session stores, and the loops rebuilt from it, in `internal/agent/session.go` |
| `Subscriptions` | `internal/agent/subpub.go` |
| `SessionStream` | append, publish and subscribe in `internal/agent/session.go` |
| `ChatQueue` | queued chat text and one flush of it |
| `ChatSessions` | the same over many sessions, with rotations, removals and other flushes at any moment |
| `Prompts` | user prompts and command approval |
| `Costs` | the running total and its reconstruction |
| `Requirements` | the requirement search in `internal/agent/snapshot.go` |
| `ShellScan`, `BashPolicy` | `internal/agent/policy.go` |
| `Globs` | `matchGlob` in `internal/core/label.go` |
| `ProviderCache` | `internal/agent/provider_cache.go` |
| `Slugs` | `internal/agent/slug.go` |
| `TokenRefresh` | `EnsureValid` in `internal/agentoauth/manager.go` |
| `CsvRows` | the CSV printer in `internal/cmd/history.go` |
| `Text`, `Options` | trimming, decimals, optional values |

## Main results

- Transcripts: `TurnLoop.Loop.Go`, `Transcript.WellFormedMeansAnswered`, `HistoryRepair.RepairHeals`, `StoredLog.Session`.
- Streams: `SessionStream.ExactlyOnce`, `Subscriptions.DeliveredMaxima`, `Subscriptions.OverIsFinal`.
- Queued chat: `ChatSessions.Conservation`, `ChatSessions.Fate`, `ChatSessions.TextInOrder`.
- Prompts and costs: `Prompts.ApprovalNeedsApproval`, `Prompts.BroughtArrives`, `Prompts.GotCameFrom`, `Costs.RestoredTotal`.
- Requirements: `Requirements.CollectSnapshotRequirements`.
- Shell policy: `ShellScan.QuotingMeans`, `ShellScan.CutByPosition`, `ShellScan.ScannersAgree`, `BashPolicy.EvaluateBashPolicyResolved`, `BashPolicy.DenyRuleOnlyDenies`.
- Others: `Globs.TranslationPreservesMeaning`, `ProviderCache.Cache.GetOrCreate`, `Slugs.UniqueID`, `TokenRefresh.SaveUndoesLogin`, `TokenRefresh.AnswersAreCurrent`, `CsvRows.RenderHistoryCSV`.

## Where a promise does not hold, and exactly when it does

- A turn that reaches the maximal depth leaves its last batch of tool calls without results. If
  nobody injects messages, a history that started well-formed stays so exactly when no turn does
  that (`TurnLoop.Loop.Go`).
- A message injected with `AppendExternalHistory` breaks the history exactly when it lands
  while a batch waits for results (`TurnLoop.Loop.Go`, `TurnLoop.ExternalBreaksBatch`).
- A loop is rebuilt from the stored messages, whose order is not that of the history: a user's
  message is stored when it is accepted, even while a tool runs. The rebuilt transcript is
  well-formed exactly when no such message was stored between a batch and a later result of it,
  and no empty or repeated id hides what is missing (`StoredLog.RebuiltTranscript`,
  `StoredLog.UserMessageBreaksLog`).
- Repair is idempotent exactly when no tool call has an empty id (`HistoryRepair.RepairIdempotent`).
- A stored message never reaches a live subscriber exactly when a later message was published
  before it (`SessionStream.ExactlyOnce`, `SessionStream.OvertakenIsLost`).
- Queued chat text is never lost or doubled exactly when no step puts text into a session that is
  copied, gone or stuck, takes text out of one that is copied or gone, leaves one with text marked
  for good, or removes one with text (`ChatSessions.Conservation`). The program does all of these:
  text that arrives between the copy and the removal of the old session is lost
  (`ChatSessions.LateTextIsLost`); a flush of the old session in that time doubles what was copied
  (`ChatSessions.OldFlushDoubles`); a flush that rotated and then does not find the continuation
  puts its text into the old session (`ChatSessions.MisplacedRestoreLoses`); a rotation by another
  caller copies the marker of a flush that will not take it off
  (`ChatSessions.CopiedMarkerStrands`); the cleanup of idle sessions does not look at their queues
  (`ChatSessions.IdleRemovalLoses`).
- A receiver that was told the end gets one more message exactly when a publication was between its
  look at the subscriber and its send (`Subscriptions.OverIsFinal`, `Subscriptions.MessageAfterEnd`).
- A login or logout is undone by a refresh exactly when it comes after the refresh's second look and
  before its result is stored (`TokenRefresh.SaveUndoesLogin`, `TokenRefresh.LoginUndone`).
- The live cost total equals what reactivation computes exactly when the mismatches between charge
  and stored cost add up to what delegates still at work have stored (`Costs.RestoredTotal`).
  Negative prices and preset costs are the mismatches; a delegate at work is counted by
  reactivation, though not by the live total.
- A requirement search that does not fail opens every reachable DAG exactly when no two reachable
  DAGs share a name (`Requirements.CollectSnapshotRequirements`, `Requirements.SameNameHidesDag`).
- A segment splits into itself exactly when no CR LF is left in it (`ShellScan.SegmentIsWhole`).
- A glob keeps its plain meaning on a text exactly when the text is one line
  (`Globs.ExactlyOnOneLine`).
- `UniqueID` is documented never to exceed 128 characters. Its last resort does, for the longest
  base, once 999,999,999 ids are taken (`Slugs.UniqueID`). With fewer ids it gives an id that the
  validator rejects exactly when the base is no slug: for a name, when its slug is cut right after a
  hyphen (`Slugs.BaseIsSlug`, `Slugs.CutAfterHyphen`).
- The CSV comment refers to RFC 4180, which ends records with CR LF; the program ends them with LF,
  and the reader here expects that.

## Model

| member | source | states |
|---|---|---|
| Transcript.WellFormedMeansAnswered | internal/agent/loop.go:583-631 | reading a transcript from the left accepts it exactly when each batch of tool calls is directly followed by one result per call in call order, and no other results exist |
| TurnLoop.Loop.AppendToHistory | internal/agent/loop.go:439-445 | the message joins the history and gets the next sequence id, whatever others did before the lock was taken |
| TurnLoop.Loop.RecordOwn | internal/agent/loop.go:691-714 | the message joins the history and is then handed to the session, with others acting in between; what the loop has stored stays exactly its own messages without users', and the log keeps expecting exactly the results that the transcript expects |
| TurnLoop.Loop.SendRequest | internal/agent/loop.go:314-365 | exactly one request is made; it carries everything recorded so far, of the loop's own messages no more and no less, with no batch waiting for results; the answer is the model's next one: a reply is recorded as it came and its calls then wait, a failure leaves the transcript alone; sequence ids advance by one per recorded message |
| TurnLoop.Loop.RecordCancelledToolResults | internal/agent/loop.go:627-631 | every waiting call gets a cancelled result, in order, and nothing else is used up |
| TurnLoop.Loop.RunTool | internal/agent/loop.go:587-593 | the call is started and exactly the next tool output is recorded as its result; it reports whether an interrupt is pending |
| TurnLoop.Loop.ExecuteToolCalls | internal/agent/loop.go:585-596 | the first calls of the batch, at least one, are started one by one in order, and each is given the output of its own run, unused before; it stops early only after an interrupt; at most one run starts after an interrupt arrived |
| TurnLoop.Loop.AnswerBatch | internal/agent/loop.go:546-555 | a batch is fully answered before anything else happens: the calls that were run by their outputs, the rest by cancellations; there is a rest only after an interrupt, and the turn stops exactly if one is pending |
| TurnLoop.Loop.Ask | internal/agent/loop.go:290-301 | after a request all calls of the reply are cancelled if an interrupt is pending; otherwise exactly those calls wait |
| TurnLoop.Loop.HandleToolCalls | internal/agent/loop.go:539-581 | every exit but the depth exit leaves no call waiting; at most 51 requests per turn, and exactly 51 at the depth exit; at most one start after an interrupt; the outcome tells what the loop did last, and it is an interruption exactly if an interrupt is pending and the model did not fail |
| TurnLoop.Loop.ProcessLLMRequest | internal/agent/loop.go:289-310 | the same for a whole turn; user messages do not enter during it and the interrupt flag is not cleared |
| TurnLoop.Loop.ActivateQueuedTurn | internal/agent/loop.go:367-379 | afterwards nothing is queued and every user message is in the transcript; a turn starts with a lowered flag and nothing pending |
| TurnLoop.Loop.Go | internal/agent/loop.go:202-273 | over any number of turns and any interleaving: unanswered batches grow exactly by the depth exits; if nobody injects messages, the history is well-formed if and only if it started well-formed and no turn ran out of depth; with plain injected messages, if and only if besides each of them landed between batches; no user message is lost, doubled or reordered, and messages queued before a round enter the transcript in it; the assistant's messages are the model's replies, each once and in order; the results are the tools' outputs, each once and in the order of the runs, or cancellations, and after a cancellation no tool runs until the next reply; every turn makes a request and keeps its bounds |
| TurnLoop.AccountSays | internal/agent/loop.go:346-365 | whatever the loop did, the assistant's messages among its own are exactly what the model replied, in order |
| TurnLoop.CountMeans | internal/agent/loop.go:289-310 | the counts that bound a turn, event by event: every request in it carried a transcript without open calls, and at most one request or tool run started after an interrupt |
| TurnLoop.ExternalLanding | internal/agent/loop.go:188-192 | with plain injected messages a transcript is well-formed if and only if the loop's own part is and each of them landed between batches |
| TurnLoop.WholeHistory | internal/agent/loop.go:188-192 | the same for the whole history, together with whatever the loop started from |
| TurnLoop.ExternalBreaksBatch | internal/agent/loop.go:185-192 | an input where an injected message breaks a well-formed transcript |
| HistoryRepair.ToolBlock | internal/agent/session.go:933-942 | the block of tool messages after a position and the non-empty ids it answers |
| HistoryRepair.Synthesize | internal/agent/session.go:944-953 | cancelled results, in call order, for exactly the calls whose id is not answered |
| HistoryRepair.RepairOrphanedToolCalls | internal/agent/session.go:919-959 | the nested loops compute the recursive repair |
| HistoryRepair.RepairCompletes | internal/agent/session.go:913-918 | after repair every tool call is answered in the tool block directly after it, even a call with an empty id |
| HistoryRepair.RepairOnlyAdds | internal/agent/session.go:913-918 | every message is kept in order and only cancelled results are added |
| HistoryRepair.RepairKeepsBatches | internal/agent/session.go:919-959 | the batches are the same ones, in the same order |
| HistoryRepair.RepairIdentity | internal/agent/session.go:933-953 | repair changes nothing if and only if every call has a non-empty id and a result in its block |
| HistoryRepair.RepairIdempotent | internal/agent/session.go:937-953 | repairing twice is repairing once, if and only if no call has an empty id |
| HistoryRepair.EmptyIDRepairedTwice | internal/agent/session.go:937-953 | a transcript that every repair makes longer |
| HistoryRepair.RepairHeals | internal/agent/session.go:919-959 | for every transcript: repair makes it well-formed if and only if each batch had results for some first part of its calls, there were no other results, and no id of that first part is empty or repeated by a later call; with distinct non-empty ids the last condition always holds |
| StoredLog.RebuiltTranscript | internal/agent/session.go:897-911 | for every log written by loops, with user and injected messages stored at any moment: the rebuilt transcript is well-formed if and only if nothing from outside was stored between a batch and a later result of that batch, and ids tell which results are missing |
| StoredLog.EnsureLoop | internal/agent/session.go:784-812 | a loop built from the log starts with the repaired log, well-formed under that same condition |
| StoredLog.Session | internal/agent/session.go:781-812 | over the whole life of a session, with any number of loops one after the other, each stopped at any moment: each log grows from the one before by exactly the next loop's own messages and what others stored, in their orders, cut where the loop was stopped; the loop's own messages are accounted for by the model's answers and the tools' outputs; each loop starts well-formed if and only if the log it was rebuilt from meets that condition |
| StoredLog.UserMessageBreaksLog | internal/agent/session.go:579-595 | a log with a user message accepted while a tool runs, from which no well-formed transcript is rebuilt |
| Subscriptions.Subscriber.Offer | internal/agent/subpub.go:116-130 | one subscriber's look and send, with its receiver and its context acting in between: skip what it has had, send, or drop; it is kept exactly when it stays listed, and then its channel is open |
| Subscriptions.Subscriber.TryReceive | internal/agent/subpub.go:85-107 | the oldest message comes out first; the end is reported exactly when nothing is left and the subscription is over |
| Subscriptions.SubPub.Deliver | internal/agent/subpub.go:111-151 | each subscriber takes exactly its own steps, those still listed remain in order, all listed channels are open and distinct |
| Subscriptions.OfferedSteps | internal/agent/subpub.go:117-129 | that is the look and the send of the event machine, with the receiver and the context in between |
| Subscriptions.ChannelKeepsOrder | internal/agent/subpub.go:38-49 | over every run, received followed by buffered messages are the sent ones in order, the buffer holds at most 10, a channel is closed exactly when its subscriber is not listed, and never while a send to it is under way |
| Subscriptions.MaximaMembers | internal/agent/subpub.go:121-129 | a publication is a running maximum exactly when its id is above the starting id and all published before it |
| Subscriptions.MaximaIncrease | internal/agent/subpub.go:121-129 | running maxima have strictly increasing ids above the starting id |
| Subscriptions.DeliveredMaxima | internal/agent/subpub.go:111-132 | over every run, what was published to a subscriber is exactly the strict running maxima of the published ids above its starting id, up to the moment it was dropped |
| Subscriptions.OverIsFinal | internal/agent/subpub.go:85-132 | after the end was reported one more message is sent if and only if a publication had looked at the subscriber before and sends after; no other ever is |
| Subscriptions.MessageAfterEnd | internal/agent/subpub.go:95-126 | a run in which the receiver is told the end and a further call returns a message |
| SessionStream.SessionManager.SubscribeWithSnapshot | internal/agent/session.go:740-748 | the snapshot is all messages, and the subscription starts at the same counter value |
| SessionStream.SessionManager.Record | internal/agent/session.go:964-992 | the message is stored, then published to each subscriber under its counter value |
| SessionStream.NeverTwice | internal/agent/session.go:740-748 | in every interleaving no message is in both snapshot and stream, and none is in the stream twice |
| SessionStream.ExactlyOnce | internal/agent/session.go:980-984 | in every interleaving, for a subscriber that is not dropped, each message is in the snapshot, unpublished, about to be sent, in the stream or lost; it is lost if and only if a later one overtook it |
| SessionStream.InOrderNothingLost | internal/agent/session.go:740-748 | with publications in counter order and none left, each message is in exactly one of snapshot and stream |
| SessionStream.OvertakenIsLost | internal/agent/session.go:995-1002 | a run in which a message reaches neither snapshot nor stream |
| ChatQueue.JoinMerged | internal/agent/session.go:663-673 | a merged message stands for the messages it was merged from |
| ChatQueue.SessionQueue.BeginQueuedChatFlush | internal/agent/session.go:663-673 | a flush begins exactly when none is running and something is queued, and takes the whole queue merged |
| ChatQueue.SessionQueue.RestoreQueuedChatInput | internal/agent/session.go:676-686 | the text goes back to the front of the queue and the flush ends; empty text only ends the flush |
| ChatQueue.SessionQueue.CarryOver | internal/agent/api.go:1285-1294 | the continuation session gets the queue and the flush marker |
| ChatQueue.FlushQueuedChatMessage | internal/agent/api.go:1413-1459 | on every path delivered text and target queue together are all the text, in order, except when the continuation is not found after a rotation; then the text is in neither and the target stays marked as flushing |
| ChatSessions.OneFlight | internal/agent/session.go:663-693 | when every step concerns the newest session, with its copy arrived, and a marked session is rotated only by its own flush: at most one flush is in flight, the newest session is marked only meanwhile, and delivered, flying, copied and queued messages are the accepted ones in order |
| ChatSessions.Conservation | internal/agent/api.go:1285-1309 | over sessions, flushes, rotations and removals in any interleaving, with a rotation's read and write as separate steps: at every moment each accepted message is delivered or can still be, exactly once, if and only if no step puts text into a session that is copied, gone or stuck, takes text out of one that is copied or gone, leaves a session with text marked for good, or removes one with text |
| ChatSessions.Fate | internal/agent/api.go:1285-1294 | in every interleaving an accepted message is lost if and only if copied, removed and stuck sessions hold it once more than it was copied out, and doubled if and only if it was copied out more often than they still hold it |
| ChatSessions.StuckForGood | internal/agent/session.go:663-668 | a continuation that carries a copied marker which no flush and no copy will take off stays so whatever happens, keeps its text and can never be flushed |
| ChatSessions.CanBeFlushed | internal/agent/session.go:663-693 | in every interleaving any other session that is neither copied nor gone is unmarked, or a flush will end in it, or a copy is on its way into it |
| ChatSessions.TextIsMessages | internal/agent/session.go:663-686 | in every interleaving every queued, flying, copied or delivered text is the joined text of the messages it was merged from, in order |
| ChatSessions.TextInOrder | internal/agent/session.go:600-693 | under the same condition all texts joined are the accepted texts joined, and the newest session can be flushed |
| ChatSessions.NewSessionDelivers | internal/agent/session.go:663-693 | after any run, text put into a new session and flushed is delivered, once and as it was |
| ChatSessions.RotationInOrder | internal/agent/api.go:1285-1294 | a run under that condition in which a flush rotates its session and all text is delivered in order |
| ChatSessions.LateTextIsLost | internal/agent/session.go:615-622 | a run in which text reaches a session after its queue was copied and is lost |
| ChatSessions.OldFlushDoubles | internal/agent/api.go:1285-1306 | a run in which the old session is flushed after its queue was copied and the text is doubled |
| ChatSessions.MisplacedRestoreLoses | internal/agent/api.go:1427-1435 | a run in which a flush rotates, does not find the continuation, loses its text and leaves the continuation stuck |
| ChatSessions.CopiedMarkerStrands | internal/agent/api.go:1285-1294 | a run in which another caller rotates a session that is being flushed, so that text queued in the continuation can never be flushed |
| ChatSessions.IdleRemovalLoses | internal/agent/api.go:1735-1742 | a run in which an idle session is removed together with its queued text |
| Prompts.PromptBoard.CancelPendingPrompts | internal/agent/session.go:370-383 | exactly the pending prompts without a response are cancelled, approvals only if included |
| Prompts.PromptBoard.TryRouteToGeneralPrompt | internal/agent/session.go:389-404 | chat text answers one open general prompt if there is one and touches nothing else |
| Prompts.ApprovalNeedsApproval | internal/agent/approval.go:64-74 | in every interleaving a wait returns a response for its own prompt, and a command is approved if and only if the wait returned a submitted, uncancelled response that selects approval |
| Prompts.BroughtArrives | internal/agent/session.go:1158-1161 | in every reachable state, for both types of prompt: a response sent to a wait that is on and has got nothing, a chat text to a general one, or a cancellation that includes it, is what the wait returns, whatever happens in between; the command is then approved exactly if the response is not cancelled and selects approval |
| Prompts.AnnouncedIsAnswered | internal/agent/session.go:1146-1166 | after any run a new prompt of either type that is announced, waited for and answered returns its answer, and one that nobody answers runs out of time |
| Prompts.GotCameFrom | internal/agent/session.go:1091-1106 | over every run a returned response came from one step that found the wait open: its sending, a chat text to a general prompt, a cancellation, or time that ran out during one |
| Prompts.UnregisteredForGood | internal/agent/session.go:1083-1088 | once a wait has ended and was unregistered, whatever happens later, no submission finds the prompt and neither chat text nor cancellation reaches it |
| Prompts.ApprovalsUntouched | internal/agent/session.go:356-404 | in every reachable state chat text and partial cancellation leave command approvals alone |
| Costs.Ledger.constructor | internal/agent/session.go:138-167 | a restored total is the stored message costs plus the cost of every listed delegate; with distinct ids it agrees with the delegates kept |
| Costs.Ledger.RecordMessage | internal/agent/session.go:964-980 | the total and the stored costs move apart by exactly the message's mismatch |
| Costs.TotalIsBilled | internal/agent/session.go:1192-1201 | from any reactivated session on, in every interleaving: the live total has grown by exactly what the prompt and completion tokens of its own messages, and of its ended delegates' messages, cost per million at the prices then in force |
| Costs.RestoredTotal | internal/agent/api.go:1561-1582 | from any reactivated session on, in every interleaving of its messages and its delegates' messages, and with none of its own between charging and storing: the live total is what reactivation would compute from all stored messages if and only if the mismatches of charge and stored cost add up to what delegates still at work have stored |
| Costs.CostConservation | internal/agent/delegate.go:348-354 | with prices that are not negative, no preset costs and no delegate at work the two are always equal |
| Costs.NegativePriceDrifts | internal/agent/session.go:972-978 | a run in which a charge is not stored |
| Costs.RunningDelegateCountsEarly | internal/agent/api.go:1571-1579 | a run in which reactivation counts the cost of a delegate that the live total does not have yet |
| Costs.ReactivatedCost | internal/agent/api.go:893-928 | a session reactivated from what is stored starts with exactly that cost |
| Requirements.SnapshotRequirements.CollectStep | internal/agent/snapshot.go:358-404 | the step's needs and those of everything newly opened are added; what it leads to is visited, or some reachable DAG cannot be resolved |
| Requirements.SnapshotRequirements.CollectSteps | internal/agent/snapshot.go:325-343 | the needs of the given steps and of everything newly opened are added, and what they lead to is visited, up to the first failure |
| Requirements.SnapshotRequirements.CollectAll | internal/agent/snapshot.go:325-343 | every step and every handler of the DAG is followed, and what any of them needs is added |
| Requirements.TargetMeans | internal/agent/snapshot.go:380-404 | a step leads to the local DAG that has its trimmed name, if there is one that is not nil; otherwise to what the resolver finds, or fails as it does; a blank name or one with a parameter leads nowhere |
| Requirements.SnapshotRequirements.Walk | internal/agent/snapshot.go:315-356 | the mutually recursive walk terminates; it opens only reachable DAGs, follows up each of them and adds exactly their needs |
| Requirements.CollectSnapshotRequirements | internal/agent/snapshot.go:307-313 | a search that succeeds has opened the root and only reachable DAGs and collects exactly what the opened ones need; it opens all reachable DAGs if and only if names are unique; it fails only if a reachable step cannot be resolved, and with unique names always then |
| Requirements.NeedsSnapshotForDAG | internal/agent/snapshot.go:224-233 | the answer is whether an opened DAG has an agent step; with unique names it is an error if and only if a reachable step cannot be resolved, and otherwise whether a reachable DAG has an agent step |
| Requirements.SameNameHidesDag | internal/agent/snapshot.go:319-322 | a graph in which a reachable DAG has an agent step and the search, having opened the root and only one DAG per name, reports none |
| ShellScan.SplitShellCommandSegments | internal/agent/policy.go:278-350 | the segments are the trimmed, non-blank texts between the semicolons, newlines, bars and ampersands that stand outside quotes and are not escaped; it cuts at every one of them and nowhere else |
| ShellScan.QuotingMeans | internal/agent/policy.go:304-328 | for every text the three flags say exactly how it ends: as a row of whole items (plain characters, escaped ones, quoted texts), within single quotes, within double quotes, or after a backslash that escapes |
| ShellScan.CutByPosition | internal/agent/policy.go:330-346 | a text is cut at exactly the positions of its bare separators |
| ShellScan.PlainIsComplete | internal/agent/policy.go:304-328 | after a text without quotes and backslashes nothing is quoted or escaped |
| ShellScan.ReplaceMeans | internal/agent/policy.go:279 | a CR LF becomes an LF wherever it stands |
| ShellScan.CutLosesNothing | internal/agent/policy.go:299-346 | the pieces with the separators between them are the whole text |
| ShellScan.PieceIsWhole | internal/agent/policy.go:299-346 | no piece contains a separator that would cut it |
| ShellScan.SegmentIsWhole | internal/agent/policy.go:278-350 | a segment of any command splits into itself if and only if no CR LF is left in it |
| ShellScan.SegmentKeepsCRLF | internal/agent/policy.go:279-282 | a command with a segment that keeps a CR LF and does not split into itself |
| ShellScan.HasUnsupportedShellConstructs | internal/agent/policy.go:352-400 | a command is reported if and only if at some position, not escaped and outside single quotes, there is a backtick, `$(`, `<(` or `>(`, or outside double quotes `<<` |
| ShellScan.ScannersAgree | internal/agent/policy.go:278-400 | for every command: it has such a construct if and only if one of its segments has |
| BashPolicy.CompileEnabledBashRules | internal/agent/policy.go:242-261 | all enabled rules in order, or the index of the first one that does not compile |
| BashPolicy.MatchCompiledBashRule | internal/agent/policy.go:263-271 | the match is the first enabled rule that matches; no match means none does |
| BashPolicy.EvaluateSegments | internal/agent/policy.go:206-233 | allowed if and only if every segment is; a denial names the first denied segment and the rule that decided it, or no rule if none matches |
| BashPolicy.EvaluateBashPolicyResolved | internal/agent/policy.go:170-234 | the whole evaluation, with its early answers, the kind of reason it gives, the command it names and the error it reports, is what the policy means |
| BashPolicy.DenyRuleOnlyDenies | internal/agent/policy.go:206-233 | inserting a deny rule that compiles, anywhere, never turns denied into allowed and never causes or hides an error |
| Globs.GlobToRegex | internal/core/label.go:325-343 | the text written compiles, and matches exactly the texts that the glob matches line-wise |
| Globs.TranslationCompiles | internal/core/label.go:314-343 | every translated glob compiles to the expression it is meant to become |
| Globs.MeaningMatches | internal/core/label.go:325-343 | the expression a glob is meant to become denotes exactly what the glob matches line-wise |
| Globs.TranslationPreservesMeaning | internal/core/label.go:310-343 | for every pattern and text the compiled translation matches exactly when the glob does with wildcards that stop at newlines; on one line that is the plain glob |
| Globs.ExactlyOnOneLine | internal/core/label.go:310-321 | all globs keep their plain meaning on a text if and only if it is one line |
| Globs.StarStopsAtNewline | internal/core/label.go:310-321 | an input where a star does not match |
| ProviderCache.KeyTextInjective | internal/agent/provider_cache.go:118-126 | different configurations have different key texts, whatever their fields contain |
| ProviderCache.Cache.EvictIfFull | internal/agent/provider_cache.go:109-116 | room is made by dropping at most one entry, and none unless the cache is full |
| ProviderCache.Cache.Set | internal/agent/provider_cache.go:47-56 | the provider is the latest of its configuration, other entries are the old ones, all of them unless the cache was full, and the bound holds |
| ProviderCache.Cache.GetOrCreate | internal/agent/provider_cache.go:59-88 | whatever happens between the two looks, the provider returned is cached and is the one stored last for this configuration, with its model; an error means that none was cached and none could be created; the bound holds |
| ProviderCache.Cache.HitIsLatest | internal/agent/provider_cache.go:62-66 | every hit is the provider stored last for that same configuration |
| Slugs.PatternIsSlug | internal/agent/slug.go:13-32 | the slug pattern says what the character-wise reading says |
| Slugs.Alphabet | internal/agent/slug.go:13-20 | the characters of a slug besides the hyphen are the small letters and the digits |
| Slugs.GenerateMakesSlug | internal/agent/slug.go:38-43 | a name with a letter or digit becomes a slug, any other name becomes nothing |
| Slugs.GenerateKeepsLetters | internal/agent/slug.go:38-43 | the slug has the letters and digits of the name, in lower case and in order |
| Slugs.SlugIsItsOwn | internal/agent/slug.go:38-43 | a slug is its own slug |
| Slugs.GenerateIdempotent | internal/agent/slug.go:38-43 | making a slug twice is making it once |
| Slugs.TakenNeedsMany | internal/agent/slug.go:63-74 | all candidates can be taken only if as many ids exist |
| Slugs.UniqueID | internal/agent/slug.go:51-75 | the result is the base or the first free numbered candidate; with fewer than 999,999,999 ids it is free, at most 128 long, and valid if and only if the base is a slug; the last resort and its length are stated exactly |
| Slugs.BaseIsSlug | internal/agent/slug.go:52-58 | the base made from a name is a slug if and only if the name's slug is not cut right after a hyphen |
| Slugs.CutAfterHyphen | internal/agent/slug.go:56-58 | a name whose base is no slug |
| TokenRefresh.Manager.EnsureValid | internal/agentoauth/manager.go:225-274 | the stored credential is returned if and only if it has no expiry or expires more than the skew after now; an earlier expiry is an error without a refresh token, and otherwise what is stored when the lock is held decides: none, one that lasts longer, or one that is then refreshed, once |
| TokenRefresh.AnswersAreCurrent | internal/agentoauth/manager.go:234-263 | in every interleaving a caller that returns from its first or second look gets what is then stored, which has no expiry or expires more than the skew after that look; it is told of no credential only if none is stored, and of an expired one only if it had no refresh token |
| TokenRefresh.LooksDecide | internal/agentoauth/manager.go:242-264 | in every reachable state a caller goes for the lock exactly if the stored credential expires at most the skew from now, past expiries included, and has a refresh token; with the lock it decides on a refresh exactly if what it finds then expires at most the skew from now |
| TokenRefresh.OneRefreshAtATime | internal/agentoauth/manager.go:249-273 | in every interleaving at most one caller is between its second look and the end of its refresh |
| TokenRefresh.NoNeedlessRefresh | internal/agentoauth/manager.go:253-264 | in every interleaving a refresh decided on after a credential was stored is for that credential and not before it nears its expiry |
| TokenRefresh.RequestUsesLook | internal/agentoauth/manager.go:253-264 | in every interleaving a request goes out for the credential of the second look; only logins and logouts can have changed the store since, and if none did that credential is still stored |
| TokenRefresh.SaveUndoesLogin | internal/agentoauth/manager.go:264-273 | in every interleaving a refresh puts its result in place of the credential it was made from if and only if no login or logout came after its second look; otherwise it undoes the latest of them |
| TokenRefresh.LoginUndone | internal/agentoauth/manager.go:150-170 | a run in which a login is undone by a refresh |
| CsvRows.RenderHistoryCSV | internal/cmd/history.go:496-513 | the whole output reads back as the column titles and the columns of every run |
| CsvRows.RunReadsBack | internal/cmd/history.go:516-526 | for all six texts the printed row reads back as exactly those fields |
| CsvRows.HistoryReadsBack | internal/cmd/history.go:504-510 | all printed rows together read back as the columns of every run, line breaks in fields included |

## Left out

- HTTP handlers, server-sent events, heartbeats, timers and logging: input and output around the modelled state.
- Language model providers, tool bodies, hooks and shell execution: their results are arbitrary values.
- Cancelling the loop's context, panics in tools, and two callers that start a loop at the same time (`ensureLoop`'s second look, `runLoop`, `clearLoop`).
- The choice between queueing a chat message, answering a prompt with it and starting a turn at once (`EnqueueChatMessage`): only queued text is tracked.
- Label parsing and the other label filters, reading stored costs for session lists, `ValidateToolPolicy`, `ResolveToolPolicy`: they would only add easy members.
- Building and encoding the snapshot once the requirements are known: JSON, gzip and stores.
- Login flows and errors of the credential store: a failing read ends a call like a missing credential.
- SHA-256: the hash is any function without collisions. Regular expressions in policy rules are abstract.
- Unicode: white space, case and slugs are ASCII. Costs are exact reals instead of floating point.
- TokenRefresh.NoNeedlessRefresh: the interleavings of callers are modelled on values, as steps, not as objects; the manager object appears for a single call in `TokenRefresh.Manager.EnsureValid`.
- StoredLog.Session: a cancelled loop that stores a result after its successor has started is not modelled; `HistoryRepair.RepairHeals` covers every log, that one included.
- ChatQueue.FlushQueuedChatMessage: no other caller flushes or rotates during the call; `ChatSessions.Conservation` is about those interleavings. Its early exits before the text is taken are not modelled.
- ChatSessions.Conservation: a rotation whose new loop cannot be started is not modelled; with a manager and a provider at hand starting it cannot fail. Session ids are not modelled: a flush that finds its session removed may go on in any session that is no continuation.
- Costs.RestoredTotal: every recorded message is persisted; a failing store is not modelled.
- BashPolicy.EvaluateBashPolicyResolved: the wording of a reason is not modelled, only which of the four it is.
- Prompts.ApprovalNeedsApproval: a prompt id is announced once and before it is waited for, and waited for once; ids are random in the program.
- TurnLoop.Loop.Go: ends after a given number of rounds instead of when its context is cancelled.
