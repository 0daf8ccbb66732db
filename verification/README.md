# Agent_b: models and proofs

Agent_b is an event-sourced agent runner: sessions submit messages, a scheduler dispatches runs, a run
talks to a model and executes tools, and everything that happens is appended to a per-session log from
which snapshots, patches and history are projected. This project models the parts whose promises are
about all interleavings, all logs or all texts, and proves those promises. Verify it with
`dafny verify dfyconfig.toml`.

| files | component |
|---|---|
| `SchedulerSpec`, `SchedulerAnswers`, `SchedulerRuns`, `SchedulerMessages`, `SchedulerHolds`, `Scheduler` | the run scheduler: a state machine of its lock-held sections, what each of them does to the state before it, three families of theorems over every run of it, and the object whose methods are proved to take exactly those steps |
| `Gate` | the approval gate: a decide-once protocol between operator, mailbox, cancellation and a superseding wait |
| `Transcript`, `TranscriptMirror`, `CompactionEffects`, `SessionMessages` | the live message list, the events its edits publish, the reducer that rebuilds the list from them, and which messages each edit touches |
| `Pointer`, `Patch` | snapshot patches: JSON pointer escaping, `diff`, and the browser's application of a patch |
| `Store`, `StoreRuns`, `StoreStale`, `LiveStore` | the live projection store and its cache over a growing log, with subscribers and their copies |
| `Timeline` | which events a session's timeline keeps |
| `History`, `HistoryRuns`, `HistoryLog` | the history index: byte ranges of appended messages, elision, lineage of summaries |
| `CompactToFit`, `RunLoop` | the run loop: why it stops, what it has sent and executed by then, its bounds, and why compact-and-retry ends |
| `Budget` | exact token apportioning |
| `Utf8Window`, `TextDiff`, `Glob`, `WriteConflict` | byte windows, similarity and single-hunk diff, glob matching, write conflicts between sessions |
| `Prelude` | small collection and string vocabulary |

Mutable objects of the program are classes here (`RunScheduler`, `ApprovalGate`, `ChatSession`,
`SnapshotCache`, `ProjectionStore`, `SessionLog`, `FileCoordinator`). A public method is one section that
the program runs under its mutex. Each object carries the ghost sequence of the steps taken so far, its
`Valid()` says that it is where the state machine is after those steps, and every public method keeps
that; so the theorems about all sequences of steps hold of the object after any sequence of calls
(`RunScheduler.AlwaysHolds`, `ApprovalGate.AlwaysHolds`, `ChatSession.Mirrored`, `ProjectionStore.AlwaysHolds`).

Where a promise does not hold of the code, the code is kept, a concrete or general counterexample is
proved, and the exact condition under which the promise does hold:

- A forced finish does not hand over pending messages and can leave a session with pending messages that
  nothing will dispatch (`SchedulerHolds.StrandedExample`); exactly when is `SchedulerHolds.ForcedFinishStrands`.
- With a call id reused too early a session can have two registered approval waits
  (`Gate.ReusedCallBreaksIt`); exactly when is `Gate.InStepThroughoutIff`, step by step `Gate.StaysInStepIff`.
- The body of a summary that a later summary compacted cannot be read back
  (`HistoryRuns.CompactedSummaryIsUnreadable`); exactly what can is `HistoryRuns.ResolvesToOriginal`.
- An appended message of the summary category is moved by the reducer but not by the live list
  (`TranscriptMirror.AppendMirroredExactly`).
- The comment at `internal/projection/store.go:92-94` says every later patch is strictly after a
  subscriber's cursor. A snapshot that runs ahead of, or behind, the applied records breaks this
  (`StoreRuns.AheadSnapshotSkipsAPatch`, `StoreRuns.PatchNotAfterCursor`); a step keeps it exactly when
  `StoreRuns.TakeLinks` says. Clients are never silently wrong all the same: a patch that does not start
  at the copy's cursor is refused.
- The last share of a token split can be negative (`Budget.LastShareCanBeNegative`), exactly when the
  rounded shares exceed the group (`Budget.LastShareNegativeIff`) and never under the guards of
  `Budget.LastShareNotNegative`; and the used tokens equal the final render if and only if no render
  shrank (`Budget.MeasureExact`).
- A session that read a file of the same relative name under another root counts as having read the file
  it writes, and sessions writing under different roots do not see each other's records
  (`WriteConflict.NamesakeHidesAWrite`, `WriteConflict.OtherRootIsNotSeen`, exactly when:
  `WriteConflict.UnreadWriteRefusedIff`).

## Model

| member | source | states |
|---|---|---|
| `SchedulerRuns.DispatchOrder` | internal/agent/scheduler.go:82-226 | After every sequence of scheduler steps, whatever else writes run statuses: at most MaxConcurrent runs are active, a queue exists only while every slot is taken, queued run ids increase, runs were started in strictly increasing run-id order and before every queued one, and no run id was reported stopped twice |
| `SchedulerRuns.EveryRunIsSafe` | internal/agent/scheduler.go:82-395 | The invariant behind it, kept by Submit, start, finish, forceFinish, Stop, ReleaseModel and HoldModel alike |
| `SchedulerRuns.LateCompletionIsFenced` | internal/agent/scheduler.go:187-194 | Once a started run is no longer the active run of any session, its completion and a late forced finish change nothing at any later point |
| `SchedulerRuns.RunEvolves` | internal/agent/scheduler.go:169-226 | Between any two points of a run the started and stopped journals only grow, and what is active later was active before or started in between |
| `SchedulerMessages.ExactlyOnePlace` | internal/agent/scheduler.go:96-173 | An accepted message is in exactly one of transcript, pending list, queue-entry body and discarded, of its own session only, so it enters the transcript at most once |
| `SchedulerMessages.SubmissionOrder` | internal/agent/scheduler.go:201-208 | The messages that waited and were not discarded are, in submission order: those in the transcript, then queued bodies, then the pending list |
| `SchedulerMessages.EveryRunBalances` | internal/agent/scheduler.go:262-276 | The account of every session's messages balances after every run, including releases and the bodies that Stop drops |
| `SchedulerHolds.HeldUntilSubmit` | internal/agent/scheduler.go:96-152 | A held session has pending messages and no queue entry, and no step but a Submit to it lifts the hold, shortens its pending list, queues it, starts a run for it or replaces the run it may still have |
| `SchedulerHolds.NobodyStranded` | internal/agent/scheduler.go:198-223 | In every run of harmless steps a session with pending messages is active, queued, held or waiting for its model; harmless are forced finishes that do not strand their session, and foreign status writes that make a session idle or, on a session with an active run, say anything but queued |
| `SchedulerHolds.ForcedFinishStrands` | internal/agent/scheduler.go:367-395 | A forced finish strands its session if and only if it has pending messages, is not held, its model is reachable and no run of it is queued |
| `SchedulerHolds.StrandedExample` | internal/agent/scheduler.go:306-345 | Submit, stop, submit again, and a stop that times out reach such a state |
| `SchedulerAnswers.SubmitAnswers` | internal/agent/scheduler.go:82-168 | On the state before the call: nothing changes if the session is closed, if the same text is pending where the message would have to wait (the answer is the first such position), if the pending list is full or if no message could be prepared; otherwise exactly the submitted text is accepted for that session and no other, marked as waiting if and only if the session is unreachable, held, active or not idle, and it is last in the pending list, or the hold is lifted and the oldest pending message dispatched, or it is in the transcript and its run has a slot or the last queue position, as the answer says |
| `SchedulerAnswers.FinishMeans` | internal/agent/scheduler.go:187-226 | A completion of a run that is not the active one changes nothing; otherwise the slot is freed, a recorded stop reason wins over the reported one, model_unreachable marks the session, its oldest pending message becomes the last queue entry exactly when the session is reachable, not held and has one, and the front of the queue is started, exactly as many entries as slots are free |
| `SchedulerAnswers.ForceFinishMeans` | internal/agent/scheduler.go:367-395 | The same without mark and handover |
| `SchedulerAnswers.StopMeans` | internal/agent/scheduler.go:295-350 | For every order of walking the active map and every session: an active targeted one gets the stop reason and shows as stopping, a targeted queue entry is dropped and its body discarded, and exactly those of them with pending messages are held; sessions not targeted, the order of the other entries and all messages stay |
| `SchedulerAnswers.ReleaseMeans` | internal/agent/scheduler.go:249-281 | For every order of walking the unreachable map: exactly the sessions on the model become reachable, those of them that have pending messages and are neither held nor running give up their oldest one to a run, and every other session keeps its run, pending list and transcript |
| `Scheduler.RunScheduler.IdenticalPendingPosition` | internal/agent/scheduler.go:238-247 | The one-based position of the first pending message with the same text, or 0 |
| `SchedulerRuns.StartKeeps` | internal/agent/scheduler.go:169-186 | Starting the oldest entry not yet started keeps all run ids, started and queued, in one increasing line |
| `Scheduler.RunScheduler.SubmitWhileUnreachable` | internal/agent/scheduler.go:96-113 | An identical pending text is absorbed; otherwise the message waits and the session shows as held |
| `Scheduler.RunScheduler.SubmitWhileHeld` | internal/agent/scheduler.go:114-134 | The hold is lifted and the oldest pending message is dispatched under the next run id |
| `Scheduler.RunScheduler.SubmitWhileBusy` | internal/agent/scheduler.go:135-152 | Duplicate, full queue, failed preparation, or the message joins the pending list |
| `Scheduler.RunScheduler.SubmitWhileIdle` | internal/agent/scheduler.go:153-167 | The submitted text enters the transcript at once and its run takes a slot or the end of the queue |
| `Scheduler.RunScheduler.SubmitMessage` | internal/agent/scheduler.go:82-168 | The four cases in the order of the code are one step of the state machine, and the new state and the answer are those that SchedulerAnswers.SubmitAnswers describes on the old state |
| `Scheduler.RunScheduler.DrainLocked` | internal/agent/scheduler.go:219-223 | The loop starts queued runs from the front exactly while slots are free |
| `Scheduler.RunScheduler.FinishRun` | internal/agent/scheduler.go:187-226 | The fence, the freed slot, the handover and the drain are one step of the state machine |
| `Scheduler.RunScheduler.ForceFinishRun` | internal/agent/scheduler.go:367-395 | As finish, without the handover; one step of the state machine |
| `Scheduler.RunScheduler.StopActiveRuns` | internal/agent/scheduler.go:306-324 | For every order of walking the active map: exactly the targeted active runs get their stop reason and status, and are held if they have pending messages |
| `Scheduler.RunScheduler.StopQueuedRuns` | internal/agent/scheduler.go:325-345 | The targeted queue entries are dropped with their bodies, the others keep their order |
| `Scheduler.RunScheduler.StopRuns` | internal/agent/scheduler.go:295-350 | For every order of walking the active map, the lock-held part of Stop is one step of the state machine, and it reports exactly the targeted sessions that were active or queued |
| `Scheduler.RunScheduler.ReleaseModel` | internal/agent/scheduler.go:249-281 | For every order of walking the unreachable map, one step of the state machine: the sessions on the model become reachable and the oldest pending message of each idle one is dispatched |
| `Scheduler.RunScheduler.AlwaysHolds` | internal/agent/scheduler.go:82-395 | After any sequence of calls the object satisfies capacity and dispatch order, the message ledger, the rules for held sessions, and, if its steps were harmless, that nobody is stranded |
| `Gate.TestsMatchOffer` | internal/agent/gate.go:261-275 | The tests of DecideWith accept exactly the decisions that the kind of approval offers |
| `Gate.OneWaitPerSession` | internal/agent/gate.go:136-169 | In every interleaving in which no displaced wait is cleaned up, in particular whenever a call id is used again only after the earlier wait was cleaned up, a session has at most one registered wait |
| `Gate.InStepThroughoutIff` | internal/agent/gate.go:136-164 | At every point of a run each registered key is its session's pending key, if and only if the run cleans up no wait that a newer wait under the same key displaced and that is still registered |
| `Gate.StaysInStepIff` | internal/agent/gate.go:155-164 | The same for one step, of every kind: only the cleanup of a displaced wait breaks it, and it always does |
| `Gate.BeginKeepsOneIff` | internal/agent/gate.go:136-150 | A new wait leaves one registered wait per session if and only if the session has no other registered wait than its pending one |
| `Gate.NoOverlapKeysApart` | internal/agent/gate.go:136-164 | When no call id is reused before the wait that used it was cleaned up, unfinished waits have different keys and no displaced wait is ever cleaned up |
| `Gate.DecideOnce` | internal/agent/gate.go:189-240 | Every wait gets at most one send; a returned wait has published exactly one decision, the one it returns, and it is superseded, dismissed or offered by its kind |
| `Gate.ReturnedIsGiven` | internal/agent/gate.go:189-285 | In every interleaving: a wait that returned a decision other than superseded or dismissed was given exactly that decision, in exactly one step, taken while the wait was registered under that key and undecided; a superseded or dismissed wait was given none |
| `Gate.DecideMeans` | internal/agent/gate.go:251-285 | An accepted decision is alone in the channel of the wait registered under the key, which is then decided, and no other wait changes; a refused one changes nothing |
| `Gate.SendNeverBlocks` | internal/agent/gate.go:276-283 | A step that sends finds the one-slot channel empty |
| `Gate.DecidedIsDelivered` | internal/agent/gate.go:200-211 | A decided wait that has not returned has its signal waiting, received, still owed by its superseder, or is leaving after cancellation |
| `Gate.DecideAccepts` | internal/agent/gate.go:251-285 | In every interleaving, a decision is accepted if and only if the key's registered wait is undecided and offers it |
| `Gate.ReusedCallBreaksIt` | internal/agent/gate.go:155-164 | A call id reused while its first wait is unfinished reaches the failing cleanup, after which the session has two registered waits |
| `Gate.DisplacedCleanupBreaksIt` | internal/agent/gate.go:136-164 | From every such state, the cleanup and the session's next wait under another call id leave two registered waits |
| `Gate.ApprovalGate.AlwaysHolds` | internal/agent/gate.go:136-285 | After any sequence of calls every wait of the object has lived by the protocol, its registries are consistent, and, if no displaced wait was cleaned up, a session has at most one registered wait |
| `Gate.ApprovalGate.BeginWaitLocked` | internal/agent/gate.go:136-150 | One step of the protocol: a new, undecided wait with an empty channel is registered under its key; the wait returned as superseded is exactly the undecided one that was pending for the session, and it is marked |
| `Gate.ApprovalGate.DecideWith` | internal/agent/gate.go:251-285 | One step of the protocol: accepted if and only if the registered wait is undecided and its kind offers the decision, and then its channel holds exactly this decision; refused, nothing changes |
| `Gate.ApprovalGate.CancelWait` | internal/agent/gate.go:200-210 | Cancellation returns and publishes dismissed exactly once unless a decision was first, and then changes nothing |
| `Gate.ApprovalGate.TellSuperseded` | internal/agent/gate.go:151-154 | The superseding goroutine publishes once and puts the signal into the empty channel |
| `Gate.ApprovalGate.TakeDecision` | internal/agent/gate.go:211-239 | The waiting goroutine returns exactly the decision that was in its channel, and that decision is published exactly once, by it or by the superseder |
| `Gate.CleanupEntriesOk` | internal/agent/gate.go:155-164 | The deferred cleanup takes exactly the wait itself out of the registry, whatever else is registered |
| `TranscriptMirror.FoldGivesLiveList` | internal/context/compact.go:21-175 | After any sequence of append, supersede, elide, summarize, settle, repair, drop-last and reset, folding the published events gives the live list: same messages, order, id, role, content, elided flag, category, turn, call id, outcome and, unless the message was elided and is no tool result, the same calls and reasoning |
| `TranscriptMirror.OperateMirrors` | internal/projection/projector.go:472-554 | Every single operation keeps the projected list equal to the live one, and ids distinct |
| `TranscriptMirror.SummarizeMirrors` | internal/context/compact.go:106-139 | Removing the summarized span by the compaction event and moving the summary to second place gives the live list |
| `TranscriptMirror.RepairMirrors` | internal/agent/truncation.go:22-77 | The removals and the cleared calls that a repair publishes rebuild the repaired list, calls included |
| `TranscriptMirror.DropLastMirrors` | internal/session/registry.go:815-834 | Dropping the last message is rebuilt from its removal event |
| `TranscriptMirror.AppendMirroredExactly` | internal/projection/projector.go:472-500 | An append is mirrored if and only if the message is not a summary or the list has at most one message |
| `CompactionEffects.SupersedeEffect` | internal/context/compact.go:21-57 | Of the original list alone: exactly the results that a later result of this turn covers become stubs, each made with its own call's arguments; a change is reported if and only if there is one |
| `CompactionEffects.ElideOldEffect` | internal/context/compact.go:69-104 | Old eligible results become stubs from the front, exactly as many as bring the used tokens down to the target, or all; the last four results and everything else stay, and the returned tokens are what is left |
| `CompactionEffects.SettleEffect` | internal/context/compact.go:141-175 | Exactly the selected un-elided user and assistant messages become the pointer |
| `CompactionEffects.SupersedeAnnounces` | internal/context/compact.go:21-67 | What is published: one update with the new content and tokens for each message that changed, then one compaction event listing exactly their ids in that order; nothing if nothing changed |
| `CompactionEffects.ElideOldAnnounces` | internal/context/compact.go:69-104 | The same of the elision of old results |
| `CompactionEffects.SettleAnnounces` | internal/context/compact.go:141-175 | The same of settling |
| `CompactionEffects.RepairEffect` | internal/agent/truncation.go:22-77 | A repair happens if and only if some message cannot be rendered, and takes the last such message; the new list is the old one in order, in which that message is missing if its content is blank and has lost its calls otherwise, and any other message is missing if and only if it is the tool result of one of its calls, and unchanged otherwise |
| `CompactionEffects.CoversMeans` | internal/context/compact.go:21-57 | One result covers an earlier one if and only if both are visible successful reads or both visible successful searches, the later one is of this turn, and its call supersedes the other call |
| `CompactionEffects.CallForMeans` | internal/context/compact.go:187-196 | A result is judged by the arguments of the first call in the list with its call id, and by none exactly when there is no such call |
| `CompactionEffects.OldMeans` | internal/context/compact.go:60-104 | A message may be elided as old if and only if it is not elided, of the category files, results or fetched, no failure, and not one of the last four full tool results |
| `SessionMessages.ChatSession.SupersedeReads` | internal/context/compact.go:21-57 | The nested loops over a copy give the specified list and events, stored only if something changed; the session stays where its operations have brought it |
| `SessionMessages.ChatSession.RecentIndexes` | internal/context/compact.go:69-85 | Exactly the last four un-elided tool results are spared |
| `SessionMessages.ChatSession.ElideOldResults` | internal/context/compact.go:69-104 | Eligible old results are elided from the front until the target is met, with the tokens left |
| `SessionMessages.ChatSession.SummarizeOlder` | internal/context/compact.go:106-139 | All but the first and the last six messages become the summary, when that saves tokens |
| `SessionMessages.ChatSession.SettleSpan` | internal/context/compact.go:141-175 | Exactly the listed settleable messages are replaced by the pointer |
| `SessionMessages.ChatSession.FindUnrenderable` | internal/agent/truncation.go:22-45 | The backward search returns the last message that cannot be rendered, or none exactly when there is none |
| `SessionMessages.ChatSession.RepairMalformedToolCall` | internal/agent/truncation.go:22-77 | The repaired list, as CompactionEffects.RepairEffect describes it, and the events published for it |
| `SessionMessages.ChatSession.Mirrored` | internal/session/session.go:505-597 | After any sequence of calls, folding everything the session published gives its message list |
| `CompactToFit.CompactDecreases` | internal/agent/run.go:1008-1029 | With token counts a fixed function of content, an accepted compaction strictly decreases (open eligible results, messages, tokens) lexicographically |
| `CompactToFit.ElideDecreases` | internal/context/compact.go:69-104 | A changing elision has strictly fewer un-elided eligible results and the same number of messages |
| `CompactToFit.SummarizeDecreases` | internal/context/compact.go:106-139 | A changing summary makes the triple strictly smaller |
| `CompactToFit.RetryEnds` | internal/agent/run.go:308-316 | No infinite sequence of message lists consists of accepted compactions only |
| `CompactToFit.SummarizeMeans` | internal/context/compact.go:106-139 | A summary is accepted if and only if there are more than seven messages and it has fewer tokens than the span it replaces; then the first message, the summary and the last six remain, and the compaction event lists the span in order; a rejected one is reported as such |
| `CompactToFit.CompactMeans` | internal/agent/run.go:1008-1029 | Old results are elided; on overflow the first offered summary that saves tokens then replaces all but the first and the last six; a change is reported exactly when one of the two happened |
| `RunLoop.Run` | internal/agent/run.go:208-541 | The loop stops in the first round that gives a reason, with that reason; it has sent exactly the requests of the rounds that send one, executed exactly the calls of the answered, untruncated rounds before the last and, of the last, those before a cancellation, and retried exactly the truncated ones. For fixed limits: at most MaxTurns requests plus one after a retried truncated call, at most MaxToolCalls executed calls, every request within the context window with the output floor granted, and the loop ends, compact-and-retry and repair included |
| `RunLoop.ReasonsMean` | internal/agent/run.go:208-541 | For each of the eleven reasons, exactly when a round ends the run with it; and a run goes on exactly after a first repair, a changing compaction, a first truncated call with a name, or a turn of tools within all limits |
| `RunLoop.RoundMeans` | internal/agent/run.go:208-541 | What a round that goes on changes: executed calls, requests, retries, the call being retried and the message list |
| `RunLoop.CountsMean` | internal/agent/run.go:208-541 | The counts after any number of rounds that went on are the sums over those rounds |
| `RunLoop.SendTestIsExact` | internal/agent/run.go:1045-1059 | The test before sending holds if and only if guarded prompt and max_tokens fit n_ctx with max_tokens at least min(4096, n_ctx) |
| `RunLoop.LimitIsLargest` | internal/agent/run.go:1053-1059 | max_tokens is the largest number that fits the window behind the prompt and does not exceed both the reserve and the floor |
| `RunLoop.GuardIsTight` | internal/agent/run.go:1045-1051 | An estimated prompt is counted as the least whole number that is 10% above it, an exact one as it is |
| `Budget.SplitGroup` | internal/agent/budget.go:397-407 | Every share but the last is its rounded proportional part and the last takes what is left; so the shares add up to the group, every share but the last is within half a token of proportional, and the last within half a token per other share |
| `Budget.RoundedDrift` | internal/agent/budget.go:398-403 | Rounding errors accumulate to at most half a token for each rounded share |
| `Budget.LastShareCanBeNegative` | internal/agent/budget.go:399-402 | Two tokens over four equal messages are split as one, one, one and minus one |
| `Budget.LastShareNegativeIff` | internal/agent/budget.go:399-402 | The last share is negative if and only if the rounded shares before it exceed the group |
| `Budget.LastShareNotNegative` | internal/agent/budget.go:399-402 | It is never negative in a group of at most two messages, nor when twice the group's tokens times the last weight reach the total weight once for each other message |
| `Budget.FindGroupEnd` | internal/agent/budget.go:354-364 | The end of a tool-call group, or none exactly when results are missing |
| `Budget.MeasureMessages` | internal/agent/budget.go:351-409 | Fails exactly on an incomplete group; otherwise every group's growth is split over its messages as above, and every category holds what it held before plus what the messages of that category were given |
| `Budget.ChargeGroup` | internal/agent/budget.go:404-407 | Each share is charged to its own message's category |
| `Budget.MeasureExact` | internal/agent/budget.go:263-419 | The used tokens are at least those of the final render, and equal if and only if no prefix render shrank |
| `Budget.GrowthTelescopes` | internal/agent/budget.go:365-373 | The non-negative growths add up to the whole growth if and only if renders never shrink |
| `Budget.ChargeTotal` | internal/agent/budget.go:404-419 | Charging a category raises the sum over the categories by the same amount |
| `Budget.PrefixCategoriesAre` | internal/agent/budget.go:290-301 | Every part of the system prompt is charged with what it adds to the render, never less than nothing |
| `Pointer.RoundTrip` | internal/projection/projector.go:876-878 | The browser's unescaping, in the order of section 4 of RFC 6901, undoes the escaping for every key |
| `Pointer.OtherOrderLosesKeys` | web/js/bus.js:114 | The other order does not |
| `Pointer.EscapeInjective` | internal/projection/projector.go:876-878 | Different keys have different tokens |
| `Pointer.PathRoundTrip` | web/js/bus.js:114 | Splitting and unescaping a built path gives its tokens back |
| `Patch.KeyedPathsDiffer` | internal/projection/projector.go:830-875 | The path of an entry, its text or its reasoning tells the key and the part |
| `Patch.ApplyDiff` | internal/projection/projector.go:774-875 | For all snapshots with distinct chat keys, applying the difference to the old snapshot gives the new one |
| `Patch.ApplyDiffTo` | web/js/bus.js:93-149 | What a patch does to any client with the same run, chat and timeline: these become the new ones, and exactly the fields that changed in the projection change |
| `Patch.ApplyRun` | internal/projection/projector.go:816-829 | Appending to the partial text, or replacing the run, gives the new run and touches nothing else |
| `Patch.ApplyChat` | internal/projection/projector.go:830-875 | Chat append, text or reasoning append to the last entry, keyed upserts or replacement give the new chat and touch nothing else |
| `Patch.ApplyFields` | internal/projection/projector.go:797-803 | Whole-field replacement changes exactly the fields that differ |
| `Patch.ApplyTimeline` | internal/projection/projector.go:804-812 | Timeline append or replacement gives the new timeline |
| `Patch.StreamingIsIncremental` | internal/projection/projector.go:804-875 | A grown partial text, a grown text or reasoning of the last entry, a new entry and a new event are each sent as one append of what is new |
| `Store.ProjectLog` | internal/projection/file.go:17-111 | The snapshot is the fold of the records before the offset; a line that is too long, an offset that is not a record boundary and one behind the durable end are refused; offset 0 means the end |
| `LiveStore.SnapshotCache.ProjectFile` | internal/projection/cache.go:25-61 | A hit returns the entry, a miss projects and remembers, a failed projection is not remembered |
| `LiveStore.ProjectionStore.Apply` | internal/projection/store.go:33-61 | Folding the next record and sending its patch is one step of the store's state machine: the store stays where its steps have brought it |
| `LiveStore.ProjectionStore.Send` | internal/projection/store.go:156-167 | In any order of walking the subscribers, every one with room gets the patch and exactly the full ones are closed |
| `Store.BroadcastMeans` | internal/projection/store.go:156-167 | A subscriber with fewer than 128 undelivered patches gets the patch and stays; a full one is closed and gets nothing |
| `LiveStore.ProjectionStore.TakeSnapshotAt` | internal/projection/store.go:122-155 | A reader who captured a durable boundary is never refused and is handed a projection not before it, nor before the applied records |
| `LiveStore.ProjectionStore.SubscribeAt` | internal/projection/store.go:92-120 | Registration and snapshot are one step of the state machine: the new subscriber is registered with an empty channel and is handed a projection not before what it captured, nor before the applied records |
| `LiveStore.ProjectionStore.TakePatch` | internal/projection/store.go:156-167 | What a client takes from its channel leads from the projection at the patch's previous cursor to the projection at its cursor |
| `StoreRuns.After` | internal/projection/store.go:33-155 | In every interleaving of writes, in-order records, readers at any captured boundary and deliveries: the live snapshot is the from-scratch projection through its cursor and not behind the applied records, cache entries are projections, every buffered patch leads from the projection at its previous cursor to that at its cursor, and every client copy is a projection through its cursor, up to the two stale fields |
| `StoreRuns.StepKeepsValid` | internal/projection/store.go:33-155 | Each kind of step keeps all of that |
| `StoreRuns.SnapshotIsProjection` | internal/projection/store.go:122-155 | A reader that captured a durable boundary is never refused and gets a projection through a boundary not before the captured one nor before the applied records, from the cache or not |
| `StoreRuns.LookupProjects` | internal/projection/cache.go:25-61 | The cache is transparent: at a durable boundary it returns the projection there and stays correct |
| `StoreRuns.PatchForEveryClient` | internal/projection/store.go:56-60 | The patch between two store states takes every client at the old projection to the new one, whatever the stale fields on either side |
| `StoreRuns.LivePatch` | internal/projection/store.go:38-60 | A record that changes the snapshot is sent as a patch to the projection just behind that record, also when a subscriber's session.created starts from the empty snapshot |
| `StoreRuns.FirstRecordMeans` | internal/projection/store.go:39-60 | A session that nobody read yet becomes live exactly with its session.created record while somebody is subscribed; every subscriber with room then gets the patch from the empty snapshot to the projection behind it |
| `StoreRuns.JoinedIsReached` | internal/projection/store.go:39-49 | A client that subscribed before the session existed is subscribed when the first record arrives |
| `StoreRuns.DeliverKeepsCopies` | web/js/bus.js:93-110 | Delivery brings a client to the projection at the patch's cursor or leaves it where it was |
| `StoreRuns.TakenIsReached` | internal/projection/store.go:123-146 | A reader gets exactly the larger of the captured and the known boundary, or the end of the log when that is byte 0 |
| `StoreRuns.TakeLinks` | internal/projection/store.go:92-94 | A snapshot keeps every subscriber's waiting patches contiguous with its copy and with the store if and only if no subscriber has a copy or the larger of the captured and the known boundary is where the store already stands |
| `StoreRuns.QuietRunNeedsNoResync` | internal/projection/store.go:92-94 | In a run of such steps no delivered patch is ever refused |
| `StoreRuns.AheadSnapshotSkipsAPatch` | internal/projection/store.go:122-146 | From every state in which a subscriber is in step with the bus: a snapshot that runs ahead of the bus makes that subscriber refuse a later patch |
| `StoreRuns.SkipIsReached` | internal/projection/store.go:95-106 | Every log with three records reaches such a state |
| `StoreRuns.PatchNotAfterCursor` | internal/projection/store.go:39-49 | From every state in which a subscriber captured two records ahead of the bus: the store can move backwards and send it a patch that ends at its own cursor |
| `StoreRuns.AheadIsReached` | internal/projection/store.go:95-106 | Every log with two records reaches such a state with its first reader |
| `StoreStale.SnapshotSaysStale` | internal/projection/store.go:134-153 | A snapshot handed out carries the stale mark and its reason exactly while the session is marked, from the cache or not |
| `StoreStale.EveryRunHonest` | internal/projection/store.go:54-74 | In every run the live snapshot of an unmarked session is unflagged, and so is the cache always |
| `StoreStale.MarkLasts` | internal/projection/store.go:54-74 | The mark lasts from the failed append, which closes every subscriber, to the next record that changes the snapshot, and no other step touches it |
| `Timeline.TimelineIsSurvivors` | internal/projection/projector.go:654-662 | After any log the timeline is exactly the stripped events since the last session.created or session.reset, minus the stream fragments later followed by a response of the same run and turn or a stop of the same run |
| `Timeline.TimelineLists` | internal/projection/projector.go:654-662 | Entry by entry: each shows one event of the log with its kind, run, turn and data and without body and raw, in log order; an event is shown if and only if no later event created or reset the session and, for a stream fragment, none answered its turn or stopped its run |
| `Timeline.DiscardStream` | internal/projection/projector.go:886-895 | The loop removes exactly the fragments of one run and turn |
| `Timeline.DiscardRunStream` | internal/projection/projector.go:897-906 | The loop removes exactly the fragments of one run |
| `Timeline.NextKeeps` | internal/projection/projector.go:294-310 | One event, of whatever kind, keeps exactly the events it neither restarts nor ends, and adds itself stripped |
| `Timeline.Project` | internal/projection/projector.go:654-662 | Record by record this is the fold |
| `HistoryLog.SessionLog.WriteRecord` | internal/events/jsonl.go:305-421 | The line is appended, the returned cursor is the boundary behind it, and the object stays where the events written have brought it |
| `HistoryLog.SessionLog.RemoveMessage` | internal/events/history.go:148-167 | A recorded message leaves records, lineage, marks and order; an unknown one changes nothing |
| `HistoryLog.SessionLog.ResolveHistory` | internal/events/history.go:180-237 | In terms of the events written: a message is returned exactly when the reference asks for no manifest and the message was appended, not removed and elided or compacted, with its original body; a manifest lists what the reachable set says, with role and flags as the events tell them |
| `History.Walk` | internal/events/history.go:188-197 | The walk with a selected set ends on every lineage, cyclic ones included, and adds only reachable ids and all that its additions list |
| `History.ClosedIsReachable` | internal/events/history.go:180-200 | What the walk selects is exactly the set of ids reachable through lineage |
| `HistoryRuns.ResolvesToOriginal` | internal/events/jsonl.go:375-446 | After any events, a reference resolves to a message if and only if it is neither latest nor a summary that stands for something, and the message was appended, not removed since, and elided or compacted; and then to the body it was appended with, read through its byte range |
| `HistoryRuns.CompactedSummaryIsUnreadable` | internal/events/history.go:180-183 | A summary compacted by a later summary is appended, not removed and compacted, and its body still cannot be read back |
| `HistoryRuns.LineageTracked` | internal/events/history.go:148-178 | After any events, a summary stands for the ids affected when it was last made, unless it was removed since |
| `HistoryRuns.RecordsTracked` | internal/events/history.go:103-124 | Exactly the appended and not removed messages are recorded, and each byte range still reads back its body however much is appended later |
| `HistoryRuns.ManifestLists` | internal/events/history.go:201-227 | In terms of the events: a manifest lists exactly the recorded messages it is about, each once, in append order, with the role each was appended with, elided if and only if an eliding update came since its last removal, compacted if and only if a summary listed it since; its root is the summary asked for or the last one made; it is refused if and only if there are none |
| `HistoryRuns.MarksTracked` | internal/events/history.go:125-178 | After any events, a message is marked elided if and only if an eliding update came since its last removal, compacted if and only if a named summary listed it since, and the latest summary is the last one made with a name |
| `HistoryRuns.RolesTracked` | internal/events/history.go:103-124 | The role kept for a message is the role it was appended with |
| `HistoryRuns.LatestSelects` | internal/events/history.go:180-200 | The latest manifest is about exactly the ids reachable from the last summary made and everything elided or compacted |
| `HistoryRuns.SummarySelects` | internal/events/history.go:180-200 | A summary's manifest is about exactly the ids reachable through recorded lineage |
| `HistoryRuns.OrderTracked` | internal/events/history.go:103-167 | The order slice holds exactly the recorded ids in the order of their first append since removal |
| `Utf8Window.WindowUtf8` | internal/tools/byte_window.go:19-58 | Backing up from the limit returns the longest run of whole characters that fits, or refuses: invalid text, past the end, inside a character, or no character fits |
| `Utf8Window.ReadServiceWindow` | internal/tools/call_service.go:498-530 | Decoding forward through a stream returns the same for every valid body, and for any body only whole valid characters |
| `Utf8Window.BothWindows` | internal/tools/call_service.go:498-530 | For every valid text, offset and limit the two agree on refusal, content, byte count, more and next offset |
| `Utf8Window.WholeIsLongest` | internal/tools/byte_window.go:38-41 | The window's end is the largest character boundary within the limit |
| `Utf8Window.BoundaryIsRuneStart` | internal/tools/byte_window.go:34-41 | In valid UTF-8 (section 4 of RFC 3629) the boundaries are exactly the bytes that are not continuation bytes, and the end |
| `Utf8Window.WidthMeans` | internal/tools/byte_window.go:19-41 | A text begins with a character of n bytes if and only if it begins with the n-byte encoding of a Unicode scalar value (section 3 of RFC 3629) |
| `Utf8Window.PagingFrom` | internal/tools/byte_window.go:8-17 | Following the next offset ends; it is never refused if and only if every character fits the limit, and then the pages concatenate to the rest of the text |
| `Utf8Window.Paging` | internal/tools/byte_window.go:8-17 | With a limit of at least four bytes the pages of any valid text concatenate to it |
| `TextDiff.Similarity` | internal/tools/edit_file.go:507-529 | The score times the two lengths together is twice the length of a longest common subsequence, for all texts small enough to compare and not both empty; 1 for two empty texts and 0 for oversized ones |
| `TextDiff.NextRow` | internal/tools/edit_file.go:516-527 | Overwriting the row in place gives the next row of the table |
| `TextDiff.RowLoop` | internal/tools/edit_file.go:515-527 | Row by row the loop arrives at the last entry of the table |
| `TextDiff.TableIsLongest` | internal/tools/edit_file.go:515-528 | The last entry of the table is the length of a longest common subsequence: one of that length exists, and none is longer |
| `TextDiff.ScoreSymmetric` | internal/tools/edit_file.go:507-529 | The score does not depend on the order of the texts |
| `TextDiff.ScoreRange` | internal/tools/edit_file.go:507-529 | The score lies in [0,1] and is 1 if and only if the texts are equal and small enough to compare |
| `TextDiff.UnifiedDiff` | internal/tools/edit_file.go:398-413 | Replacing the hunk in the old lines gives the new lines and the reversed hunk undoes it; no hunk that does so removes or adds fewer lines |
| `TextDiff.DiffTexts` | internal/tools/edit_file.go:398-413 | The same for texts split at newlines and joined again |
| `Glob.Search` | internal/tools/glob.go:182-204 | The memoised search that answers no on a revisit decides whether the pattern matches from a position, and what it newly remembers on failure are positions without a match |
| `Glob.GlobMatches` | internal/tools/glob.go:176-205 | A pattern without a slash is matched against the name, any other means what its segments mean, `**` standing for any number of path segments |
| `Glob.AnyDepthStep` | internal/tools/glob.go:195-196 | Any number of segments is none, or one more |
| `WriteConflict.AcceptedIff` | internal/tools/write_file.go:32-53 | With a strictly increasing clock and atomic calls, a write is accepted if and only if the last write recorded under its root and relative path is its own, absent, or was followed by a touch of that path by the session |
| `WriteConflict.UnreadWriteRefusedIff` | internal/session/session.go:361-369 | Among sessions with one root, a write over another session's unread write is refused if and only if no namesake of the file was read since, whatever the session read before or through other roots |
| `WriteConflict.NeverReplacesUnread` | internal/tools/write_file.go:32-66 | With one root and no namesakes, an accepted write over another session's write comes after a read of that file |
| `WriteConflict.NamesakeHidesAWrite` | internal/session/session.go:422-427 | For every pair of namesakes, reading one lets a session overwrite another session's unread write of the other |
| `WriteConflict.OtherRootIsNotSeen` | internal/session/workspace.go:21-35 | Sessions that write under different roots overwrite each other's unread writes of the same file |
| `WriteConflict.FileCoordinator.Check` | internal/tools/write_file.go:32-45 | Refused exactly when another session is the recorded writer and this one has not seen the path since |
| `WriteConflict.SeenTracksCalls` | internal/tools/write_file.go:53-60 | The last-seen map holds the stamp of the session's last read or accepted write of every path |
| `WriteConflict.FileCoordinator.Call` | internal/tools/write_file.go:97-175 | One tool call as one step; a write goes through if and only if the last write recorded under its key is its own, absent, or was followed by a touch of that path by the session |
| `WriteConflict.WritersTrackCalls` | internal/session/workspace.go:21-35 | The writer map holds the stamp of the last accepted write of every root and path |

## Left out

- Scheduler: queue positions shown to the user, agent-idle callbacks, armed detectors, message attachments and the wording of stop reasons; every scheduled session is assumed to stay registered, and the configuration to stay fixed with MaxConcurrent at least 1.
- Scheduler: the wait of Stop outside the lock is represented by a forced finish at any later time.
- Gate: the callback that DecideWith calls before it sends, and the run status written around a wait.
- Transcript: token counting, elision stubs, argument canonicalisation, the rule which of two reads supersedes the other, and the decoding of tool-call arguments are arbitrary functions; token counts, estimated flags, and the calls and reasoning of settled messages are not mirrored by the reducer and not claimed.
- RunLoop: what a model or tool does, whether the mailbox stops the run, what the guards say about the executed calls, and the message list after a turn, mailbox input included, are arbitrary inputs; between the passes of compact-and-retry no input arrives; token counts are a fixed function of content; the 10% margin is taken with exact arithmetic instead of floating point.
- Budget: rounding is exact (half up) instead of floating point; render and tokenizer errors, cost caches and the estimated mode are not modelled. A profile whose template does not take tools is the case in which every render is shifted by the tools category.
- Patch: the 48 names of whole-replaced fields are a parameter; JSON encoding is the identity; the browser's matching of entries by id or name as well as by key, and its delete operation are not modelled.
- Store: one session and one log generation; deleting a session and file errors are left out; several sessions sharing a subscriber's channel are covered by closing a subscriber at any time; a subscriber without a copy of the session starts from a snapshot it asks for, and the partial object that the browser makes of a patch for an unknown session is not modelled.
- Store.ProjectLog: does not follow a reset to the predecessor generation, and takes no blank lines, because the log writer of one generation writes none.
- LiveStore.ProjectionStore.Apply: does not model a record that the reducer rejects, because the records of the log are taken to be well formed.
- Store: on the records of the log, the reducer is any function whose projections have distinct chat keys and the listed fields, that ignores the two stale fields, and that starts afresh on session.created; sizing a file and reading it are one step.
- Timeline: the other fields the reducer keeps; TranscriptMirror covers the message list.
- HistoryLog.SessionLog.WriteRecord: does not model the global and the chat journal, because only the session's own log is ever read back.
- History: call manifests and the sanitising of arguments, in-memory replay bodies, and the rotation of files at a reset.
- Utf8Window: offset and limit of the stream reader are at least 1, as its caller has established; transport errors are left out.
- TextDiff: the normalisation of texts before they are compared, the text form of a diff, and the whitespace and block-anchor tiers of the edit tool.
- Glob: matching inside one path segment is an arbitrary function, and so are pattern validation and ignored directories.
- WriteConflict: the note about files changed outside the sessions, and the resolution of paths; two paths under one root have the same relative name only if they are the same file.
- HTTP handlers, the browser apart from patch application, Windows integration, the model client, shell policy, fetching, configuration and crash recovery are not part of this model.
