# Verified models of the agent runtime

This project models the concurrent and stateful core of the repository in Dafny and proves what
it is relied on for. Run `dafny verify dfyconfig.toml` to check all of it.

**The `/loop` controller** (`LoopTiming`, `LoopModel`, `LoopSafety`, `LoopTheorems`, `LoopCalls`,
`LoopEndings`, `LoopCancels`, `LoopWaits`, `LoopAccidents`, `LoopSpacing`, `LoopBudget`,
`LoopPaths`, `LoopTraces`). Create, cancel, resume, the boot replay and one driver task per loop
share a stored row and a table of driver slots. They are a step relation with one step per
`await`; the store is the guarded contract its callers rely on (each write says whether the row
moved), and a write may also fail. Bookkeeping of the past (who may tick, ticks fired, audits
written) is carried along and read by no step. `TurnLock` is the per-session lock beside it.

**The ReAct loop** (`Messages`, `History`, `Dispatch`, `DispatchSafety`, `DispatchOutcomes`,
`Ledgers`, `React`, `ReactTheorems`, `Transcripts`, `Consult`, `Truncate`, `Convert`). The model,
the summariser, the gate, the operator, the tool clients and the moment of a cancel are arbitrary.
Parallel dispatch is N interleaved machines, one per call. `React.RunInner` is the program's loop,
proved equal to a recursive run about which everything else is proved.

**The anomaly detectors** (`Baseline`, `Detectors`, `DetectorTheorems`, `Registry`). The
classes keep constant-size state; `Detectors.Alerts` says what they report about a whole stream,
by two-pass definitions. Arithmetic is over `real`, square roots are avoided by comparing squares
(`Detectors.BeyondIsScore`), timestamps are integers.

**The Agent Client Protocol server** (`AcpServer`, `AcpSafety`, `AcpTheorems`,
`AcpResponses`, `AcpCancels`): a read loop and one task per prompt turn, again one step per `await`.

**The synthesis prompt** (`Synthesis`): the printer and a parser for it.

## What the proofs found

- A `resume` that lands while the pausing driver still holds its slot leaves an active loop that
  nobody drives (`LoopTraces.ResumeBehindPausingDriverIsDropped`); this dropped arm is the only
  way there while the store works (`LoopTheorems.ActiveLoopIsDrivenIff`), and only a restart
  repairs it (`LoopTheorems.DroppedArmStrands`, `LoopTheorems.ReplayDrivesAgain`).
- Two concurrent `resume` calls can spend more than `max_ticks`: the second arms its driver with
  the tick count it read before the first one's ticks (`LoopTraces.StaleResumeOverspends`).
  Every resume that read fewer ticks than are stored when it takes effect can do so,
  given time before the expiry (`LoopBudget.StaleResumeBreaksBudget`); resume calls that do not
  overlap never do (`LoopBudget.SerialResumesKeepBudget`).
- A crash in a running tick, and a lost write of the tick count, each cost one tick beyond
  `max_ticks`, and no more than one (`LoopAccidents.BudgetOverAccidents`,
  `LoopTraces.CrashOverspends`, `LoopTraces.LostCountOverspends`).
- When the write that makes a loop `failed` after five failures is lost, the row stays active with
  no driver (`LoopTheorems.FifthFailureIsFinal`).
- The second branch of `walk_split_back_past_tool_pairs` and the strip loop of `compact` never do
  anything (`History.WalkSplitBackPastToolPairs`, `History.Compact`).
- The cap on tool results does not reach the error text of failed calls: their replies are
  bounded exactly as far as the error texts are (`Truncate.FailuresBoundedIff`,
  `Truncate.FailedResultIsUncapped`).
- A z-score detector cannot report any of its first `sigma^2 + 1` observations, whatever
  `min_count` says; an EWMA detector with alpha 0 or 1 never reports anything. The doc comment of
  `EwmaDetector` scores against the updated mean and variance; the code scores against the
  previous ones, and the model follows the code.
- The registry runs specs with a non-positive threshold that `backtest` refuses
  (`Registry.LiveWithoutBacktest`).
- The ACP server can refuse a prompt that was sent after the previous turn's response
  (`AcpTheorems.PromptAfterResponseRefused`).
- Two different goals can print the same synthesis prompt (`Synthesis.GoalIsNotRecoverable`);
  `Synthesis.PromptsAgreeIff` says exactly when.
- A reload replaces a missing `tool_call_id` by `unknown`, and quotes plain-text tool results
  (`Convert.MissingIdIsInvented`, `Convert.ReloadIsIdentityIff`).

## Model

| member | source | states |
|---|---|---|
| `LoopTiming.BackoffDoubles` | crates/xiaoguai-api/src/loops.rs:721-724 | Each further failure doubles the wait, saturating at the 32-bit ceiling; beyond five failures it stays put. |
| `LoopTiming.DelayBounds` | crates/xiaoguai-api/src/loops.rs:726-752 | For every valid pacing and every request, however large, negative or non-finite: the wait is at least one second and fits 32 bits, a failing tick never waits less than the interval, a dynamic request lands in the window, and fixed pacing ignores requests. |
| `LoopTiming.DelayIs` | crates/xiaoguai-api/src/loops.rs:721-752 | And exactly: a request inside the window is taken at its whole seconds, one beyond it at the nearer bound, a NaN or infinite one at the lower; the first failure doubles the interval and each further one the wait, up to the breaker and the 32-bit ceiling, whatever is asked for. |
| `LoopSafety.StepKeepsInv` | crates/xiaoguai-api/src/loops.rs:347-642 | Every step of every concurrent actor (create, cancel, resume, each driver, the clock, a crash, the boot replay) keeps who owns the right to tick, the slot discipline, the audit accounts and the budget accounts. |
| `LoopSafety.RunKeepsInv` | crates/xiaoguai-api/src/loops.rs:347-642 | So does every interleaving of any length, from any state that has them. |
| `LoopTheorems.TerminalIsFinal` | crates/xiaoguai-api/src/loops.rs:347-393 | From the moment a row is terminal, in every continuation: it never changes, all drivers together fire at most one more tick (even one armed after the cancel), and each driver takes at most eight more steps. |
| `LoopCancels.CancelTakesEffect` | crates/xiaoguai-api/src/loops.rs:347-393 | In every run a cancel whose write finds the loop living cancels the row, and else changes nothing; when it then signals, the slot is freed and every driver task that has not finished is told, and asleep or in its turn it can leave without another tick. |
| `LoopCalls.RowChanges` | crates/xiaoguai-storage/src/repositories/loops.rs:342-426 | In every run only a successful write changes the row: an end or a pause its status and nothing else, a resume keeps the tick count and clears the failures, a driver writes its own counts and only to an active row; a terminal row is never touched. |
| `LoopCalls.CreateAtOnce` | crates/xiaoguai-api/src/loops.rs:222-330 | A create nobody interferes with: an active row without ticks and a driver in the slot, one interval ahead. |
| `LoopCalls.CancelAtOnce` | crates/xiaoguai-api/src/loops.rs:347-393 | A cancel nobody interferes with, from every reachable state with a living loop: the row is cancelled and else as it was, the slot is free, one entry is audited, and every driver task that has not finished is told, and nothing else about it changes. |
| `LoopCalls.ResumeAtOnce` | crates/xiaoguai-api/src/loops.rs:402-471 | A resume nobody interferes with: the row is active with its tick count, no failures and its next tick one interval ahead, and a new driver goes on from there, unless the slot is still held. |
| `LoopCalls.RefusedCallChangesNothing` | crates/xiaoguai-api/src/loops.rs:347-456 | A cancel that finds the loop ended, and a cancel or resume whose write fails, leave the whole state as it was; a resume of a loop that is not paused takes no step. |
| `LoopCalls.ReplayAtOnce` | crates/xiaoguai-api/src/loops.rs:199-215 | The boot replay of an expired active row closes it as exhausted, audited once, with no driver; of a row that is not active it does nothing. |
| `LoopTheorems.AuditedOnce` | crates/xiaoguai-api/src/loops.rs:852-886 | In every run the terminal transition is audited at most once and never before it happened; without a crash it is audited exactly once as soon as the actor that made it has run on. |
| `LoopTheorems.OneDriver` | crates/xiaoguai-api/src/loops.rs:459-494 | No two drivers of a loop ever both run; while the loop lives at most one driver task exists and it is the one the slot names. |
| `LoopTheorems.ActiveLoopIsDrivenIff` | crates/xiaoguai-api/src/loops.rs:402-471 | Once the boot replay is done and as long as no store write has failed since the latest boot, an active loop has a running driver or a call about to arm one if and only if no arm has been dropped since that boot. |
| `LoopTheorems.ReplayDrivesAgain` | crates/xiaoguai-api/src/loops.rs:189-213 | A crash ends both exceptions: a boot replay that reads an active row before its expiry gives it a driver again, armed from the stored counts, whatever happened before. |
| `LoopTheorems.ArmDroppedOnlyBehindPause` | crates/xiaoguai-api/src/loops.rs:919-957 | On a living loop an arm is dropped only while the driver that paused it still holds its slot. |
| `LoopTheorems.DroppedArmStrands` | crates/xiaoguai-api/src/loops.rs:459-471 | The step that drops the arm of an active loop strands it: no run from there without a crash gives the loop a driver again or fires a tick; it stays active until it is cancelled. |
| `LoopTraces.ResumeBehindPausingDriverIsDropped` | crates/xiaoguai-api/src/loops.rs:402-471 | That exception is reachable: a trace from creation to an active loop with no driver, without crash or failed write. |
| `LoopTheorems.TickBudget` | crates/xiaoguai-api/src/loops.rs:505-592 | In every run without a crash or a failed write, conservation over any number of pauses and resumes: ticks fired plus ticks still allowed is max_ticks plus what stale resumes gave back on balance; so never more than max_ticks when no resume was stale. |
| `LoopAccidents.BudgetOverAccidents` | crates/xiaoguai-api/src/loops.rs:888-914 | In every run at all, crashes and failed writes included: at most max_ticks ticks are fired, one more for each crash and for each lost write of the tick count before a pause or a close, and what stale resumes gave back. The stored count lags by no more than that and the tick in progress, and by no tick in progress once the loop is done or exhausted. |
| `LoopTraces.CrashOverspends` | crates/xiaoguai-api/src/loops.rs:505-592 | The crash costs it: a trace with one crash in a running tick fires one tick more than max_ticks. |
| `LoopTraces.LostCountOverspends` | crates/xiaoguai-api/src/loops.rs:888-914 | So does the lost write: a trace without a crash in which the count of a pausing tick is lost and the loop resumed fires one tick more than max_ticks. |
| `LoopTheorems.ResumeKeepsBudgetIff` | crates/xiaoguai-api/src/loops.rs:402-456 | In a run without a crash or a failed write and with nothing given back by earlier resumes on balance, the ticks fired and still allowed after a resume stay within max_ticks if and only if its call read at least as many ticks as are stored when its write takes effect. |
| `LoopBudget.StaleResumeBreaksBudget` | crates/xiaoguai-api/src/loops.rs:402-456 | And the other half over runs: from every reachable state in which a resume that read fewer ticks than are stored is about to take effect, with time left before the expiry and no ticks taken away by earlier resumes on balance, some continuation without a crash or a failed write fires more than max_ticks ticks. |
| `LoopBudget.SerialResumesKeepBudget` | crates/xiaoguai-api/src/loops.rs:402-456 | What an operator can check: in every run in which no two resume calls overlap, however often the loop is paused and resumed, at most max_ticks ticks are fired and one for each crash and each lost tick count; so at most max_ticks without a crash or a failed write. |
| `LoopTraces.StaleResumeOverspends` | crates/xiaoguai-api/src/loops.rs:402-456 | The other case is reachable: two concurrent resumes, a budget of two ticks, three ticks fired, no crash and no failed write. |
| `LoopTheorems.NoTickAfterExpiry` | crates/xiaoguai-api/src/loops.rs:511-544 | In every run, crashes included, no tick starts at or after expires_at. |
| `LoopEndings.TicksAreMetered` | crates/xiaoguai-api/src/loops.rs:516-533 | With a token budget, whenever a driver wakes for a tick, in any run at all, the latest answer to its usage query since its latest budget check failed or was below the budget. |
| `LoopEndings.EndsAsDecided` | crates/xiaoguai-api/src/loops.rs:505-613 | From the step at which a driver of a living loop finds a reason to end it (ticks, time or tokens spent, the session gone, the agent done, the fifth failure), in every continuation without a crash: it never wakes or starts a turn again; if it closes the row, the row says that reason; and once it has left the row is closed, unless one of its writes failed. |
| `LoopEndings.EveryEndHasItsReason` | crates/xiaoguai-api/src/loops.rs:347-642 | In every run at all a row that is closed was cancelled by a call, or expired at a boot replay, or closed by a driver that had that very reason at some step of the run. |
| `LoopTheorems.FifthFailureIsFinal` | crates/xiaoguai-api/src/loops.rs:606-613 | In every run the stored failure count is at most four. In every run without a crash, after five failures without a success, pause or resume the row is failed, or cancelled by an operator, or the driver is one store write away from failed, or that write was lost and the row stays active with nobody to tick it. |
| `LoopTheorems.FifthFailureStopsTicks` | crates/xiaoguai-api/src/loops.rs:600-613 | And from there no continuation without a crash fires another tick, even if that last write is lost. |
| `LoopTheorems.SkippedTicksAreFree` | crates/xiaoguai-api/src/loops.rs:535-604 | Over every run without a crash, ticks used are attempts made, less those that found the session busy or gone, less the one in progress; an attempt that finds it busy leaves the row and the failure count alone. |
| `LoopSpacing.TicksAreSpaced` | crates/xiaoguai-api/src/loops.rs:594-642 | With valid pacing, without a crash, a failed write or a stale resume, any two ticks start at least the pacing's gap apart (the interval, or the lower bound of a dynamic window if that is less), so at least a second; skipped and failed ones included, whatever cadence the agent asks for and however often the loop is paused and resumed. |
| `LoopWaits.WakesWhenDue` | crates/xiaoguai-api/src/loops.rs:537-642 | After a tick that keeps the loop going, in every continuation without a crash, a driver asleep can wake exactly from the time on that the tick has set: the agent's own cadence after a tick that passed, the plain one after a skipped tick, the backoff after a failed one. |
| `LoopBudget.SerialTicksAreSpaced` | crates/xiaoguai-api/src/loops.rs:594-642 | The same in every run without a crash or a failed write in which no two resume calls overlap. |
| `TurnLock.CancelRegistry.TryBeginTurn` | crates/xiaoguai-api/src/state.rs:64-88 | Starts a turn exactly when the session has none in flight, with a fresh unfired token; else changes nothing. |
| `TurnLock.CancelRegistry.Cancel` | crates/xiaoguai-api/src/state.rs:90-98 | Fires the token of the running turn and of no other, and reports whether there was one. |
| `TurnLock.Drop` | crates/xiaoguai-api/src/state.rs:125-129 | Dropping a guard frees its own session and no other. |
| `History.Slide` | crates/xiaoguai-agent/src/history.rs:27-50 | The imperative trim equals its specification, for every window including 0 (unbounded). |
| `History.SlidParts` | crates/xiaoguai-agent/src/history.rs:27-50 | A slide by at least 1 keeps all system messages, in order, before the trimmed tail. |
| `History.TrimCut` | crates/xiaoguai-agent/src/history.rs:27-50 | The trimmed tail is the longest suffix of at most window messages that is empty or starts with a non-tool message, if and only if the tail does not both fit already and start with a tool reply (then it stays as it is). |
| `History.LongestCleanCutUnique` | crates/xiaoguai-agent/src/history.rs:27-50 | That description fixes the cut uniquely. |
| `History.SlideIdempotent` | crates/xiaoguai-agent/src/history.rs:27-50 | Sliding twice is sliding once, for every list and window. |
| `History.SlideCompose` | crates/xiaoguai-agent/src/history.rs:27-50 | Sliding by a and then by b, with 1 <= b <= a, is sliding by b. |
| `History.SlideKeepsPairing` | crates/xiaoguai-agent/src/history.rs:12-50 | A conversation whose tool calls and replies are paired is still paired after any slide. |
| `Messages.CutSafeIff` | crates/xiaoguai-agent/src/history.rs:19-50 | A paired tail may be cut at an index if and only if the message there is not a tool reply. |
| `History.WalkSplitBackPastToolPairs` | crates/xiaoguai-agent/src/history.rs:217-242 | The two-branch walk lands on the greatest index not above the start that is not a tool reply; its second branch is never taken. |
| `History.WalkedBackIsGreatest` | crates/xiaoguai-agent/src/history.rs:213-242 | The specified cut is at most the start, does not sit on a tool reply, and everything between is a tool reply. |
| `History.Compact` | crates/xiaoguai-agent/src/history.rs:128-194 | The imperative compaction equals its specification, for any summariser; the final strip loop removes nothing. |
| `History.CompactedShape` | crates/xiaoguai-agent/src/history.rs:128-194 | A successful compaction keeps all system messages, adds one that names how many messages it stands for and ends with the summariser's text, keeps the tail from the split on verbatim, at least keep_recent messages; split is the greatest index at most len - keep_recent that is not a tool reply, or len when keep_recent is 0. |
| `History.CompactsWhen` | crates/xiaoguai-agent/src/history.rs:137-194 | A compaction that asks the summariser asks it about exactly the messages before that split, and succeeds if and only if it gets a text that is not blank; else it falls back. |
| `History.NotCompactedShape` | crates/xiaoguai-agent/src/history.rs:128-194 | Otherwise no system message changes; nothing is lost when there is nothing to do, and a fallback is a slide by keep_recent + 1. |
| `History.CompactKeepsPairing` | crates/xiaoguai-agent/src/history.rs:128-194 | Whatever the summariser does, pairing survives, and exactly the successful compactions add one system message. |
| `History.CompactGivesUpIff` | crates/xiaoguai-agent/src/history.rs:137-158 | Compaction gives up without asking the model if and only if the tail fits keep_recent, or everything between its first message and the cut is tool replies. |
| `DispatchSafety.EventOrder` | crates/xiaoguai-agent/src/react.rs:417-686 | In every complete interleaving: all Started events first, all Finished events last, both in input order, each Finished with its own call's outcome, and nothing but suspension events between. |
| `DispatchSafety.InvokedOnlyWhenApproved` | crates/xiaoguai-agent/src/react.rs:476-658 | At any moment of any interleaving a client was invoked at most once for a call, and only for an index below 32, a tool of the toolbox, and after the gate or the operator allowed it. |
| `DispatchSafety.CallsExplained` | crates/xiaoguai-agent/src/react.rs:476-658 | At the end of every interleaving each call took the path that its index, the gate, the operator and the toolbox call for; its client was invoked if and only if it is within the limit, approved and in the toolbox; its outcome is ok exactly when the client said so. |
| `DispatchOutcomes.OutcomesTold` | crates/xiaoguai-agent/src/react.rs:476-686 | Every call of a complete dispatch comes back, and is reported as finished, with what its client returned, read off the steps of the run: a success with its output and no error, a tool error with its text as output and error, a transport error with its message. A call that reached no client has no output and an error that ends with the gate's or the operator's own reason, or says it timed out, was dropped, was cancelled, is over the limit or is not in the toolbox. |
| `DispatchOutcomes.SuspensionsTold` | crates/xiaoguai-agent/src/react.rs:500-640 | In every run each suspension event is about a call that its gate suspended, and each resolution carries what its operator decided: an approval exactly when he allowed, a timeout exactly when he did not decide. |
| `DispatchOutcomes.CancelWins` | crates/xiaoguai-agent/src/hotl_gate.rs:270-291 | No operator is heard once the run is cancelled, and no wait ends as cancelled before. |
| `DispatchSafety.SuspensionsResolved` | crates/xiaoguai-agent/src/hotl_gate.rs:270-291 | Suspensions are never resolved more often than announced on any prefix of the log; without a cancel each announcement is resolved; one that is not belongs to a wait that the cancel ended. |
| `DispatchSafety.OneGateCheckPerCall` | crates/xiaoguai-agent/src/react.rs:476-500 | A plain gate is asked exactly once for each of the first 32 calls and never for the rest. |
| `DispatchSafety.ConsultIsReadOnly` | crates/xiaoguai-agent/src/consult_gate.rs:82-126 | Under a consult gate, in every complete interleaving: a call outside the read-only set never reaches a client or the inner gate, fails, and within the limit is reported to the observer, if there is one, exactly once; one inside it is put to the inner gate, if there is one, exactly once within the limit and never beyond. |
| `DispatchSafety.NeverStuck` | crates/xiaoguai-agent/src/react.rs:417-686 | From every reachable state of a dispatch there is a way to its end: no interleaving deadlocks. |
| `Ledgers.DispatchAccounts` | crates/xiaoguai-agent/src/react.rs:476-658 | Every complete dispatch leaves a ledger that accounts for its calls: each invocation with the branch that let it through, no call invoked more often than it was asked for within the limit, the gate checks and the denial notices as multisets of calls. |
| `React.CollectModelTurn` | crates/xiaoguai-agent/src/react.rs:215-254 | The streaming loop equals its specification on every reply of the backend, a refused call and its error event included. |
| `React.CollectedTurn` | crates/xiaoguai-agent/src/react.rs:215-254 | A turn is collected exactly when the stream never broke; its text is the concatenation of the emitted deltas, none of them empty; its calls are those of the last chunk marked done. |
| `React.RunPass` | crates/xiaoguai-agent/src/react.rs:319-406 | One pass of the imperative loop equals its specification on every exit. |
| `React.RunInner` | crates/xiaoguai-agent/src/react.rs:309-407 | The whole imperative loop equals the recursive run, for every model, gate, schedule and cancellation. |
| `Transcripts.PassTold` | crates/xiaoguai-agent/src/react.rs:309-406 | One pass, whatever the model does: it stops unasked when the run is cancelled or out of iterations; fails with the model's error when that refuses or its stream breaks; else appends all the text it streamed with the calls of its last done chunk, goes on exactly when that asks for tools and the run is not cancelled by then, answers call k with the rendering of the outcome that is reported for it, and emits the text, then all that the dispatch reported, then the iteration mark. |
| `Transcripts.FinalAnswer` | crates/xiaoguai-agent/src/react.rs:378-388 | The last message of a completed run is an answer without calls whose content is all the text streamed since the previous iteration mark. |
| `Transcripts.RunStops` | crates/xiaoguai-agent/src/react.rs:318-392 | Why a run stopped, read off its transcript: an answer without calls completed it; calls left unanswered, or else a fired token at the top, cancelled it; only a run out of iterations says so. |
| `Transcripts.RequestIs` | crates/xiaoguai-agent/src/react.rs:329-376 | The history sent: compacted if and only if compaction is on and the estimate exceeds its percentage of the context, in exact arithmetic up to the 64-bit saturation; else slid. |
| `ReactTheorems.PassRequests` | crates/xiaoguai-agent/src/react.rs:321-378 | Each pass makes one model call, on the trimmed history, or none. |
| `ReactTheorems.RequestsArePaired` | crates/xiaoguai-agent/src/react.rs:321-378 | From a paired history every request of a whole run is paired, for any mix of slide, compaction and fallback. |
| `ReactTheorems.TranscriptEndsWell` | crates/xiaoguai-agent/src/react.rs:319-406 | And the returned transcript is paired, except on a cancel between a model turn and its dispatch, where exactly the last assistant message is unanswered. |
| `ReactTheorems.RunCounts` | crates/xiaoguai-agent/src/react.rs:289-406 | At most max_iterations model calls; the reported iteration count is the number of turns collected on every exit; iteration labels are 0, 1, 2, ... without gaps; a finished run emits exactly one Done, last, and a failed run none. |
| `ReactTheorems.RunSystems` | crates/xiaoguai-agent/src/react.rs:335-377 | A run gains exactly one system message per successful compaction. |
| `ReactTheorems.RunWindow` | crates/xiaoguai-agent/src/react.rs:375-377 | Without compaction no request carries more than history_window tail messages. |
| `ReactTheorems.RunAccounts` | crates/xiaoguai-agent/src/react.rs:417-658 | Over a whole run, with any model output and gate: every call that reached a client was let through by the gate or the operator and names a tool of the toolbox, under a consult gate a read-only one; the multiset of invoked calls is contained in the within-limit calls of all dispatched turns; the gate was asked about exactly the within-limit calls it must be; the observer was told of exactly the within-limit calls outside the set, once each. |
| `ReactTheorems.ValidWorldExists` | crates/xiaoguai-agent/src/react.rs:417-686 | Whatever the model, the summariser, the cancellations and the rendering do, there are dispatch schedules that complete every turn: the run theorems are about something. |
| `Consult.Toolbox.Insert` | crates/xiaoguai-agent/src/toolbox.rs:74-87 | Refuses exactly the names that are taken and then changes nothing. |
| `Consult.Toolbox.InsertOrReplace` | crates/xiaoguai-agent/src/toolbox.rs:95-98 | The newest entry of a name wins; all others stay. |
| `Consult.Toolbox.ToSpecs` | crates/xiaoguai-agent/src/toolbox.rs:135-146 | Every registered name exactly once, in an unspecified order. |
| `Consult.ReadOnlyToolbox` | crates/xiaoguai-api/src/consult.rs:36-50 | The rebuilt catalogue is the base restricted to its read-only names, whatever order the names come in; the base is untouched. |
| `Consult.MergeActive` | crates/xiaoguai-api/src/turn.rs:667-691 | The merged catalogue equals its specification; the base is untouched. |
| `Consult.MergedIs` | crates/xiaoguai-api/src/turn.rs:655-691 | No active server takes over a name of the base, and a new name belongs to the first server that brought it. |
| `Consult.TurnToolsAre` | crates/xiaoguai-api/src/turn.rs:706-725 | A turn sees exactly the merged tools that the allowlist, if there is one, names, each as it is. |
| `Consult.LayersAgree` | crates/xiaoguai-api/src/consult.rs:24-50 | The visible toolbox and the gate's allowed set name the same tools: exactly those hinted Read. |
| `Consult.ConsultTurnReach` | crates/xiaoguai-api/src/turn.rs:199-275 | Over a whole consult turn, for any model output, servers, allowlist and inner gate: each call that reaches a client is of a tool hinted Read by the entry that owns its name, allowlisted, and the boot catalogue's own where that has one; and the inner gate, or the operator it referred to, let that very call through. |
| `Consult.ConsultRunAsks` | crates/xiaoguai-agent/src/consult_gate.rs:82-126 | Over a whole run under the wrapped gate: the inner gate is asked about every within-limit call to a Read tool, once each, and about nothing else; the observer is told of every other within-limit call, once each, and of nothing else. |
| `Consult.GateIsEnough` | crates/xiaoguai-api/src/consult.rs:1-11 | The gate alone has that effect, whatever toolbox the model is shown. |
| `Consult.CatalogueIsEnough` | crates/xiaoguai-api/src/consult.rs:1-11 | So does the narrowed toolbox alone, whatever the gate. |
| `Consult.ConsultDispatch` | crates/xiaoguai-agent/src/consult_gate.rs:82-126 | Per call of any dispatch under the wrapped gate: what reaches the client, the inner gate and the observer, and how often. |
| `Truncate.BoundaryIffPrefix` | crates/xiaoguai-agent/src/react.rs:721-724 | In UTF-8 text (section 4 of RFC 3629) the byte test finds exactly the ends of the prefixes that are themselves text. |
| `Truncate.TruncateOnCharBoundary` | crates/xiaoguai-agent/src/react.rs:717-726 | Returns the longest prefix that is text of at most max bytes, loses at most three bytes against max, and reports truncation exactly when something was dropped. |
| `Truncate.TruncatesCodePoints` | crates/xiaoguai-agent/src/react.rs:714-726 | On any string: whole code points are kept, and the next one would not have fitted. |
| `Truncate.EncodeIsText` | crates/xiaoguai-agent/src/react.rs:714-726 | Every string of code points is encoded to bytes that the well-formedness table accepts. |
| `Truncate.CapToolResult` | crates/xiaoguai-agent/src/react.rs:729-740 | A text that fits comes back unchanged, a longer one as its longest fitting prefix and the marker; the result is text again. |
| `Truncate.CappedIsBounded` | crates/xiaoguai-agent/src/react.rs:706-740 | The capped result is determined by the text, at most 96000 bytes plus the marker, and the text itself up to 96000 bytes. |
| `Truncate.ToolContent` | crates/xiaoguai-agent/src/react.rs:742-758 | The reply content for every outcome: success capped (or the placeholder), failure as the error object with the capped text. |
| `Truncate.TruncationIsTold` | crates/xiaoguai-agent/src/react.rs:706-740 | A shortened result names, behind the kept prefix, the cap and the full length. |
| `Truncate.SuccessIsBounded` | crates/xiaoguai-agent/src/react.rs:742-748 | Whatever a successful call returns, its reply is never empty and at most 96000 bytes plus the marker. |
| `Truncate.FailureBounds` | crates/xiaoguai-agent/src/react.rs:749-756 | The reply of a failed call is at least as long as its error text and at most six times error text and capped output plus the printer's constant. |
| `Truncate.FailuresBoundedIff` | crates/xiaoguai-agent/src/react.rs:749-756 | So the replies to any family of failed calls have a common bound if and only if their error texts have one. |
| `Truncate.FailedResultIsUncapped` | crates/xiaoguai-agent/src/react.rs:749-756 | Over all failed calls there is none: for every bound some error text takes the reply past it. |
| `Baseline.WelfordStats.Update` | crates/xiaoguai-anomaly/src/baseline.rs:22-32 | After any updates count times mean is the sum of all values seen, and m2 the sum of their squared deviations from the mean. |
| `Baseline.WelfordStep` | crates/xiaoguai-anomaly/src/baseline.rs:22-32 | The recurrence is exact on the two-pass definitions. |
| `Baseline.TwoPass` | crates/xiaoguai-anomaly/src/baseline.rs:22-32 | What the accumulator keeps is the sum of squared deviations from the mean. |
| `Baseline.WelfordStats.GetVariance` | crates/xiaoguai-anomaly/src/baseline.rs:46-55 | The two-pass population variance of everything seen, zero below two values, never negative. |
| `Baseline.WelfordStats.GetSampleVariance` | crates/xiaoguai-anomaly/src/baseline.rs:63-73 | The two-pass sample variance, never below the population variance. |
| `Detectors.BeyondIsScore` | crates/xiaoguai-anomaly/src/detector.rs:125-133 | Comparing squares is the program's comparison of the score, and of the deviation with EPSILON, for any root of the variance and any threshold sign. |
| `Detectors.ZScoreDetector.Observe` | crates/xiaoguai-anomaly/src/detector.rs:110-156 | Reports exactly what the stream semantics says about everything observed so far, from constant-size state. |
| `Detectors.EwmaDetector.Observe` | crates/xiaoguai-anomaly/src/detector.rs:215-276 | The same for the exponentially weighted detector, scored against the previous baseline. |
| `DetectorTheorems.ScoreBound` | crates/xiaoguai-anomaly/src/detector.rs:110-133 | The squared score of the newest of n values is at most n - 1, with equality when all others agree. |
| `DetectorTheorems.ZScoreCanFireIff` | crates/xiaoguai-anomaly/src/detector.rs:110-133 | For every cool-off: some stream makes the detector report its n-th value if and only if n >= min_count, n >= 2, and the threshold is negative or n - 1 exceeds its square; for three sigmas never before the eleventh. |
| `DetectorTheorems.ZScoreSilence` | crates/xiaoguai-anomaly/src/detector.rs:110-156 | No stream that short is ever reported, whatever it holds. |
| `DetectorTheorems.AlertsAreSpaced` | crates/xiaoguai-anomaly/src/detector.rs:58-67 | The j-th and the i-th alert are at least (j - i) cool_off apart, however the timestamps are ordered. |
| `DetectorTheorems.ReportedIff` | crates/xiaoguai-anomaly/src/detector.rs:58-156 | An observation is reported, with its time, its value and the baseline it was scored against, if and only if the detector is armed, the deviation is not negligible, the score is beyond the threshold, and there was no report before or the latest is at least the cool-off ago. |
| `DetectorTheorems.OnlyCoolOffSilences` | crates/xiaoguai-anomaly/src/detector.rs:58-67 | So a crossing that is not reported has an earlier report nearer than the cool-off. |
| `DetectorTheorems.EwmaIsWeighted` | crates/xiaoguai-anomaly/src/detector.rs:226-236 | The recurrences give the exponentially weighted mean and variance of the whole stream, with weights that sum to one and are non-negative for alpha in [0, 1]. |
| `DetectorTheorems.EwmaBounds` | crates/xiaoguai-anomaly/src/detector.rs:226-236 | For alpha in [0, 1] the mean stays between the smallest and largest value seen and the variance never goes negative. |
| `DetectorTheorems.EwmaCanFireIff` | crates/xiaoguai-anomaly/src/detector.rs:185-254 | For every cool-off: some stream makes the detector report its n-th value if and only if 0 < alpha < 1, n >= 3 and n >= min_count: the end points the constructor admits make it silent forever. |
| `Registry.AnomalyRegistry.Register` | crates/xiaoguai-anomaly/src/registry.rs:108-115 | Installs a fresh detector for the spec; a refused smoothing factor panics with nothing stored. |
| `Registry.AnomalyRegistry.Deregister` | crates/xiaoguai-anomaly/src/registry.rs:117-122 | Removes spec and detector together. |
| `Registry.AnomalyRegistry.Observe` | crates/xiaoguai-anomaly/src/registry.rs:124-150 | Feeds one detector and stores and returns what it reports, with its spec, which is always there. |
| `Registry.Backtest` | crates/xiaoguai-anomaly/src/backtest.rs:96-105 | Equals the stream semantics of the spec on the points, or the validation error. |
| `Registry.LiveMatchesBacktest` | crates/xiaoguai-anomaly/src/registry.rs:108-150 | In any interleaved stream of registrations, removals and observations over many ids: what is stored for an id since its last registration is what a fresh detector of that spec reports on that id's own observations. |
| `Registry.UnregisteredIsSilent` | crates/xiaoguai-anomaly/src/registry.rs:128-137 | An id without a detector stores nothing. |
| `Registry.DeregisteredIsSilent` | crates/xiaoguai-anomaly/src/registry.rs:117-137 | From its removal on an id stores nothing, until it is registered again, whatever comes before and after. |
| `Registry.BacktestAcceptsIff` | crates/xiaoguai-anomaly/src/backtest.rs:32-89 | Back-testing accepts exactly the specs the registry admits whose threshold is positive; it blames the smoothing factor before the threshold. |
| `Registry.LiveWithoutBacktest` | crates/xiaoguai-anomaly/src/backtest.rs:32-40 | So some live behaviour has no back-test: a spec that registers, reports, and is refused offline. |
| `AcpSafety.StepKeepsInv` | crates/xiaoguai-acp/src/server.rs:62-158 | Every step of the read loop and of every turn task keeps the lock, response, update, order and shutdown accounts. |
| `AcpTheorems.OneTurnPerSession` | crates/xiaoguai-acp/src/server.rs:218-248 | At any moment at most one turn per session is in flight, and the registered sessions are exactly those with one. |
| `AcpTheorems.PromptRefusedIff` | crates/xiaoguai-acp/src/server.rs:218-248 | A prompt for a known session starts a turn if and only if none is in flight there; a refusal leaves every turn as it was. |
| `AcpTheorems.CancelHitsItsTurn` | crates/xiaoguai-acp/src/server.rs:304-314 | A cancel reaches the turn in flight of its session and no other turn. |
| `AcpCancels.CancelledIff` | crates/xiaoguai-acp/src/server.rs:126-157 | In every run a turn in flight has been cancelled if and only if a cancel for its session was read after its prompt and has taken effect, or the input has ended; one that has finished was cancelled for no other reason. |
| `AcpCancels.FinishedIsFinal` | crates/xiaoguai-acp/src/server.rs:228-250 | Every step from every reachable state leaves a finished turn alone; even its token is gone. |
| `AcpTheorems.OneResponsePerRequest` | crates/xiaoguai-acp/src/server.rs:62-158 | No line is answered twice or in place of another; when the server returns, every line that is owed a response has had exactly one, with its own id (section 5 of the JSON-RPC 2.0 specification). |
| `AcpResponses.ResponsesFit` | crates/xiaoguai-acp/src/server.rs:62-280 | Each response fits its line: the error code of its fault, the highest protocol version both sides speak, the next session name. A prompt is answered with invalid parameters if and only if no earlier line asked for its session; for any other session with the stop reason that its own turn's delegate returned if a turn of it began, and else as refused. |
| `AcpResponses.TurnsAreOfKnownSessions` | crates/xiaoguai-acp/src/server.rs:104-217 | At any moment exactly the sessions asked for so far exist, and every turn is of one that an earlier line asked for. |
| `AcpTheorems.UpdatesAreSent` | crates/xiaoguai-acp/src/server.rs:261-277 | The updates written are a prefix of those sent, in order; once the turn has answered they include all the delegate sent before it returned. |
| `AcpTheorems.UpdatesInOrder` | crates/xiaoguai-acp/src/server.rs:261-302 | An update is written before its own turn's response and after the responses of all earlier turns of its session. |
| `AcpTheorems.ShutdownCancels` | crates/xiaoguai-acp/src/server.rs:150-158 | After the end of input every turn still in flight has been cancelled, and when the server returns there is none. |
| `AcpTheorems.NewSessionsAreFresh` | crates/xiaoguai-acp/src/server.rs:109-118 | A new session never gets the name of an existing one. |
| `AcpTheorems.NeverStuck` | crates/xiaoguai-acp/src/server.rs:62-158 | From every reachable state the server can return, given that delegates return. |
| `AcpTheorems.PromptAfterResponseRefused` | crates/xiaoguai-acp/src/server.rs:243-247 | A reachable surprise: a prompt sent after the previous turn's response was received can still be refused as in flight. |
| `Synthesis.BuildSynthesisPromptWithFence` | crates/xiaoguai-api/src/orchestrate.rs:72-100 | The loop prints the specified prompt, character for character. |
| `Synthesis.SectionsRoundTrip` | crates/xiaoguai-api/src/orchestrate.rs:72-100 | With a hex token that occurs in no name and no text, the list of sections is read back exactly. |
| `Synthesis.PromptInjective` | crates/xiaoguai-api/src/orchestrate.rs:72-100 | So two different lists never print the same prompt. |
| `Synthesis.PromptsAgreeIff` | crates/xiaoguai-api/src/orchestrate.rs:72-100 | Exactly which goals and sections print one prompt: the same goal with the same sections part; or the longer goal is the shorter, the text that follows a goal, and some r, and the sections part after the shorter begins with r and that text again. |
| `Synthesis.GoalIsRecoverable` | crates/xiaoguai-api/src/orchestrate.rs:72-100 | So the prompt determines goal and sections if the text that follows a goal first occurs right behind the longer one. |
| `Synthesis.ClosingFound` | crates/xiaoguai-api/src/orchestrate.rs:42-47 | No text without the token closes its own fence: the first closing fence is the one that was put there. |
| `Synthesis.KnownTokenForges` | crates/xiaoguai-api/src/orchestrate.rs:42-47 | What the fresh token prevents: a text that contains it can print the prompt of two sections, for any names, texts and token. |
| `Synthesis.GoalIsNotRecoverable` | crates/xiaoguai-api/src/orchestrate.rs:79-98 | The other case occurs: names stand outside the fences, and for any goal, name and text there are two different goals that print the same prompt. |
| `Convert.BuildBlocks` | crates/xiaoguai-api/src/convert.rs:34-71 | The loop builds the specified blocks for every message. |
| `Convert.DomainToLlm` | crates/xiaoguai-api/src/convert.rs:77-129 | The loop rebuilds the specified message from any stored blocks, citations included. |
| `Convert.ReadsOne` | crates/xiaoguai-api/src/convert.rs:77-129 | What each stored block contributes to the rebuilt message: its text, its call, its reply and id, or nothing for a citation. |
| `Convert.ReadsApart` | crates/xiaoguai-api/src/convert.rs:77-129 | Blocks stored one behind the other are read one behind the other: texts concatenate, calls stay in order, the last reply gives the id. |
| `Convert.StoredIs` | crates/xiaoguai-api/src/convert.rs:34-71 | What is stored: a tool message as one reply, an error if and only if its content is a JSON object with an error field; any other as its text, unless empty, and its calls in order; JSON texts parsed, and what is none as a string. |
| `Convert.ReloadIsStable` | crates/xiaoguai-api/src/convert.rs:15-129 | Persist, reload, persist gives the same role and blocks as one persist, for every message. |
| `Convert.CodecExists` | crates/xiaoguai-api/src/convert.rs:34-71 | There are printers and parsers of the kind these theorems ask for: they invert on what the parser returns and on strings, which are what is stored. |
| `Convert.ReloadsAreStable` | crates/xiaoguai-api/src/convert.rs:15-129 | So does any number of reloads, also of blocks that another writer stored. |
| `Convert.ReloadIsIdentityIff` | crates/xiaoguai-api/src/convert.rs:34-139 | The message itself comes back unchanged if and only if its JSON texts are printed canonically and it carries no field its role does not use. |
| `Convert.PairingSurvives` | crates/xiaoguai-api/src/convert.rs:34-129 | Roles and call ids survive; a tail is paired after a reload if it was before, and only if, as long as tool messages carry their id. |
| `Convert.MissingIdIsInvented` | crates/xiaoguai-api/src/convert.rs:43-46 | Without its id a tool message is stored under a made-up one, and can be paired by it. |

## Left out

- LoopModel, Dispatch and AcpServer are step relations over values, not classes: their subject is the interleaving of tasks at their `await`s, which a method body, running to its end, cannot show.
- `/loop`: the fields of `create` and their validation, the one-live-loop-per-session index, `last_error` texts, final messages and the audits of create, pause and resume; a panic inside a driver; a wall clock that runs backwards. One loop id at a time: loops share nothing else.
- `/loop`: the `LoopStore` is its guarded contract, the condition and the columns of each write; SQL and its transactions are not part of this model.
- `TurnLock`: each method is one critical section of the registry's mutex; guards are dropped explicitly.
- ReAct: the rendering of an outcome into reply text is an arbitrary function there; `Truncate` models it on bytes. Token estimates, the prompt of the summariser, metrics and log lines. A dropped event receiver (events are then lost, nothing else changes).
- ReAct: the 32-bit width of the iteration counter and of `max_iterations`; the 64-bit saturation of the compaction threshold is kept.
- ReAct: the cancellation token is an arbitrary answer at each look, which includes tokens that stay fired.
- ReAct: the error event of a refused model call comes from a detached task; the model has it arrive before the event stream ends.
- Dispatch: the tool name inside one error text is quoted without escaping; the wall-clock deadline of a ticket is one of its arbitrary answers.
- Consult: audit entries of denials beyond their number; loop-control tools, which are added after the allowlist and only outside consult mode.
- Truncate.ToolContent: the JSON printer is a parameter; the lemmas need of it that it never shortens a string and at most sextuples it, up to a constant, as escaping a control character does.
- Detectors: floating-point rounding, NaN and infinity, the overflow of the 64-bit count, severities and descriptions. `EPSILON` is kept as the exact power of two.
- Registry: the action to run on an anomaly, the time-series store, schedules.
- ACP: a delegate that panics: its turn then never answers and its entry in `cancels` is never removed.
- ACP: write and read failures (a failed write ends the connection or is only logged), the contents of prompts, updates and error messages, the capability fields of `initialize`.
- AcpTheorems.NeverStuck: shows that the end can always be reached, not that a scheduler will reach it.
- Synthesis: drawing the random token; attribution labels and persona lookup.
- Convert: message ids, session ids and timestamps; JSON numbers are their literals, arrays and objects plain values; the printer and the parser are any pair that invert each other on what the parser returns and on strings.
- Left out altogether because it would only add easy members or is plumbing: HTTP routes and SSE, the command line, catalogs and wire structs, other personas and team records, the incident pipeline.
