# suiban: a verified model of its protocols and bounded algorithms

suiban is a local inference server. Its hard code is a set of small asyncio protocols, in which each stretch between two
awaits is atomic, and several in-place algorithms with bounds. This project states what that code does in Dafny and
proves properties of it for all inputs, all interleavings and all runs.

Run `dafny verify dfyconfig.toml` in this directory to check everything.

How the parts fit together:

- An algorithm that updates variables is a `method` with loops, an object whose methods update its fields is a `class`.
  Each such method is proved equal to a specification function of its inputs or of the old state; the properties the
  source promises are then proved about those functions.
- A protocol is a state machine: a `Step` datatype, an `Enabled` predicate and a `Next` (or `Apply`) function built from
  the same specification functions that the classes are proved against. A run is any sequence of enabled steps, and the
  main results are statements about every state of every run.
- A specification function is not taken at its word: what it computes is stated once more without it, in terms of the state
  before and after or of the steps of a whole run, with the numbers and texts that the source has.
- What the code cannot choose (the backend's answers, tool results, how a warm-up or a write goes, summaries,
  clocks, random tokens) is a parameter or a step, so that a result holds for every value of it.

| files | what they model |
|---|---|
| Messages, ContextGuard, InjectedBlocks, TrimLadder, TrimGuarantees, ShippedGuard | the context guard: one pass against re-estimation, what its ladder guarantees, and what goes first with the shipped headers |
| Compression, Coalescing | rolling summaries, and one leading system message |
| LoadControl, Gates, Residency | lazy loading and idle unloading, slot gates, and the protocol between clients and the reaper |
| Jobs, Config | the job manager, activity, the deferred commit, and merging of settings patches |
| AgentLoop, AgentRuns, AgentProtocol, AgentCounters, AgentTranscript | one agent run: events, conversation, usage and the repair budget, and the whole run in closed form |
| Ultra | dispatch of sub-tasks to a pool of workers |
| UndoJournal, ConfirmGate | journaled writes, undo, and single-use confirmation tokens |
| Budget, Planner, PlannerProofs, PlannerPlans | VRAM costs, the loadout planner, and its loadouts slot by slot |
| Utf8, StateFiles | byte-capped compaction and UTF-8 self-synchronisation |
| Schedules, Scheduling | next-run times and the scheduler |
| Telegram | the sliding-window rate limit and message chunking |
| Schema | the JSON schema validator against the minimal-instance generator |
| Prelude, Text | options, and splitting, joining and stripping of strings |

Places where the code does not do what its documentation or comments say, each with a concrete run and the exact condition:

- docs/memory.md:266-274 says injected blocks are trimmed first. As wired, all system messages are merged behind the mode
  prompt before the guard runs (routers/chat.py:1071-1073), so the guard never trims a block and drops user messages
  exactly when it is over the limit and has unprotected ones (`Coalescing.ShippedGuardDropsOnlyTail`; a request on which
  this happens: `Coalescing.BlockOutlivesUserMessage`).
- tools/fs.py:408-409 says an approval cannot silently undo a different edit. Edit numbers are reused, so it can
  (`ConfirmGate.ApprovalOutlivesItsEdit`); it undoes the edit it was asked for exactly when that edit's number has stayed
  in the journal since (`ConfirmGate.ApprovalMeansItsEditIff`).
- llama/load_controller.py:112-115 says keep-alive counts idle time. A job's end does not touch the timer
  (`Residency.UnloadRightAfterJob`), so the window after the last run is granted in full exactly when that was a chat or
  the timer was touched just then (`Residency.FullWindowAfterEndIff`).
- An unload is not kept off by every run that uses the loadout: imports, background tasks, chats whose stream was closed
  and cancelled jobs that are still serving are not counted (`Residency.UnloadUnderImport`,
  `Residency.UnloadUnderAbandonedChat`, `Residency.UnloadUnderCancelledJob`). A client in use is exposed exactly when no
  client at all is counted (`Residency.ExposedIffNoneCounted`); every counted one is protected (`Residency.NoUnloadUnderUse`).
- config.py:200-203 says a server on loopback has no token, and the settings are a merge of the accepted patches. Applied
  one by one, patches that open the host and close it again leave a minted token behind that they do not leave when applied
  together (`Config.TokenStaysBehind`, `Config.OpenThenClose`). The two orders always agree on everything else
  (`Config.ApplyOnceOrEach`), and on the token exactly as `Config.TokensDifferIff` says.
- With less than 8192 tokens configured, more VRAM lowers the orchestrator's context exactly when the configured context
  fits the larger card's margin but not the smaller one's (`PlannerProofs.MoreVramMoreContext`, `PlannerProofs.SmallContextWitness`).
- sched/planner.py:43-46 keeps the worker ladder monotone so that the first rung that fits is the best. With measured costs
  it need not be (`PlannerProofs.MeasuredWorkersNotCostliest`); it is for every amount of room exactly when no rung costs
  more than an earlier one, except to repeat a cost from before (`PlannerProofs.WorkersAreCostliestIff`).
- A byte cap of zero does not cap, unless the last paragraph is empty (`StateFiles.CompactionFits`).
- Undo restores a file that was not UTF-8 text only lossily; k undos restore the files exactly when what the k writes
  overwrote was text (`UndoJournal.UndosInvertWritesIffText`).
- A shutdown leaves a job queued until the next start exactly when the job had not taken its first step
  (`Jobs.ShutdownLeavesQueuedIffUnstarted`).

## Model

| member | source | states |
|---|---|---|
| ContextGuard.EnforceContextBudget | src/suiban/memory/injection.py:249-321 | The single pass with its parallel token list and running total returns, for every message list, trim order and context size, the same messages and the same report as the ladder that re-estimates everything after each drop (Reference). |
| ContextGuard.PopBlocksInPlace | src/suiban/memory/injection.py:278-292 | The pop loop over one injected message equals the reference pops, and the token list and the total still agree with a fresh estimate, also after a rewrite of the message. |
| ContextGuard.TrimTailInPlace | src/suiban/memory/injection.py:296-311 | Counting the cut first and rebuilding once drops exactly the messages the one-at-a-time reference drops; the running total equals a fresh estimate of the result. |
| ContextGuard.RebuildDropsOldest | src/suiban/memory/injection.py:300-309 | A rebuild without the first k body positions is the conversation without its k oldest non-system messages. |
| InjectedBlocks.SplitInjectedExact | src/suiban/memory/injection.py:230-246 | Head and blocks of an injected message, rendered again, are exactly its text. |
| InjectedBlocks.Reparse | src/suiban/memory/injection.py:279-283 | After a pop the rewritten message splits into the same head and exactly the remaining blocks, keeps its header, and is a strictly shorter prefix of its old text. |
| InjectedBlocks.BlocksAre | src/suiban/memory/injection.py:230-246 | The head is all before the first opening line (one that begins with <<< but not with <<<end); the k-th block runs from the k-th opening line to the next one or the end. |
| TrimLadder.GuardIsFirstFit | src/suiban/memory/injection.py:272-321 | With at most one message per header the guard walks the chain of single drops in priority order and stops at the first conversation that fits. |
| TrimGuarantees.GuardGuarantees | src/suiban/memory/injection.py:272-321 | Nothing of a higher rank is touched before every injection of a lower rank has lost all its blocks; the newest keep non-system messages and every other system message survive in order; each surviving injection is a block-boundary prefix of its original; still_over means only protected content is left. |
| TrimGuarantees.ShippedGuardGuarantees | src/suiban/memory/injection.py:54-63 | The shipped headers meet the premise (no header starts another one), so all four guarantees hold of them: order, protected messages, block-boundary prefixes, and what still_over means. |
| ShippedGuard.WhatGoesFirst | src/suiban/memory/injection.py:60-63 | By the names of the three headers, with at most one message each: a skill loses a block only when no memory block is left, project documents only when neither a memory nor a skill block is left, and a non-system message goes only when no block of the three is left. |
| ShippedGuard.ReportSays | src/suiban/memory/injection.py:258-321 | There is a report exactly when the estimate is over nine tenths of the context; it counts the blocks, injections and messages that are in the input and not in the output, and both estimates; the newest 4, 6 or 8 messages, by the size of the context, stay. |
| Compression.SplitForCompression | src/suiban/memory/compression.py:111-128 | Head, middle and tail concatenate to the list; the head is the longest run of leading non-summary system messages, the tail the adaptive window. |
| Compression.Compress | src/suiban/memory/compression.py:138-157 | Returns exactly the specified fold: nothing below the trigger or for a middle under two messages, else head, one summary message, tail. |
| Compression.FoldShrinks | src/suiban/memory/compression.py:144-157 | A fold keeps head and tail verbatim, puts one summary between them and makes the list shorter. |
| Compression.FoldsIff | src/suiban/memory/compression.py:138-146 | A fold happens if and only if at least seven tenths of the context are used, at least two messages lie between the head and the newest 4, 6 or 8, and the summarizer answers. |
| Compression.FoldIs | src/suiban/memory/compression.py:147-157 | The result is the head, one system message with the prefix and the whole reply, and the newest messages; messages_summarized is what the list lost, plus one. |
| Compression.FoldInputIs | src/suiban/memory/compression.py:146-147 | The summarizer reads the folded messages line by line, each under its role, between the transcript marks, and then the instruction. |
| Compression.OneRollingSummary | src/suiban/memory/compression.py:111-128 | Over any run of appends and folds that starts with at most one leading summary there is never more than one. |
| Compression.FoldedReachesSummarizer | src/suiban/memory/compression.py:146-150 | Every folded message, the old summary included, is contained in the text given to the summarizer. |
| Compression.SummaryIsPassedOn | src/suiban/memory/compression.py:111-150 | The text of a summary is contained in the input of the fold that folds that summary. |
| Coalescing.CoalesceShape | src/suiban/routers/chat.py:350-364 | At most one system message, in front; the non-system messages are unchanged and in order. |
| Coalescing.CoalesceIdempotent | src/suiban/routers/chat.py:350-364 | Coalescing twice is coalescing once. |
| Coalescing.CoalesceKeepsTexts | src/suiban/routers/chat.py:359-364 | Every system text is contained in the coalesced system message. |
| Coalescing.CoalesceIs | src/suiban/routers/chat.py:350-364 | The result exactly: nothing to do when at most the first message is a system one; else one system message with all system texts in order, a blank line apart, and the other messages after it. |
| Messages.EstimateExamples | src/suiban/memory/compression.py:87-98 | A quarter of the characters, rounded down, plus four for each message, and a quarter of each call's text. |
| Coalescing.CoalescedHidesInjections | src/suiban/routers/chat.py:1071-1073 | After coalescing behind a mode prompt that does not itself start like a header, no message carries an injection header. |
| Coalescing.WiredGuardTrimsNoBlocks | src/suiban/routers/chat.py:1071-1073 | As wired, for any headers that the prompt and the summary prefix are unlike, the guard drops no injected block. |
| Coalescing.ShippedGuardDropsOnlyTail | src/suiban/routers/chat.py:1071-1073 | With the shipped headers and any mode prompt: no block is ever dropped, and tail messages are dropped exactly when the prepared conversation is over the limit and has more non-system messages than are protected. |
| Coalescing.BlockOutlivesUserMessage | src/suiban/routers/chat.py:1071-1073 | A request of an injected memory block and 461 user messages, in the smallest context settings allow (2048), on which a user message is dropped while the block stays in the system message. |
| LoadControl.LoadController.State | src/suiban/llama/load_controller.py:94-101 | The reported state is ready exactly when resident with neither a warm-up nor an unload in progress, and an unload wins over everything. |
| LoadControl.LoadController.EnsureFast | src/suiban/llama/load_controller.py:122-124 | The lock-free path succeeds exactly when resident and not unloading, and then touches the idle timer. |
| LoadControl.LoadController.EnsureLocked | src/suiban/llama/load_controller.py:125-129 | Under the lock: resident after all (and touched), or the warm-up is marked. |
| LoadControl.LoadController.FinishWarm | src/suiban/llama/load_controller.py:130-137 | Success makes the loadout resident and sets the idle timer to now; failure leaves both as they were; either way the warm-up flag is cleared. |
| LoadControl.LoadController.ReapPrecheck | src/suiban/llama/load_controller.py:143-151 | Goes on exactly when resident, settled, idle and past the window. |
| LoadControl.LoadController.ReapLocked | src/suiban/llama/load_controller.py:152-161 | The second check under the lock decides whether the unload is marked. |
| LoadControl.LoadController.FinishUnload | src/suiban/llama/load_controller.py:162-168 | Only a shutdown that returned makes the loadout non-resident; the unload flag is cleared either way. |
| LoadControl.ActivityTracker.End | src/suiban/app.py:76-80 | The count goes down, never below zero, and the idle callbacks fire exactly when it is zero. |
| Gates.SlotTable.StartAll | src/suiban/llama/manager.py:167-220 | Every planned slot ends with a new, unheld gate without waiters, and with the state and notice of its launch (Started, Noted); no other slot changes. |
| Gates.StartedIs | src/suiban/llama/manager.py:167-220 | A planned slot is ready exactly when its launch went well and otherwise failed; a slot that is not planned keeps its state. |
| Gates.NotedIs | src/suiban/llama/manager.py:172-220 | Old notices stay, every failed launch adds one, and nothing else does. |
| Gates.NoticesAre | src/suiban/llama/manager.py:172-220 | The notices are the old ones and then the planned slots whose launch fails, in the order of the plan. |
| Gates.SlotTable.MarkCold | src/suiban/llama/load_controller.py:103-110 | After an unload every planned slot reads cold, except that a failed one stays failed. |
| Residency.DepthCountsRuns | src/suiban/llama/manager.py:61-76 | In every reachable state a gate's queue depth is the number of runs holding it or waiting for it, and the capacity check refuses exactly when somebody holds it and at least MAX_QUEUE others wait. |
| Residency.NoUnloadUnderUse | src/suiban/llama/load_controller.py:117-168 | In every interleaving of any number of clients and the reaper: while the loadout is loading, unloading or not resident, no counted client is past ensure_loaded; loading and unloading exclude each other; warm-ups equal completed unloads plus one if resident. |
| Residency.IdleTimerIs | src/suiban/llama/load_controller.py:112-137 | In every reachable state the idle timer stands at the last time at which ensure_loaded returned (resident at once, resident under the lock, or warmed up) or the last open chat drained, and at the boot time before the first. |
| Residency.ClientsMove | src/suiban/llama/load_controller.py:117-168 | What each client can do next in every reachable state: only the residency lock, and a gate that another run holds, ever keep one waiting, and whoever holds the lock can give it back. |
| Residency.UnloadStartsIdle | src/suiban/llama/load_controller.py:139-161 | An unload starts only when no counted run exists and the last use of the loadout (LastUse, from the steps alone) is at least the pass's window ago; in particular never within the window of a warm-up. |
| Residency.SlotsSerialize | src/suiban/llama/manager.py:40-94 | Counted clients on one slot share its current gate, which has at most one holder and whose waiting count is the number of its waiters, across every reload. |
| Residency.GatesReplacedUnused | src/suiban/llama/manager.py:167-197 | Slots and gates are replaced only in a warm-up, when no counted client is on any gate. |
| Residency.BurstWarmsOnce | src/suiban/llama/load_controller.py:125-137 | Between two unloads the loadout is warmed at most once, whatever the number of requests. |
| Residency.UnloadsAfterIff | src/suiban/llama/load_controller.py:139-161 | From every settled reachable state, an unload with a given window can start d ticks later without further activity if and only if no client is counted and the idle timer was by then last touched at least the window ago. |
| Residency.ExposedIffNoneCounted | src/suiban/llama/load_controller.py:152-161 | From every settled reachable state an unload can start under a client in use if and only if no client at all is counted; imports, background tasks, chats whose stream was closed and cancelled jobs are not. |
| Residency.UnloadUnderImport | src/suiban/routers/import_router.py:70-75 | A reachable run in which an unload starts while an import is using the loadout. |
| Residency.UnloadUnderCancelledJob | src/suiban/research/jobs.py:334-352 | A reachable run in which an unload starts while a cancelled job is still serving. |
| Residency.UnloadUnderAbandonedChat | src/suiban/routers/chat.py:770-780 | A reachable run in which an unload starts while the run behind a closed chat stream is still serving. |
| Residency.FullWindowAfterEndIff | src/suiban/llama/load_controller.py:112-115 | When a run ends, or its stream is closed, and no counted one is left, the keep-alive window is granted in full if and only if that run was a counted chat or the idle timer was touched at that very moment. |
| Residency.UnloadRightAfterJob | src/suiban/llama/load_controller.py:112-115 | A reachable run in which the loadout is unloaded at the very moment a job ends. |
| Jobs.Server.Submit | src/suiban/research/jobs.py:284-316 | Refuses with one reason while a row is active, with the other while a task is still unwinding, else adds a queued row and a scheduled task. |
| Jobs.Server.CancelJob | src/suiban/research/jobs.py:331-338 | The segment before the wait: unknown jobs are reported, terminal ones left alone; an active one becomes cancelled first and its task is cancelled after. |
| Jobs.Server.RecordTerminal | src/suiban/research/jobs.py:355-371 | The first terminal state wins; completion sets 100 percent and clears the stage; the listeners run then and commit if that made the system idle. |
| Jobs.Server.StartTask | src/suiban/research/jobs.py:373-376 | The first segment writes running unconditionally. |
| Jobs.Server.FinishTask | src/suiban/research/jobs.py:389-402 | The end of a job's coroutine records its outcome unless the row is terminal already, and retires it. |
| Jobs.Server.Shutdown | src/suiban/research/jobs.py:233-235 | The segment before the wait: every task is asked to cancel; rows are left as they are. |
| Jobs.Server.PostApply | src/suiban/routers/system.py:118-142 | Refuses a family switch during its download, defers when busy, commits now when idle; applied is true exactly when something is staged, the system is idle and the request is not refused. |
| Jobs.ApplyCommitsIff | src/suiban/routers/system.py:118-142 | From the state before: it commits, once and by the whole stage, if and only if something is staged, no chat and no job is active, and it is not a family switch during its download; a refused request changes nothing; any other leaves a commit pending if and only if something is staged and the system is busy. |
| Jobs.Server.MaybeCommitStaged | src/suiban/app.py:134-140 | Commits exactly when a commit is pending, something is staged and the system is idle. |
| Jobs.DeferredCommitsIff | src/suiban/app.py:134-140 | A deferred commit happens if and only if one is pending, something is staged, and no chat and no job is active; else nothing changes. |
| Jobs.SubmitAdmits | src/suiban/research/jobs.py:284-316 | A submission is let in if and only if every row is over and every task has ended; the new row is queued without progress. |
| Jobs.WorkShows | src/suiban/research/jobs.py:373-388 | The first segment of a task writes running whatever the row says; progress writes its stage, and its percent between 0 and 100. |
| Jobs.FirstEndWins | src/suiban/research/jobs.py:355-371 | An end of a job that is over changes nothing; else the row shows it, with 100 percent and no stage if it is a completion and as it was if not, the listeners run once more, and a commit follows exactly when it was pending and this drains the system. |
| Jobs.CancelAsks | src/suiban/research/jobs.py:331-338 | A cancel makes an active row cancelled and asks that job's task, and no other, to end; a shutdown asks every task and leaves the rows. |
| Jobs.ChatsAreCounted | src/suiban/app.py:62-80 | In every run the activity count is the number of open chats. |
| Jobs.OneJobAtATime | src/suiban/research/jobs.py:284-316 | In every reachable state at most one job is non-terminal and at most one job task is alive. |
| Jobs.TerminalIsFinal | src/suiban/research/jobs.py:355-371 | Once terminal a job keeps that state for the rest of the run (running is never written over it) and its listeners have run exactly once. |
| Jobs.BecomesTerminal | src/suiban/research/jobs.py:355-371 | In every run the only ways to a terminal state are the job's own end and a cancel, and that step fires its listeners for the first time. |
| Jobs.ActiveJobsAreServed | src/suiban/research/jobs.py:373-402 | Until a shutdown, an active job's task can still start or finish, so no row is left stuck. |
| Jobs.CompletedReadsFull | src/suiban/research/jobs.py:355-371 | A completed job reads 100 percent and no stage in every later state. |
| Jobs.ShutdownLeavesQueuedIffUnstarted | src/suiban/research/jobs.py:233-239 | In every run, once the task of a job that was active at a shutdown has ended without a cancel since, its row is still non-terminal if and only if the job had not taken its first step when the shutdown came; the next start-up fails such a row. |
| Jobs.ShutdownLeavesQueued | src/suiban/research/jobs.py:233-239 | Such a run exists: submit, shut down, drop. |
| Jobs.OrphansFail | src/suiban/research/jobs.py:192-205 | At start-up exactly the rows that are not over become failed, with stage and percent as they stand. |
| Jobs.CommitsAtIdle | src/suiban/app.py:129-145 | Settings change only into an idle system, by the whole staged patch and a server token if one is needed then, and by a request that finds it idle or by the step that drains it. |
| Jobs.PendingUntilIdle | src/suiban/app.py:134-140 | A pending commit implies something staged and a busy system; it happens exactly at the step with which the last chat or job ends, once, and not before. |
| Jobs.SettingsStayValid | src/suiban/config.py:478-511 | Whatever the interleaving, the live settings and the staged result stay valid, so a commit never fails on validation. |
| Jobs.ExposedHasToken | src/suiban/config.py:494-527 | Whatever is patched, deferred and committed when: after the first commit, or if it was so at the start, a server that is not bound to loopback never is without a token. |
| Config.AssociativeIffCompatible | src/suiban/config.py:337-345 | deep_merge is associative on three trees exactly when no path is dict, leaf, dict in a way that loses keys. |
| Config.LeafBetweenDictsBreaks | src/suiban/config.py:337-345 | A concrete dict, leaf, dict triple on which the two orders differ. |
| Config.MergeByPath | src/suiban/config.py:337-345 | Path by path: where the patch has a value it wins; where it says nothing the base's value stays, unless a value of the patch replaced a dict on the way; where it has a dict there is one. |
| Config.MergeUnit | src/suiban/config.py:337-345 | The empty dict is a unit on both sides. |
| Config.MergeIdempotent | src/suiban/config.py:337-345 | Merging the same patch again changes nothing. |
| Config.ApplyOnceOrEach | src/suiban/config.py:452-511 | When valid settings all have one shape and the schema takes any text or null as a token, then for any sequence of patches, malformed ones included, staging all and applying once, and applying after each one, accept the same patches and leave the same settings but for server.auth_token. |
| Config.TokensDifferIff | src/suiban/config.py:494-527 | Whatever tokens are drawn: applying each leaves a token and applying once none if and only if one was minted on the way and the final host is loopback; the settings are equal if and only if none was minted on the way, or one is minted at the end too and is the same text. |
| Config.MintedIff | src/suiban/config.py:494-527 | The token that applying each ends with is a minted one if and only if some staged prefix shows an exposed host without a token and no accepted patch sets the token after it: a condition on the patches and their previews. |
| Config.OpenThenClose | src/suiban/config.py:494-527 | For any settings on loopback without a token: opening the host and closing it again leaves a token when applied one by one, and none when applied together. |
| Config.TokenStaysBehind | src/suiban/config.py:494-527 | The concrete case: 127.0.0.1, then 0.0.0.0, then 127.0.0.1 again. |
| Config.CommitProtects | src/suiban/config.py:514-527 | After a commit a server that is not on loopback has a token, the one that was set if there was one; nothing else changes. |
| Config.ConformsPatch | src/suiban/config.py:337-345 | A merge that has the settings' shape was made with a patch of that shape. |
| Config.StagedStaysValid | src/suiban/config.py:452-511 | What is staged keeps the settings valid, through further staging, applying and minting. |
| Config.ConfigManager.StagePatch | src/suiban/config.py:452-470 | An empty or invalid patch changes nothing and is refused; any other one is merged into the stage. |
| Config.ConfigManager.ApplyStaged | src/suiban/config.py:478-511 | Merges the stage into the settings, clears it and mints a server token if one is needed now; without a stage nothing happens. |
| Config.ConfigManager.EnsureServerAuthToken | src/suiban/config.py:514-527 | A token is minted exactly when the server's host is a text that is not loopback and its token is missing, null or empty; it is put into server.auth_token and nothing else changes. |
| AgentLoop.Agent.RunAll | src/suiban/agent/loop.py:219-346 | The object's run leaves exactly the state of the specified run: conversation, requests, counters, usage and every emitted event. |
| AgentTranscript.RunIs | src/suiban/agent/loop.py:219-346 | A whole run in closed form: the turns that ask for tools, each answered call by call and shown to the next request, then one last completion; conversation, requests, counters, usage and every event follow from the backend's answers, the tools' outputs and which calls validate. |
| AgentTranscript.RequestsAt | src/suiban/agent/loop.py:219-222 | The i-th request of a run shows the conversation after i turns, with tools. |
| AgentTranscript.DecimalReadsBack | src/suiban/agent/loop.py:257-258 | The numbers in made-up call ids read back, so ids made up at different lengths of the conversation differ. |
| AgentLoop.Agent.RunIteration | src/suiban/agent/loop.py:220-268 | One iteration: error and malformed completions abort, a reply without calls finishes, any other reply has all its calls handled. |
| AgentLoop.Agent.RejectCall | src/suiban/agent/loop.py:270-312 | A malformed call spends the run's repair budget, or is abandoned once that is gone; one tool message either way. |
| AgentLoop.Agent.ExecuteCall | src/suiban/agent/loop.py:314-325 | A valid call settles an outstanding repair of its name, runs, and is answered by one tool message with its output and by its events. |
| AgentLoop.Agent.RunCeiling | src/suiban/agent/loop.py:327-346 | The iteration ceiling makes one last request without tools and finishes with reason length. |
| AgentRuns.TraceIsWellFormed | src/suiban/agent/loop.py:219-346 | Every run's events follow one grammar (thinking, text, call, plan, result in their places) and end in exactly one done, which carries the finish reason. |
| AgentProtocol.EveryCallAnswered | src/suiban/agent/loop.py:257-325 | Every request sent shows the given messages first and has each earlier tool call answered by exactly one tool message, in order and under its own id and name. |
| AgentCounters.OutputsReachTheModel | src/suiban/agent/loop.py:270-325 | In every run the k-th tool output among the messages after the given ones is the content the k-th executed call returned, under its id and name; the k-th repair prompt says that it is the k-th. |
| AgentProtocol.CompletionsBounded | src/suiban/agent/loop.py:219-346 | At most max_iterations requests with tools plus one without; usage is the sum over all of them; the final text is the last completion's, or the run failed. |
| AgentCounters.RepairBudget | src/suiban/agent/loop.py:261-325 | At most two repair prompts per run however calls alternate; malformed is prompts plus abandoned, abandoning starts only when the budget is spent; repaired plus outstanding never exceeds prompts; executed is calls minus malformed. |
| AgentCounters.ExecutesTheValidCalls | src/suiban/agent/loop.py:261-325 | Exactly the calls that validate are executed, once each, in the order the model asked for them. |
| Ultra.WorkersConserved | src/suiban/modes/ultra.py:589-626 | Under any schedule a worker serves one sub-task at a time and idle plus busy workers is constant. |
| Ultra.DrainExitsComplete | src/suiban/modes/ultra.py:617-626 | The drain loop leaves exactly when all sub-tasks are done and the queue is empty; then everything emitted was yielded, each sub-task had exactly one spawn followed by exactly one result, and no event belongs to anything else. |
| Ultra.YieldsInOrder | src/suiban/modes/ultra.py:597-626 | Under any schedule what was yielded is a prefix of what the steps emitted, in that order: the assignment notice if there is one, the spawn on the worker the sub-task has, then timeout and recording notices if they apply, and the result with its ok. |
| Ultra.PoolIsQueue | src/suiban/modes/ultra.py:589-611 | Under any schedule workers are handed out first in the order of the pool and then in the order in which they came back. |
| Ultra.NeverStuck | src/suiban/modes/ultra.py:589-626 | With at least one worker some step is possible until the drain loop is through. |
| Ultra.SchedulesEnd | src/suiban/modes/ultra.py:589-626 | Every schedule ends: at most nine steps per sub-task. |
| Ultra.Dispatch.StartSub | src/suiban/modes/ultra.py:599-602 | A sub-task announces its assignment problem, if any, and waits for a worker. |
| Ultra.Dispatch.TakeWorker | src/suiban/modes/ultra.py:603-604 | The first idle worker is taken and the spawn is queued. |
| Ultra.Dispatch.FinishSub | src/suiban/modes/ultra.py:605-615 | The worker goes back, then notices, result and marker are queued in this order. |
| Ultra.Dispatch.DrainOne | src/suiban/modes/ultra.py:618-625 | The oldest queue entry is yielded, or counted if it is a marker. |
| Ultra.DispatchSequential | src/suiban/modes/ultra.py:628-643 | Without workers the sub-tasks run in order, each with one spawn and then one result. |
| Ultra.SequentialIs | src/suiban/modes/ultra.py:628-643 | Without workers each sub-task emits exactly its notices, a spawn on the orchestrator and its result. |
| Ultra.SequentialInOrder | src/suiban/modes/ultra.py:628-643 | Without workers a sub-task emits everything it does before the next one starts. |
| ConfirmGate.RunsStayNumbered | src/suiban/tools/fs.py:146-164 | In every state of every run of calls the journal is strictly numbered and at most 20 entries long. |
| ConfirmGate.WriteEffect | src/suiban/tools/fs.py:233-300 | For every write, in terms of the session before: applied, its path holds exactly the content; failed half-way, its path holds exactly what was left there; every other path is untouched; the journal gains one entry with the next number and what the path read as; refused, nothing changes but the new token. |
| ConfirmGate.UndoEffect | src/suiban/tools/fs.py:367-446 | For every undo, likewise: applied, its path holds the journaled text or nothing and the entry is gone; failed half-way, its path holds what was left there and the entry stays. |
| ConfirmGate.GateEffect | src/suiban/tools/fs.py:264-285 | A presented token is spent whether or not it fits; a refusal issues one for exactly this operation; auto-confirm does neither. |
| ConfirmGate.FileHoldsLast | src/suiban/tools/fs.py:233-446 | In every run each path holds what the last write or undo that touched it left there. |
| ConfirmGate.EntriesTellBefore | src/suiban/tools/fs.py:146-164 | In every run a journal entry says what its path read as just before the write that made it. |
| ConfirmGate.UndoRestoresWhatWas | src/suiban/tools/fs.py:433-446 | In every run an applied undo makes its path read as it did just before the write it undoes, whatever happened in between. |
| UndoJournal.UndoInvertsWriteIffText | src/suiban/tools/fs.py:258-300 | One undo inverts one write, whether that succeeded or failed half-way, exactly when the overwritten file, if any, held UTF-8 text (other bytes were journaled lossily). |
| UndoJournal.UndosInvertWritesIffText | src/suiban/tools/fs.py:367-446 | For any workdir, any run of writes, whatever the failed ones leave, and any k up to 20 and the number of writes: k default undos give the file map of before the last k writes if and only if every path these wrote that existed then held UTF-8 text. |
| UndoJournal.UndosInvertWrites | src/suiban/tools/fs.py:367-446 | If the written paths held text or nothing at the start, and no failed write left other bytes, any k undos restore the files, whatever other files hold. |
| ConfirmGate.FsTools.WriteFile | src/suiban/tools/fs.py:233-300 | The write tool's whole effect: refused, denied with a new token, or journaled and then either applied or failed with anything at all left at its path. |
| ConfirmGate.FsTools.UndoEdit | src/suiban/tools/fs.py:367-446 | The undo tool's whole effect: unknown, denied with a new token, failed with anything left at its path and the entry kept, or restored and removed from the journal. |
| ConfirmGate.DeniedChangesNothing | src/suiban/tools/fs.py:264-298 | A denied call leaves files and journal as they are; every other call, even one that fails half-way, changes the file at its own path only; a failed undo keeps the journal. |
| ConfirmGate.UndoRepairsWriteIffText | src/suiban/tools/fs.py:146-149 | In every run the default undo after a write that passed the gate, refused calls in between aside, restores the file map if and only if the overwritten file, if any, held text; so it does when the write failed, whatever that left. |
| ConfirmGate.FailedUndoCanBeRepeated | src/suiban/tools/fs.py:433-444 | In every run an undo that failed half-way, repeated, has the whole effect it would have had at first. |
| ConfirmGate.AppliedOnlyOncePerDenial | src/suiban/tools/fs.py:418-432 | In every run without auto-confirm, an operation is applied only with a token that an earlier denial issued for exactly that operation and that approved nothing before. |
| ConfirmGate.NumberNamesOneEditIff | src/suiban/tools/fs.py:146-164 | In every run an edit number names the same edit at two moments if and only if it stayed in the journal in between. |
| ConfirmGate.ApprovalMeansItsEditIff | src/suiban/tools/fs.py:408-432 | In every run the edit undone with a token is the one whose undo was denied with it if and only if that edit's number stayed in the journal ever since the denial. |
| ConfirmGate.ApprovalOutlivesItsEdit | src/suiban/tools/fs.py:408-410 | A run from an empty workdir, with tokens all issued by denials, in which the token issued for undoing the creation of one file deletes another. |
| Planner.PlanLoadout | src/suiban/sched/planner.py:158-382 | The planner's loops compute exactly the specified plan. |
| Planner.WalkWorkerLadder | src/suiban/sched/planner.py:296-313 | The walk returns the first allowed rung that fits the pool, with its costs. |
| PlannerProofs.LoadoutFits | src/suiban/sched/planner.py:199-368 | Every GPU loadout fits each GPU's physical VRAM with non-negative headroom, and keeps the margin on every GPU it uses except on GPU 0 in a tight fit. |
| PlannerProofs.TightIsAnnounced | src/suiban/sched/planner.py:252-262 | The vram_tight notice is there exactly when the fit is tight. |
| PlannerPlans.OrchestrationIs | src/suiban/sched/planner.py:199-273 | The orchestrator gets the largest of the configured context, 16384 and 8192 that fits beside the utility model within the margin (1.5 GiB or 8 percent); when none does, 8192 tightly if that fits the card at all; else there is no GPU loadout. |
| PlannerPlans.CpuPlanIs | src/suiban/sched/planner.py:385-438 | The CPU loadout is planned exactly when GPU 0 is missing, under 6 GiB, or too small for the minimum; it is one orchestrator, the 27B from 16 GiB of RAM on and else the 8B, with vision only for the 27B, and it says which of the three it was. |
| PlannerPlans.SlotsAre | src/suiban/sched/planner.py:323-366 | Every slot of every GPU loadout: its port, family, GPU, context, vision, drafter, model (the utility by the tier) and VRAM as the cost of exactly that. |
| PlannerPlans.LoadoutIs | src/suiban/sched/planner.py:174-382 | Tier, families and headroom, and each notice exactly when it applies. |
| PlannerPlans.WorkersAre | src/suiban/sched/planner.py:281-313 | The chosen rung is the first allowed one that fits the room, which is a second GPU's or what GPU 0 has left within the margin. |
| PlannerPlans.RoomIs | src/suiban/sched/planner.py:281-290 | The room for workers: a second GPU less its margin; else nothing in a tight fit; else GPU 0 less its margin and the mandatory slots. |
| PlannerPlans.Plan24 | tests/test_planner.py:174-188 | 24 GB: 27B at 32768, 4B, two 8B, 5676 MiB headroom, no notice. |
| PlannerPlans.Plan16 | tests/test_planner.py:189-202 | 16 GB: 27B at 32768, 4B, one 4B worker. |
| PlannerPlans.Plan12 | tests/test_planner.py:203-216 | 12 GB: the 1-bit family, 27B at 32768, 4B, one 8B worker. |
| PlannerPlans.Plan8 | tests/test_planner.py:217-234 | 8 GB: the 1-bit family, 27B at 8192 in a tight fit, 1.7B, no workers. |
| PlannerPlans.PlanTwoGpus | tests/test_planner.py:235-249 | 24 GB and 8 GB: 27B and 4B on the first GPU, an 8B and a 4B worker on the second. |
| PlannerPlans.PlanTwoSmallGpus | tests/test_planner.py:250-264 | Twice 8 GB: the tight fit of 8 GB, and two 8B workers on the second GPU. |
| PlannerProofs.LoadoutShape | src/suiban/sched/planner.py:323-366 | Orchestrator, utility and workers in this order, on consecutive ports, one family, existing GPUs, and the workers of the chosen rung. |
| PlannerProofs.AnalyticLadderDescends | src/suiban/sched/planner.py:43-55 | With analytic costs the rungs never get costlier down the ladder, for any context and KV types. |
| PlannerProofs.WorkersAreCostliestThatFit | src/suiban/sched/planner.py:292-313 | With any measured costs: if no allowed rung costs more than an earlier one (except to repeat a cost from before), no allowed rung that fits costs more than the chosen one. |
| PlannerProofs.AnalyticWorkersAreCostliest | src/suiban/sched/planner.py:43-55 | Analytic costs always meet that premise, so the chosen workers are the costliest that fit. |
| PlannerProofs.WorkersAreCostliestIff | src/suiban/sched/planner.py:292-313 | For non-negative costs the premise is exact: the workers are the costliest allowed rung that fits beside every second GPU if and only if no rung costs more than an earlier one in that sense. |
| PlannerProofs.MeasuredWorkersNotCostliest | src/suiban/sched/planner.py:43-55 | After a low measurement of the 8B, two of them are chosen where two 4B, which cost more, fit too. |
| PlannerProofs.OrchestratorIsLargestThatFits | src/suiban/sched/planner.py:211-237 | The orchestrator gets the largest context of the ladder that fits beside the utility within the margin. |
| PlannerProofs.MoreVramMoreContext | src/suiban/sched/planner.py:211-262 | Within a tier more VRAM never loses the GPU loadout; it lowers the orchestrator context if and only if less than 8192 is configured and the configured context fits the larger card's margin but not the smaller one's. |
| PlannerProofs.SmallContextWitness | src/suiban/sched/planner.py:238-252 | With 4096 configured, an 8 GB-tier card at 7000 MiB runs 8192 tokens and at 9000 MiB only 4096. |
| PlannerProofs.MoreVramMoreWorkers | src/suiban/sched/planner.py:281-313 | On one GPU with equal contexts, more VRAM never lowers the worker rung. |
| Budget.Round | src/suiban/sched/budget.py:170-178 | Rounding is to nearest, ties to even. |
| Budget.SlotCostIs | src/suiban/sched/budget.py:159-191 | A slot costs its weights and buffers, each as measured if it was and else as estimated, the cache, which is never measured, and 645 MiB for vision and 1843 MiB for the drafter if it has them. |
| Budget.KvInMib | tests/test_budget.py:15-27 | The cache of 2048 tokens at the default types, for each model: 52, 117, 117 and 91 MiB. |
| Budget.KvByType | tests/test_budget.py:39-45 | The 27B's cache of 1024 tokens with other types: 64, 49 and 24 MiB; a tie goes to the even number. |
| Budget.LongerCostsMore | src/suiban/sched/budget.py:159-191 | A longer context never costs less, whatever was measured. |
| Budget.BudgetProvider.RecordMeasured | src/suiban/sched/budget.py:141-157 | A measurement of one part keeps the other part and all other models. |
| StateFiles.CompactOldest | src/suiban/memory/state_files.py:46-58 | The popping loop and the byte cut return exactly the specified compaction. |
| StateFiles.CompactionIsLongestAligned | src/suiban/memory/state_files.py:50-53 | When some paragraph-aligned suffix fits, the result is the longest one. |
| StateFiles.CompactionTrimsLast | src/suiban/memory/state_files.py:54-58 | When even the last paragraph overflows, the result is its longest suffix of whole characters that fits (all of it for a cap of zero). |
| StateFiles.NoLongerSuffixFits | src/suiban/memory/state_files.py:54-58 | When even the last paragraph overflows, no longer suffix of the whole text fits either. |
| StateFiles.CompactionIsSuffix | src/suiban/memory/state_files.py:46-58 | The result is always a suffix of the text. |
| StateFiles.CompactionFits | src/suiban/memory/state_files.py:46-58 | The result is within the cap exactly when the cap is positive or the last paragraph is empty (a slice of the last zero bytes is everything). |
| StateFiles.AppendKeepsAddition | src/suiban/memory/state_files.py:169-175 | An addition that fits on its own survives the append whole, at the end. |
| StateFiles.AppendIs | src/suiban/memory/state_files.py:169-175 | What an append that fits leaves, exactly: the first text as it is; else the old text without the white space at its end, a blank line, the new text without the white space around it, and a newline. |
| StateFiles.NewestSurvive | src/suiban/memory/state_files.py:1-7 | Over any run of appends to any file that is not blank: the last additions that fit the cap together stand at the end of the file, in order and in full, whatever was appended before and however much of it went. |
| StateFiles.StateFileLayer.AppendState | src/suiban/memory/state_files.py:169-175 | An append stores the compacted merge and keeps every file within the cap. |
| Utf8.CutKeepsWholeCharacters | src/suiban/memory/state_files.py:56-57 | Cutting UTF-8 bytes anywhere and decoding with errors ignored keeps exactly the whole characters after the cut (section 3 of RFC 3629). |
| Utf8.DecodeOfEncode | src/suiban/memory/state_files.py:56-57 | Decoding undoes encoding. |
| Utf8.EncodedAsInTable | src/suiban/memory/state_files.py:56-57 | Characters take one to four bytes, in the ranges and with the bytes of section 3 of RFC 3629. |
| Schedules.NextRunIsLeast | src/suiban/schedules/store.py:123-139 | The next run is the least instant strictly after the given one at which the daily or weekly cadence fires. |
| Schedules.StoredNextIsLater | src/suiban/schedules/store.py:59-65 | Truncated to its second the next run is still strictly later, and unchanged for daily and weekly cadences. |
| Schedules.StoredNextRun | src/suiban/schedules/store.py:123-139 | What is stored, for every cadence: an interval's n minutes later without the fraction of a second; else the first instant after the moment that has the time of day, and the weekday if there is one. |
| Schedules.WeeklyExamples | tests/test_schedules.py:82-96 | From Tuesday 2026-07-21 10:00: Friday 9:00 is in three days, Monday in six, Tuesday 9:00 in seven, Tuesday 23:00 the same day. |
| Schedules.DailyAndIntervalExamples | tests/test_schedules.py:72-102 | A daily time that is just now is the next day's; an interval adds its minutes; the limits of what a cadence may hold. |
| Scheduling.Scheduler.TickAt | src/suiban/schedules/runner.py:102-115 | A tick launches exactly the enabled, due schedules with nothing in flight. |
| Scheduling.Scheduler.RunImmediately | src/suiban/schedules/runner.py:117-128 | An unknown or running schedule is refused, any other is launched. |
| Scheduling.NoOverlap | src/suiban/schedules/runner.py:102-160 | Over all runs of the scheduler no schedule has two runs in flight. |
| Scheduling.RunsAre | src/suiban/schedules/runner.py:102-161 | Every step of every run: a tick gives each due idle schedule one new task and a run-now its schedule; a task ends once; its callback clears the entry of that task and of no other. |
| Scheduling.RowsTell | src/suiban/schedules/runner.py:137-161 | In every reachable state a row shows the cadence and the switch it was last given, when its last recorded run finished, and the next run of that cadence after the moment at which it was last created, given a cadence, switched on or run. |
| Scheduling.TickFires | src/suiban/schedules/runner.py:102-115 | A tick fires a schedule exactly when it is enabled, due and not running. |
| Scheduling.NotRefiredEarly | src/suiban/schedules/runner.py:137-161 | A recorded run is not fired again by a tick before its recomputed time. |
| Telegram.TelegramRelay.RateLimitOk | src/suiban/gateways/telegram.py:159-170 | The pruning loop decides and records exactly as the sliding-window specification. |
| Telegram.NeverMoreThanLimit | src/suiban/gateways/telegram.py:159-170 | For any history with a non-decreasing clock every 60-second window holds at most the limit of a chat's accepted messages. |
| Telegram.RefusedIffWindowFull | src/suiban/gateways/telegram.py:159-170 | With a positive limit a message is refused exactly when the last 60 seconds already hold that many; without one none is. |
| Telegram.CutPoint | src/suiban/gateways/telegram.py:73-77 | The cut is the last paragraph break in the second half of the window, else the last line break there, else the window. |
| Telegram.ChunkMessage | src/suiban/gateways/telegram.py:67-82 | Every chunk is non-empty and fits, the chunks are the specified cuts, and only whitespace is lost. |
| Telegram.ChunksAre | src/suiban/gateways/telegram.py:67-82 | The chunks follow each other through the text: each cut is at the preferred place, and what lies between two chunks is exactly the white space around their cut. |
| Schema.Validate | src/suiban/tools/schema.py:28-74 | The errors are exactly the faults of the instance, each with the path of the value that has it (its type, or else its enum, bounds, lengths, missing and unexpected properties, inside known properties and items too); there are none exactly when the declarative satisfaction predicate holds. |
| Schema.NoFaultIffSatisfied | src/suiban/tools/schema.py:28-74 | A value has no fault anywhere if and only if it meets its schema. |
| Schema.TypesApart | src/suiban/tools/schema.py:18-43 | A boolean is no integer and no number, and 1.0 is no integer. |
| Schema.EqualAcrossTypes | src/suiban/tools/schema.py:45-46 | As in Python, True equals 1 and 1 equals 1.0 where an enum is searched. |
| Schema.InstanceValidIffGeneratable | src/suiban/llama/mock_server.py:39-63 | The generated minimal instance validates exactly for the well-formed schemas: required within properties, satisfiable bounds and lengths, first enum value typed. |

## Left out

- Telegram.RefusedIffWindowFull: clock values are real numbers without floating-point rounding.
- ContextGuard.EnforceContextBudget: the fraction 0.9 of the context is the exact rational, rounded down, and headers are represented by their opening words; the trim order is a parameter, and ShippedGuard states what follows for the shipped one.
- Compression.Compress: the summarizer is any function of its input, so stripping of its reply and its latency are part of that function; the reported trigger percentage is not modelled.
- Residency.UnloadStartsIdle: time is a whole number of ticks; the end of a job is no use of the loadout, because it does not touch the timer.
- Residency.SlotsSerialize: nothing is claimed about clients that are not counted (imports, background tasks, chats whose stream was closed, cancelled jobs that are still unwinding), and the queue limit is no invariant because the capacity check and the join are separate steps.
- Gates.SlotTable.StartAll: how a launch goes is a parameter; its health wait, its VRAM measurement and the attention-layer probe with its notice are left out, and the residency protocol takes each slot as a step of its own.
- Jobs.Server.CancelJob: the bounded wait for the cancelled task before the answer is left out, so nothing is claimed about how long a task unwinds; until it has, submissions are refused.
- Jobs.Server.Shutdown: awaiting the cancelled tasks and clearing the task table afterwards are left out; the tasks' ends are steps of their own.
- Jobs.TerminalIsFinal: one process lifetime; rows of earlier processes are failed at start-up without listeners.
- Jobs.Server.ReportProgress: the suppression of repeated progress reports is not modelled; stage and percent of a cancelled row may still be overwritten, its state may not.
- Jobs.CommitsAtIdle: provider refresh and connector re-sync after a commit are left out, as are settings written outside the stage (gateway pairing).
- Config.ConfigManager.StagePatch: validation is an abstract predicate on settings trees, and its coercion of scalars is left out; lists and scalars are leaves that merge wholesale; files on disk are left out.
- Config.ConfigManager.EnsureServerAuthToken: which hosts are loopback is a parameter; the host that start-up can pass in place of the configured one is left out.
- AgentLoop.Agent.ExecuteCall: clipping and fencing of tool output in the conversation, and the texts of notices, are left out.
- AgentLoop.Agent.RunIteration: a completion whose message is null or whose fields have unexpected types, which raises outside the loop's own handling, is not modelled.
- Ultra.DrainExitsComplete: planning and its cap on sub-tasks, synthesis, usage totals and the recorded transcript (assign, result and decide messages) are left out; cancellation of the whole run is left out.
- ConfirmGate.FsTools.WriteFile: a digest of the content stands for the content itself; diffs, the path jail, directory creation and overwritten files that cannot be read are left out.
- UndoJournal.UndosInvertWritesIffText: journal files that are corrupt or were edited by hand, and failures while the journal itself is written, are left out.
- Planner.PlanLoadout: VRAM sizes, contexts and the worker preference are non-negative, as telemetry and settings guarantee; the plan's time stamp and notice texts are left out.
- Budget.LongerCostsMore: sizes are exact rationals (hundredths of a GiB, sixteenths of a byte), which the code's floating-point values represent without a rounding difference at these magnitudes.
- StateFiles.StateFileLayer.AppendState: file names are taken as given (no slug rule), and identity files are left out.
- Schedules.NextRunIsLeast: the offset from UTC is fixed; daylight-saving changes are left out.
- Scheduling.NotRefiredEarly: for runs that are recorded normally and schedules that are not edited in between; runs cancelled by a shutdown record nothing.
- Schema.Validate: error texts and the order of errors are left out; numbers are integers or exact reals.
- Scheduling.RowsTell: the last session, the last error and the notification of a run are left out.
- HTTP routing, server-sent events, authentication, the command line and subprocess handling are not part of this model.
- Full-text ranking, search providers, prompt texts, catalog tables and path or network safety checks are not part of this model.
- Late subscribers to job events: the stream takes a snapshot before it subscribes, so nothing is claimed about them.
