# Verification of the conversation backend

This project models three parts of the Rust backend that share one append-only log and one
notion of a completed round, and proves what they promise.

* **Coordinator and session log.** `LoopState` consumes commands, keeps a turn queue, runs at
  most one worker and appends to one log per session; resuming a session folds its log back.
  `LoopSpec.dfy` gives its step function on values, `Transcript.dfy`, `Persistence.dfy` and
  `LoopState.dfy` the objects that are updated in place. `World.dfy` surrounds the coordinator
  with everything that can happen to it, and `WorldSteps.dfy` shows that every such action keeps
  one invariant. `Theorems.dfy`, `Runs.dfy`, `Titles.dfy`, `Commands.dfy`, `LogStarts.dfy` and
  `Traps.dfy` say what that means for whole runs; `Growth.dfy` and `ClosedEntries.dfy` what no single
  command can undo.
* **Auto-compaction.** `CompactionPlan.dfy`, `Compaction.dfy` and `Request.dfy` hold the greedy
  split, the decision sequence and the assembly of a request; the adoption of a summary is part
  of the coordinator.
* **Memory.** `MemoryService.dfy` is the service whose operations write topic files and the event
  log and update the index beside them; its invariant is that the index equals the rebuild.
  `Reconcile.dfy` and `TopicFiles.dfy` cover crashes, `Redaction.dfy` and `MemoryTraps.dfy` the purge
  and what it leaves, `Corpus.dfy` the topic-file format. `Eligible.dfy`, `Scheduler.dfy` and
  `Delivery.dfy` take completed rounds from the session logs to the extractor.

`Jsonl.dfy` covers the log files as text, `LogBytes.dfy` as bytes, and `Oneshot.dfy` the bounded
streaming accumulator.

## How runs are modelled

A run is any sequence of legal actions from an empty disk (`World.Legal`, `World.Step`): commands in
any order, with stale and duplicate settles; a worker that reports a compaction it planned from its
own job, for any tail budget and any summary text; the shutdown flag raised between two commands; and
the process ending at any moment, with a new one over the same logs. The assumptions about the
surroundings are in `World.Legal`: turn and session ids are new, results are built by one of the four
constructors, a compaction comes from the worker's own job, and a session is resumed only while
nothing is unsettled, with the turns its log restores. Storage may fail at each of the four writes of
an enqueue; other appends succeed. The history a run leaves behind (what was submitted, dropped, lost,
cancelled, folded) is recorded beside the state and read by no step.

Ids, clock readings, failing writes, the summarizer, the extractor, JSON, the content hash and the
secret scan are parameters. What is assumed of them, and where:

* `Jsonl.Codec.Faithful`, for torn logs: JSON is an injective encoding without raw control characters
  (section 7 of RFC 8259), no proper prefix of an object is complete, and an object, torn or whole, with
  another one behind it on the same line never decodes.
* `Corpus.Format.Faithful`, for topic files: a rendered header parses back, and none of its lines
  reads as a fence. Nothing is assumed of the content hash: where a result would need it to tell
  contents apart, the collision is stated as the exception.
* `TopicFiles.InPlace`, for the index: a file that can be read names the place it lies at. Every
  operation keeps this; a file moved by hand may break it. Scan and rebuild are stated without it.
* `TopicFiles.SelfHashed`: readable files carry the hash of their own content. Every operation keeps
  this too, and a file edited by hand may break it. It is a premise only of the sentence that turns a
  mistaken crash into a hash collision.
* Character boundaries are those of section 3 of RFC 3629.

## Where the code and its comments differ

* `CompactionResult::OverBudget` is described as still over budget or nothing left to fold
  (`src/chat/compaction.rs:42-43`), and the planner leaves it to a later budget check to surface an
  over-budget request (`src/chat/compaction_plan.rs:36-38`). The code refuses without such a check:
  a request between trigger and budget with nothing to fold is refused although it fits
  (`Compaction.OverBudgetExactly`, `Compaction.OverBudgetWhileFitting`).
* The trigger is described as an estimate at or above which compaction starts
  (`src/chat/compaction.rs:22-23`). At the trigger itself the request is sent as it is
  (`Compaction.OutcomesExactly`).
* Stop announces and logs every turn it drops so that it is not restored as interrupted
  (`src/conversation/state.rs:347-354`). Clear and Shutdown drop pending turns without an event
  (`Runs.DroppedSilently`); those a shutdown drops are restored as interrupted (`Runs.CutOffReplay`).
* A refused submission is taken out of the queue (`src/conversation/state.rs:148-158`). When it was the
  row update behind the appended event that failed, and only then, its entry stays in the log for good
  and comes back as an interrupted turn, though its submission failed (`Runs.RefusedReplay`,
  `Traps.RefusedTurnComesBack`).
* Reading the memory log skips bad lines so that one of them cannot discard the whole log
  (`src/memory/event_log.rs:233-236`), and a torn tail is ignored so that the prefix of a session log
  stays resumable (`src/conversation/session_log.rs:90-96`). Both files are read as text first, so a
  tear inside a multi-byte character loses all of it (`LogBytes.TornBytesRead`); every log that is not
  all ASCII can be torn that way (`Utf8Text.TornExactly`).
* A purge is to leave no purged content in the log (`src/memory/inbox.rs:307-310`). The titles of the
  proposals that led to the item stay, in the log and in the inbox (`Redaction.TitlesSurviveRewrite`,
  `MemoryTraps.TitleOutlivesPurge`). It also takes the content of an item in another scope that happens
  to have the same id (`Redaction.RewriteReachesNamesakes`).
* An extraction run is to report whether an inbox entry was created (`src/memory/scheduler.rs:41-46`).
  For a confident update whose item cannot be written it reports none, though the entry is there
  (`MemoryService.ReportedExactly`).

## Model

| member | source | states |
|---|---|---|
| `LoopState.LoopState.constructor` | src/conversation/state.rs:54-80 | A new coordinator is idle, attached to nothing, over the logs already on disk |
| `LoopState.LoopState.Handle` | src/conversation/state.rs:82-136 | One command takes the whole state to the step function's result; the loop ends exactly when it is shutting down and no turn is active |
| `LoopState.LoopState.Dispatch` | src/conversation/state.rs:83-134 | Every command arm, including the ignored Cancel of another turn |
| `LoopState.LoopState.Status` | src/conversation/state.rs:111-116 | The reply names the attached session and whether any turn is not settled |
| `LoopState.LoopState.EnqueueTurn` | src/conversation/state.rs:138-168 | Ignored while shutting down; otherwise taken in or refused, and started when nothing was active |
| `LoopState.LoopState.Submit` | src/conversation/state.rs:138-168 | Queue, config, log and the one event of a submission; tells whether to start it |
| `LoopState.LoopState.Reject` | src/conversation/state.rs:151-158 | A submission that could not be stored leaves the queue and ends with a sessionPersistence error |
| `LoopState.LoopState.EmitCurrentDelta` | src/conversation/state.rs:170-176 | Text passes only for the active turn that is not being cancelled |
| `LoopState.LoopState.Settle` | src/conversation/state.rs:178-226 | Stale settles change nothing; the active turn settles and the queue moves on; the recursion with StartActive ends because pending turns run out |
| `LoopState.LoopState.SettleActiveTurn` | src/conversation/state.rs:178-216 | The part of a settle up to its Settled event, with the cancelled result forced |
| `LoopState.LoopState.TakePendingCompaction` | src/conversation/state.rs:192-207 | The reported compaction is consumed, and adopted with its log event only on a completed settle of its own turn |
| `LoopState.LoopState.AdvanceQueue` | src/conversation/state.rs:217-225 | The first pending turn is activated and started unless the loop is ending |
| `LoopState.LoopState.StartActive` | src/conversation/state.rs:228-267 | A worker with history, summary, prompt and config of the turn, or NeedsConfiguration when no config was stored |
| `LoopState.LoopState.CompletedRoundsUncovered` | src/conversation/state.rs:282-301 | The loop collects exactly the completed rounds the summary does not cover, in order |
| `LoopState.LoopState.MaybeRequestSummary` | src/conversation/state.rs:307-331 | One more title job, or none, as the step function says; TitleRequestedExactly says when and for what |
| `LoopState.LoopState.AdoptGeneratedSummary` | src/conversation/state.rs:333-345 | A title for a session that was left is dropped |
| `LoopState.LoopState.Stop` | src/conversation/state.rs:355-380 | Every pending turn is removed, settled cancelled in its log and announced; the active turn is cancelled |
| `LoopState.LoopState.Clear` | src/conversation/state.rs:382-401 | Open turns settle cancelled in the attached log, which is then detached; only the active turn stays queued |
| `LoopState.LoopState.Shutdown` | src/conversation/state.rs:403-408 | Both shutdown flags rise and pending turns are dropped |
| `LoopState.LoopState.Resume` | src/conversation/state.rs:117-129 | Queue, numbering, summary and attachment are replaced together |
| `LoopSpec.SettleOneKeepsPending` | src/conversation/state.rs:178-226 | Settling the active turn changes no pending turn; half of the termination measure |
| `LoopSpec.ActivationLowersPending` | src/conversation/transcript.rs:161-168 | Activating takes one turn off the pending ones; the other half |
| `Transcript.Transcript.ReplaceWith` | src/conversation/transcript.rs:107-115 | Numbering continues one past the largest restored number |
| `Transcript.Transcript.Push` | src/conversation/transcript.rs:117-129 | The turn goes to the end with the next number, which is used up |
| `Transcript.Transcript.ActiveTurn` | src/conversation/transcript.rs:131-143 | The first active turn, and whether there is one |
| `Transcript.Transcript.SettleActive` | src/conversation/transcript.rs:145-159 | Only the active turn, and only under its own id, is settled |
| `Transcript.Transcript.ActivateNextPending` | src/conversation/transcript.rs:161-168 | The first pending turn becomes active |
| `Transcript.Transcript.Remove` | src/conversation/transcript.rs:171-187 | Removal by id, of pending and of settled turns keeps the others in order |
| `Persistence.SessionPersistence.EnsureSession` | src/conversation/persistence.rs:113-147 | A session starts once, with its start event in a new log; each of the two writes may fail |
| `Persistence.SessionPersistence.OnEnqueue` | src/conversation/persistence.rs:181-195 | The enqueue event goes to the current session, which then owns the turn, even when the row update behind it fails |
| `Persistence.SessionPersistence.OnSettle` | src/conversation/persistence.rs:197-203 | The settle goes to the log that owns the turn, once |
| `Persistence.SessionPersistence.OnClear` | src/conversation/persistence.rs:205-218 | Every unsettled turn is settled cancelled in the current log, then nothing is attached |
| `Persistence.SessionPersistence.AppendToCurrent` | src/conversation/persistence.rs:220-253 | Compactions and titles go to the current log, or nowhere |
| `Persistence.SessionPersistence.AttachSession` | src/conversation/persistence.rs:261-264 | Attaching forgets which session owned which turn |
| `Replay.RestoreTurns` | src/backend/sessions.rs:201-284 | Map and sort give every entry once, in number order, open ones interrupted, and the last compaction; for increasing entries that is the fold in enqueue order |
| `Replay.ResultRoundTrip` | src/conversation/persistence.rs:149-218 | Writing a result to the log and reading it back gives it unchanged exactly when one of the four constructors built it |
| `Commands.SettledLines` | src/conversation/transcript.rs:44-86 | The log line of each kind of result |
| `Replay.RoundsInterrupted` | src/backend/sessions.rs:263-281 | Interrupting open turns adds and loses no completed round |
| `QueueShape.HistoryIsUncovered` | src/conversation/state.rs:282-301 | What a turn is handed is the uncovered part of all completed rounds |
| `QueueShape.RoundsBeforeActive` | src/conversation/state.rs:138-226 | Every completed round is older than the active turn, so rounds complete in number order |
| `LogInvariant.AppendSettled` | src/conversation/persistence.rs:197-203 | A settle of an open entry keeps the log consistent and conserved and adds its round, if any, at the end |
| `LogInvariant.AppendCompacted` | src/conversation/persistence.rs:220-234 | Adopting a plan moves exactly the planned head under the summary |
| `LogInvariant.ConservedAdoption` | src/conversation/state.rs:192-207 | Heads so far, then the new head, then what stays verbatim, are still all completed rounds |
| `Attachment.SettleAttached` | src/conversation/state.rs:178-216 | A settle keeps log and live memory in agreement, whether the log owns the turn or not |
| `Attachment.RemoveAttached` | src/conversation/state.rs:355-373 | So does removing a pending turn |
| `Attachment.ClearAttached` | src/conversation/state.rs:382-401 | After a clear nothing is attached and only a cancelled active turn is left |
| `Attachment.ResumeAttached` | src/backend/sessions.rs:67-155 | A resumed session is exactly what its log says |
| `WorldSteps.StepKeeps` | src/conversation/state.rs:82-136 | Every legal command, worker report, shutdown signal and process end keeps the invariant and only extends the logs |
| `WorldSteps.RunKeeps` | src/conversation/state.rs:82-136 | So does every run |
| `Theorems.Reached` | src/conversation/state.rs:82-136 | The invariant holds after every run from an empty disk |
| `Runs.LogsOnlyGrow` | src/conversation/persistence.rs:149-264 | Over any run a log keeps its settled entries and only adds completed rounds at the end |
| `Runs.ClosedEntriesStay` | src/conversation/persistence.rs:149-264 | Once a submitted turn is not open any more, no entry of it is added, removed or changed in any log |
| `LogStarts.LogsStartOnce` | src/conversation/persistence.rs:113-147 | On every run each session log begins with its start event and holds no other one |
| `LogStarts.StartFaults` | src/conversation/persistence.rs:113-147 | What each failing write of a session start leaves: nothing, or a log with the start event alone |
| `WorldSteps.EnqueueKeeps` | src/conversation/state.rs:138-168 | The enqueue case, with all five storage outcomes |
| `WorldSteps.SettleKeeps` | src/conversation/state.rs:178-226 | The settle case, adopting or not, through the whole drain |
| `WorldSteps.StopKeeps` | src/conversation/state.rs:355-380 | The stop case; each removed turn replays cancelled |
| `WorldSteps.ClearKeeps` | src/conversation/state.rs:382-401 | The clear case, settle by settle |
| `WorldSteps.ShutdownKeeps` | src/conversation/state.rs:403-408 | The shutdown case |
| `WorldSteps.ResumeKeeps` | src/conversation/state.rs:117-129 | The resume case |
| `WorldSteps.RestartKeeps` | src/backend/sessions.rs:201-284 | A process may end at any moment; what it leaves on disk is still consistent |
| `Theorems.ReplayRefinesLive` | src/backend/sessions.rs:201-284 | On every run, reading the attached log back gives the live summary and completed rounds; settled turns come back as they are, open ones interrupted, and only an abandoned cancelled turn has no entry |
| `Runs.StoppedReplayCancelled` | src/conversation/state.rs:347-380 | A turn removed by Stop reads as cancelled from then on, in the session it was queued in |
| `Theorems.CompactionConservesLogs` | src/conversation/state.rs:192-207 | In every log of every run the completed rounds are the adopted heads followed by the verbatim ones, strictly ascending |
| `Theorems.CompactionConservesLive` | src/conversation/state.rs:282-301 | The same for live memory and the history the next turn is handed |
| `Runs.AdoptionAdvances` | src/conversation/state.rs:189-207 | An adopting settle is a completed one of a turn never cancelled and moves the boundary strictly forward over a non-empty head that was verbatim until then; any other settle keeps the summary, whatever starts next |
| `Commands.AdoptedExactly` | src/conversation/state.rs:189-207 | On every run a settle of the active turn adopts the reported summary exactly when there is one and the turn completes uncancelled |
| `Commands.ReportIsHandled` | src/conversation/state.rs:90-94 | A worker's report is the coordinator's own command |
| `Runs.SettleDrains` | src/conversation/state.rs:178-235 | The complete events of a settle: the turn's own result or Cancelled, then a refusal for each queued turn submitted without a config up to the first with one, which gets the worker; the settled turn stays queued with its result |
| `Runs.EnqueueOutcomes` | src/conversation/state.rs:138-168 | Every outcome of a submission: ignored, refused with one error event and then listed by a log exactly when it was the row update that failed, queued behind an active turn, or started; a started turn is worked on exactly when it was submitted with a config |
| `Runs.RefusedReplay` | src/conversation/persistence.rs:181-195 | On every continuation no log lists a refused submission, unless its row update failed: then exactly one session does, and brings it back as interrupted |
| `Commands.RefusalsTellWhy` | src/conversation/persistence.rs:113-195 | A refused submission says which of its four writes failed |
| `Runs.ClearedReplayCancelled` | src/conversation/persistence.rs:205-218 | A turn queued or running in a session when it was cleared reads as cancelled there from then on |
| `Runs.CutOffReplay` | src/backend/sessions.rs:263-284 | A turn dropped by Shutdown, or open in the attached session when the process ends, reads as interrupted there on every continuation |
| `Runs.StopOutcome` | src/conversation/state.rs:355-380 | Stop takes out exactly the pending turns, announces each in order, and leaves the active turn running but cancelled |
| `Commands.ShutdownIsFinal` | src/conversation/state.rs:403-413 | After a shutdown or the raised flag, until the process ends, no submission is taken in and no turn starts |
| `Runs.TextIsEmittedExactly` | src/conversation/state.rs:170-176 | Text is emitted exactly for the active turn and exactly until it was cancelled |
| `Runs.TitleRequestedOnce` | src/conversation/state.rs:307-331 | Between two clears a title is requested at most once, and never again once it was or after a resume |
| `Titles.TitleRequestedExactly` | src/conversation/state.rs:178-331 | On every run the settle of the active turn requests a title exactly when the turn completes uncancelled and none was requested; the one job holds the attached session, the turn's config, and prompt and reply of the first completed round no summary stands for |
| `Titles.OnlySettlesRequest` | src/conversation/state.rs:117-129 | No other action requests a title; a clear or a new process makes it possible again, a resume rules it out |
| `Commands.TitleIsAdopted` | src/conversation/state.rs:333-345 | A generated title is announced and logged exactly when its session is still attached |
| `Commands.StatusIsPassedOn` | src/conversation/state.rs:83-134 | A notice that a summary begins or ends is passed on and changes nothing else |
| `Theorems.QueueShapeOnRuns` | src/conversation/transcript.rs:104-199 | On every run: settled*, active?, pending*, numbers strictly increasing below the next one, and while open a pending turn waits behind an active one |
| `Runs.StartsInOrder` | src/conversation/state.rs:138-226 | Between resumes a turn that starts later has the larger number |
| `Theorems.TurnsConserved` | src/conversation/state.rs:138-226 | Every submitted turn is queued, ended by one event, dropped, or lost with a process, and in one place only; none ends twice |
| `Runs.DroppedSilently` | src/conversation/state.rs:382-408 | Clear and Shutdown drop pending turns without an event then or later |
| `Runs.CancelWins` | src/conversation/state.rs:103-110 | After Cancel, Stop or Clear of an active turn no event carries its text or any result but Cancelled, and no compaction reported for it is adopted, on every continuation |
| `Theorems.WorkerLockstep` | src/conversation/state.rs:189-267 | Counting every spawn and every join, one worker is unjoined exactly while a turn is active and none otherwise; worker and token are the active turn's own, and the token is cancelled exactly when the turn is |
| `Theorems.WorkerSeesLiveHistory` | src/conversation/state.rs:228-267 | An uncancelled worker's job still holds the live history and summary |
| `Theorems.WorkerHasItsTurn` | src/conversation/state.rs:228-276 | A worker has the active turn's prompt and the config that turn was submitted with |
| `Theorems.SettledOncePerLog` | src/conversation/persistence.rs:149-218 | In every log a turn enqueued there has one settle exactly when it reads as settled, and none otherwise |
| `Theorems.StraySettleIgnored` | src/backend/sessions.rs:230-241 | A settle for a turn the log never enqueued changes nothing that is read back |
| `Traps.ClearSettlesInAttachedLog` | src/conversation/persistence.rs:209-215 | Clear settles every open turn in the attached log; the settle is stray exactly for the abandoned turn of an earlier session |
| `Traps.TwoClearsStraySettle` | src/conversation/persistence.rs:209-215 | A run of four commands after which a newer log holds the settle of an older session's turn |
| `Traps.RefusedTurnComesBack` | src/conversation/state.rs:148-158 | A run of two commands after which a refused turn, taken out of the queue, is back in it as interrupted |
| `Growth.HandleGrows` | src/conversation/state.rs:82-136 | Events are only appended; turns keep id, number and prompt, and settled turns never change |
| `Growth.StartsBetweenFrontiers` | src/conversation/transcript.rs:161-168 | What starts lies between the old and the new frontier, which never moves back |
| `Growth.DrainRuns` | src/conversation/state.rs:217-235 | Closed form of the settle and start recursion: events, active turn and worker after the whole run of unconfigured turns |
| `ClosedEntries.HandleSpares` | src/conversation/state.rs:82-136 | One command neither opens a closed turn nor changes what any log lists under its id |
| `Request.Assemble` | src/chat/request.rs:70-97 | System message, instructions, a system message that ends with the summary's text, each uncovered round as prompt and reply, new prompt; every round of the history is there word for word or by a summary that stands for it |
| `Request.AssembledIsRequest` | src/chat/request.rs:70-104 | The same position by position, for every request that is estimated or sent |
| `Request.NothingIsLost` | src/chat/request.rs:57-60 | Whatever has that shape holds of every round its words, or the text of a summary that covers it |
| `Request.VerbatimAt` | src/chat/request.rs:85-93 | Each uncovered round is sent once, prompt directly before reply |
| `Request.UncoveredMembers` | src/chat/request.rs:57-60 | A round is left out exactly when the summary covers it |
| `TokenEstimate.RoundsAgainstMessages` | src/chat/token_estimate.rs:18-34 | Message sum is at most the round sum, and that at most the message sum plus the number of rounds |
| `TokenEstimate.EstimateConcat` | src/chat/token_estimate.rs:18-20 | Estimates add up over concatenation |
| `CompactionPlan.SplitOverUncovered` | src/chat/compaction_plan.rs:57-75 | The backward loop computes the plan of the optimal split |
| `CompactionPlan.PlanIsSplit` | src/chat/compaction_plan.rs:57-75 | The plan cuts where the tail keeps the newest round, fits the budget, and could not keep one more |
| `CompactionPlan.SplitIsUnique` | src/chat/compaction_plan.rs:57-75 | There is only one such cut |
| `CompactionPlan.SplitIsOptimal` | src/chat/compaction_plan.rs:41-75 | Head and tail are the uncovered rounds in order; the tail is the longest suffix within the budget or the newest round alone; no covered round is in the head |
| `CompactionPlan.PlanExistsExactly` | src/chat/compaction_plan.rs:36-47 | A plan exists exactly when two or more uncovered rounds exceed the tail budget |
| `CompactionPlan.AdoptionSplitsHistory` | src/chat/compaction_plan.rs:15-24 | Adopting a plan leaves exactly the tail uncovered and moves the boundary forward |
| `Compaction.ReadyFitsBudget` | src/chat/compaction.rs:65-110 | With the trigger not above the budget, whatever is sent fits it |
| `Compaction.OutcomesExactly` | src/chat/compaction.rs:65-110 | Each of the five outcomes, exactly: within the trigger sent as it is; over it cancelled, failed with the summarizer's own error, refused, or sent with the summarizer's text as new state |
| `Compaction.ReadyIsRequest` | src/chat/compaction.rs:65-110 | What is sent is a request for the state in force that loses no round of the history |
| `Compaction.ReadyConservesHistory` | src/chat/compaction.rs:82-110 | A reported compaction is this turn's plan; each uncovered round is summarized or sent verbatim, never both |
| `Compaction.AssembledEstimate` | src/chat/compaction.rs:65-76 | The estimate of a request, piece by piece |
| `Compaction.SummaryFits` | src/chat/compaction.rs:82-110 | Over budget is impossible after a summary once the fixed parts and the larger of tail budget and newest round fit |
| `Compaction.OverBudgetExactly` | src/chat/compaction.rs:82-105 | When exactly a request is refused: too little to fold, whatever the budget, or still too long after the summary |
| `Compaction.OverBudgetWhileFitting` | src/chat/compaction.rs:82-85 | With the program's own limits, a first prompt of 700000 characters in a new session fits the budget and is refused |
| `Jsonl.ParseJsonlPrefix` | src/conversation/session_log.rs:97-116 | The indexed loop with its break and its error line |
| `Jsonl.CrlfLine` | src/conversation/session_log.rs:97-104 | A line ended by CRLF reads as one ended by LF |
| `Jsonl.TornLogReads` | src/conversation/session_log.rs:90-116 | A log cut between two characters reads as exactly the events whose JSON text is complete, by both readers |
| `LogBytes.TornBytesRead` | src/conversation/session_log.rs:90-116 | A log cut at any byte: at a character boundary both readers give exactly the events whose JSON text is complete; inside a character the strict reader fails and the lenient one finds nothing |
| `Utf8Text.CutIsReadable` | src/backend/sessions.rs:204-205 | The bytes up to a cut can be read as text exactly when the cut is at a character boundary |
| `Utf8Text.ReadableIsWellFormed` | src/backend/sessions.rs:204-205 | Bytes encode some text exactly when they are well-formed UTF-8 |
| `Utf8Text.TornExactly` | src/conversation/session_log.rs:90-96 | A text can be cut inside a character exactly when it is not all ASCII |
| `Jsonl.MalformedLineIsReported` | src/conversation/session_log.rs:104-113 | A malformed line before the tail is an error at its own number |
| `Jsonl.LogFile.AppendEvent` | src/conversation/session_log.rs:56-66 | Appending to a newline-terminated log appends one event |
| `Jsonl.AppendLawExactly` | src/conversation/session_log.rs:56-66 | The append law holds exactly for newline-terminated logs; behind a torn line the event is lost and the strict reader fails |
| `Oneshot.TruncateOnBoundary` | src/chat/oneshot.rs:158-167 | The longest prefix within the bound that ends between characters |
| `Oneshot.Accumulator.Push` | src/chat/oneshot.rs:118-144 | After any chunking the text is the capped whole, and truncated says whether the whole exceeds the cap; the subtraction cannot underflow |
| `Oneshot.Accumulator.Finish` | src/chat/oneshot.rs:146-154 | The completion is a function of all text received |
| `Oneshot.LastReported` | src/chat/oneshot.rs:136-154 | Finish reason and token counts are those last reported |
| `Oneshot.StreamOneshot` | src/chat/oneshot.rs:52-105 | The first error wins; otherwise the capped whole |
| `Oneshot.PushKeepsCap` | src/chat/oneshot.rs:118-135 | One more chunk extends the capped text exactly within the cap |
| `Utf8.CappedIsLongest` | src/chat/oneshot.rs:158-167 | The cap cuts at a character boundary and no later boundary fits |
| `Utf8.BoundaryIsPrefixEnd` | src/chat/oneshot.rs:158-167 | Boundaries of well-formed UTF-8 are where a prefix is well-formed |
| `Corpus.ParseItem` | src/memory/corpus.rs:100-135 | The scan finds the fences, always ends, and takes the body as it stands |
| `Corpus.CrlfFences` | src/memory/corpus.rs:100-135 | A file whose fences end with CRLF parses as one whose fences end with LF |
| `Corpus.TopicFileRoundTrip` | src/memory/corpus.rs:76-154 | For every valid item and every body, parsing the written text gives the item with its hash filled in and matching, and writing again gives the same text |
| `Corpus.BodyIsVerbatim` | src/memory/corpus.rs:123-131 | The body is the end of the text, but for one newline |
| `Corpus.EditsShow` | src/memory/corpus.rs:71-80 | Two items that differ in anything but the stored hash have different content hashes, unless the hash function collides |
| `MemoryModel.IdsAreFileNames` | src/memory/model.rs:186-203 | A valid id is one path component without dots |
| `ItemIds.Slugify` | src/memory/index.rs:453-469 | The slug is the title's runs of letters and digits in lower case, joined by single dashes; a title that fills 80 characters is cut behind the character that filled it; empty exactly when the title has no letter or digit |
| `ItemIds.SlugIsFixed` | src/memory/index.rs:453-469 | A slug goes through unchanged |
| `ItemIds.CaseIsLost` | src/memory/index.rs:453-469 | A capital letter becomes the same small one |
| `ItemIds.NewIdIsValid` | src/memory/index.rs:441-451 | A new id is a valid file stem and never that of the generated index file |
| `MemoryLog.LatestProposalBody` | src/memory/inbox.rs:438-450 | The backward search finds the last recorded body |
| `MemoryLog.LatestIsLast` | src/memory/inbox.rs:438-450 | The body found is that of the last event for the entry, and there is none exactly when there is no such event |
| `Lifecycle.CursorIsFurthest` | src/store/memory/lifecycle.rs:128-145 | A replayed cursor is the furthest it was ever advanced to |
| `Lifecycle.SameEffectSameTables` | src/store/memory/mod.rs:75-118 | Events the projection ignores may be exchanged without changing a table |
| `Lifecycle.InboxOrigin` | src/store/memory/lifecycle.rs:66-100 | Scope, source and creation time of a replayed entry are those of its first proposal |
| `Lifecycle.InboxContent` | src/store/memory/lifecycle.rs:66-100 | Its content is that of its last proposal |
| `Lifecycle.InboxStatusIsLast` | src/store/memory/mod.rs:75-118 | Its status is the one last proposed or given by a review |
| `Lifecycle.InboxTargetIsLast` | src/store/memory/mod.rs:75-118 | Its item is the one last proposed or linked |
| `Lifecycle.CorrectionIsReplayed` | src/store/memory/lifecycle.rs:147-168 | A correction keeps the scope and time it was first recorded with and takes the last reason |
| `MemoryStore.MemoryStore.UpsertInboxEntry` | src/store/memory/lifecycle.rs:66-100 | On conflict, scope, source and creation time stay |
| `MemoryStore.MemoryStore.UpsertMemoryCursor` | src/store/memory/lifecycle.rs:128-145 | A cursor row never moves back |
| `MemoryStore.MemoryStore.UpsertMemoryCorrection` | src/store/memory/lifecycle.rs:147-168 | On conflict only the reason changes |
| `MemoryStore.MemoryStore.ProjectEvent` | src/store/memory/mod.rs:75-118 | One event's effect on the tables |
| `MemoryStore.MemoryStore.ReindexMemoryFromFiles` | src/store/memory/mod.rs:43-71 | On any files and log: one terminal for each open intent, decided by the scan, then the tables of the scan in listing order and of the log as it is afterwards; where every file lies in its place the order does not matter |
| `TopicFiles.ScanTopicItems` | src/store/memory/mod.rs:200-231 | Every readable file of some listing once, under the place its header gives, in listing order; unreadable files are skipped |
| `TopicFiles.RowsMirrorFiles` | src/store/memory/items.rs:37-54 | The index shows each readable file under its place with title, type, state, provenance and hash of its header |
| `TopicFiles.ReadsExactly` | src/memory/corpus.rs:209-230 | Why an item cannot be read, exactly, and that the readable ones are those in the index |
| `TopicFiles.ListingDoesNotMatter` | src/store/memory/mod.rs:200-231 | Where every file lies in its place, table and lookup are those of the files, whatever the listing order |
| `TopicFiles.WriteKeeps` | src/memory/corpus.rs:199-207 | Writing an item changes its own row and no other |
| `TopicFiles.RemoveKeeps` | src/memory/corpus.rs:173-180 | Removing a file removes its row and no other |
| `TopicFiles.WriteKeepsHashes` | src/memory/corpus.rs:76-96 | A written file carries the hash of its own content |
| `TopicFiles.CrashInPersist` | src/store/memory/mod.rs:176-196 | A crash inside a write counts as landed exactly when the file reads as the intended item, or the write had not happened and the earlier file already carried the intended hash; where files carry their own hash, that exception is a hash collision |
| `TopicFiles.CrashInForget` | src/store/memory/mod.rs:176-196 | A crash inside a forget counts as landed exactly when no readable active item is at the place |
| `TopicFiles.InterruptedWriteReconciles` | src/store/memory/mod.rs:123-172 | Behind the terminals due before, reconciling adds one for the interrupted write, Applied exactly when it landed or the earlier file could be mistaken for it |
| `TopicFiles.InterruptedForgetReconciles` | src/store/memory/mod.rs:123-196 | Behind the terminals due before, reconciling adds one for the interrupted forget, Failed exactly when a readable active item was there and still is |
| `Reconcile.PendingTerminals` | src/store/memory/mod.rs:123-172 | The two loops yield one terminal for each intent without one |
| `Reconcile.ReconcileSettles` | src/store/memory/mod.rs:120-172 | Afterwards every started operation has exactly one terminal event |
| `Reconcile.SettledNeedsNothing` | src/store/memory/mod.rs:120-172 | A second reconciliation adds none, whatever the files hold by then |
| `Reconcile.AppliedExactlyWhenLanded` | src/store/memory/mod.rs:145-170 | The terminal is Applied exactly when the files hold the intended result |
| `MemoryService.MemoryService.constructor` | src/memory/index.rs:83-98 | A service opens any files, log and index as they are; Reload is what makes the index right |
| `MemoryService.MemoryService.Persist` | src/memory/index.rs:381-420 | Intent, file, terminal event, row; the terminal is Applied exactly when the write succeeded, and then the file reads as the item; the index stays the rebuild |
| `MemoryService.WriteTellsTruth` | src/memory/index.rs:381-420 | Applied exactly on success, Failed exactly on failure, and a rebuild at that moment would say the same unless the earlier file was, or could be mistaken for, the item |
| `MemoryService.CleanWrite` | src/memory/security.rs:105-117 | A write brings nothing the scan blocks into files or log; every operation keeps both clean |
| `MemoryService.MemoryService.Add` | src/memory/index.rs:186-219 | Invalid, oversized and blocked texts are refused for exactly that reason and leave no trace; otherwise the log tells whether the item was written, and it reads with the given title, body and type |
| `MemoryService.MemoryService.Edit` | src/memory/index.rs:227-253 | A refused edit leaves no trace; otherwise a snapshot with the old title and body, and the item reads with the new ones |
| `MemoryService.RefusedExactly` | src/memory/index.rs:431-439 | Each reason to refuse a text, exactly, in terms of the scan and the two sizes |
| `MemoryService.ByteLengthIsEncoded` | src/memory/index.rs:431-439 | The size that is limited is that of the UTF-8 encoding |
| `MemoryService.ResolvesTo` | src/memory/index.rs:111-137 | Where an item goes for each scope, with and without a given scope id |
| `MemoryService.MemoryService.ForgetItem` | src/memory/index.rs:260-291 | Snapshot and intent, removal, terminal event, row, in this order; a failing removal leaves an intent without terminal, and the index still equals the rebuild |
| `MemoryService.ForgetKeepsPrior` | src/memory/index.rs:260-291 | The snapshot of a forgotten item holds its title, body, type and state |
| `MemoryService.MemoryService.ActivateInboxEntry` | src/memory/inbox.rs:98-149 | All refusals before any write; otherwise snapshot, item and link |
| `MemoryService.ActivatedReads` | src/memory/inbox.rs:98-149 | An activated entry is an item with the entry's title and type and the last body, linked, behind a snapshot of what it replaced; the log tells whether the write succeeded |
| `MemoryService.MemoryService.InboxApply` | src/memory/inbox.rs:65-88 | Approval activates a candidate first and stops if that fails; the entry then reads Approved, Rejected or Stale; rejection records a correction |
| `MemoryService.MemoryService.RecordExtractionOutcome` | src/memory/inbox.rs:219-283 | Nothing exactly for empty, blocked or secret-shaped outcomes; else entry, then body in the log alone, then for an update the item |
| `MemoryService.RecordedRow` | src/memory/inbox.rs:219-283 | What the inbox says of each kind of outcome, and that its body is the one last proposed |
| `MemoryService.UpdateBecomesItem` | src/memory/inbox.rs:273-281 | A confident update becomes an item with the title, body and type proposed, linked to its entry and marked as extracted from its session |
| `MemoryService.MemoryService.AdvanceCursor` | src/memory/inbox.rs:290-305 | Event and row agree, clamped to what a cursor holds |
| `MemoryService.MemoryService.Purge` | src/memory/inbox.rs:314-345 | The item is gone, no snapshot with its id and no body of a linked proposal holds content; the events changed are exactly those with content of the item or of a namesake in another scope, and the tables are unchanged |
| `MemoryService.MemoryService.Reload` | src/memory/index.rs:346-349 | From any files, log and index: the tables are those of the scan and the log; where files lie in their place and operations ended at most once the index is right; every started operation then has one terminal event; what was right or settled stays |
| `MemoryService.InterruptedWriteIsRecoverable` | src/memory/index.rs:381-420 | A crash inside a write leaves files in their place, their hashes their own, and a log in which no operation ended twice |
| `MemoryService.InterruptedForgetIsRecoverable` | src/memory/index.rs:260-291 | So does a crash inside a forget |
| `Redaction.Rewrite` | src/memory/inbox.rs:457-492 | The log is redacted event by event |
| `Redaction.RewriteIsSafe` | src/memory/inbox.rs:314-345 | After the rewrite no snapshot with the item's id and no linked proposal body holds content, events without such content stay as they are, and the log stands for the same tables and operations |
| `Redaction.RewriteReachesNamesakes` | src/memory/inbox.rs:314-332 | The rewrite goes by id alone: it changes nothing but the item's own content exactly when no item at another place with the same id has any |
| `Redaction.TitlesSurviveRewrite` | src/memory/inbox.rs:457-492 | What the rewrite leaves of an item is exactly the titles of linked proposals; nothing is left exactly when none has a title other than the marker |
| `MemoryTraps.TitleOutlivesPurge` | src/memory/inbox.rs:219-345 | A run of two operations, a confident update and the purge of the item it became, after which its title is still in the log and in the inbox |
| `Redaction.LatestBodyRedacted` | src/memory/inbox.rs:438-492 | A purged proposal can only be activated as the marker |
| `Eligible.EligibleRounds` | src/memory/scheduler.rs:141-184 | Loop and sort: over a log as the coordinator writes it, exactly the completed rounds beyond the cursor, in order |
| `Theorems.LogsAreOrderly` | src/memory/scheduler.rs:136-140 | Every log of every run is of the kind for which this is exact |
| `Eligible.GatheredAreRounds` | src/memory/scheduler.rs:141-182 | What the loop gathers is what a resume would call completed |
| `Scheduler.ExtractionScheduler.Claim` | src/memory/scheduler.rs:122-127 | A session is claimed exactly when no run for it is in flight |
| `Scheduler.ExtractionScheduler.RunSession` | src/memory/scheduler.rs:68-82 | A run hands over the rounds beyond the cursor, records the outcome and moves the cursor onto the last; a session in flight is left alone |
| `Scheduler.ExtractionScheduler.RunInner` | src/memory/scheduler.rs:84-119 | Files, log, tables and the reported entry after recording the outcome for the whole batch; the cursor moves whatever the outcome |
| `Scheduler.LabelsName` | src/memory/scheduler.rs:186-194 | The label of a run names its outcome |
| `MemoryService.ReportedExactly` | src/memory/scheduler.rs:106-109 | Whatever is not dropped is in the inbox; a run reports it exactly when, for a confident update, the item could be written as well |
| `Scheduler.CursorMovesAsModelled` | src/store/memory/lifecycle.rs:128-145 | The index's cursor rows move as the delivery model's |
| `Delivery.ExactlyOnce` | src/memory/scheduler.rs:84-119 | Over any interleaving of coordinator and runs each completed round up to the cursor was handed over once and in order |
| `Delivery.AtLeastOnce` | src/memory/scheduler.rs:84-119 | Every session, cut or not: each completed round up to the cursor was handed over, and nothing but its completed rounds ever was |
| `Delivery.CutRunRepeats` | src/memory/scheduler.rs:105-112 | The exception: a run cut off by the end of its process is repeated, starting with the same rounds |

## Left out

- LoopState.LoopState.AdoptGeneratedSummary: the text of a generated title is not related to anything else.
- LoopState.LoopState.StartActive: the memory block loaded for a worker is not in its job.
- Persistence.SessionPersistence.EnsureSession: session rows, their timestamps and the first-prompt title are not modelled, nor is a path for the log file.
- MemoryService.MemoryService.ForgetItem: operation events carry no clock reading; only events that reach a table do.
- Delivery.ExactlyOnce: a session whose run was cut off by the end of its process is excluded, because there it is false; CutRunRepeats shows what happens instead, and AtLeastOnce what still holds.
- Eligible.EligibleRounds: rounds numbered beyond the largest 64-bit signed integer are never eligible, as in the code; that such numbers are out of reach is not stated.
- MemoryService.CleanWrite: does not speak of the reason of a failed extraction, which the code records without scanning it.
- Threads: a worker is the job it was given and the commands it may send; spawns and joins are counted, but waiting for a thread, panics and the channel itself are not modelled. A panic is a settle with an error.
- The shutdown flag changes only between commands, not inside one.
- Appends that fail after an enqueue, or are cut short by a crash while the process goes on, are not part of runs; what torn logs read as is treated in `Jsonl.dfy` and `LogBytes.dfy`.
- Sequence numbers and token counts are unbounded; 64-bit overflow is not modelled.
- The two ratios behind trigger and tail budget are floating-point constants in the code; trigger, budget and tail budget are parameters.
- A topic file moved by hand so that it names another place: scan and rebuild cover it; the other memory operations are stated where every readable file lies in its place.
- Folder scope, scope mappings beyond a fixed set of known ids, and path escapes of the memory roots.
- `inbox_undo` and any use of recorded corrections: entries recorded by extraction carry no operation id, and no proposal path reads corrections.
- Listing and showing memory items, the generated `MEMORY.md`, and the loading of memory into prompts.
- SQL itself: tables are maps with the keys of the upserts, in which an absent scope id and an empty one are not confused because every scope has one or the other; row conversions and connection errors are left out.
- Network and provider clients, the terminal interface, packaging, migrations and locks.
