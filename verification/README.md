# The durable Goal and runtime-input protocol of yhc

A Dafny 4.11 model of the parts of the engine that write to disk before memory and have to survive failed writes, crashes and restarts:

- **Runtime inputs** (`InputLedger`, `InputInvariant`, `InputRuns`, `InputSchedule`, `InputLaws`, `InputOutcomes`, `InputAdmission`, `InputCoordinator`): the durable priority queue with its pending, processing and rejected items, its permanent admission receipts, and its recovery.
- **The Goal** (`GoalTypes`, `UsageNormalize`, `GoalUsage`, `GoalMachine`, `GoalService`, and the theorems in `GoalRuns`, `GoalSteps`, `GoalBooks`, `GoalConservation`, `GoalEvidence`, `GoalTime`, `GoalVersion`, `GoalRecovery`, `GoalStored`, `GoalRestart`, `GoalWitness`, `GoalLaws`, `GoalOutcomes`, `GoalCalls`, `GoalCycles`): revision, status, budget, the pending provider admission and the separate usage ledger, blocker and completion evidence, the active-time counter, and the continuation cursor that also lives in the queue.
- **The transcript** (`TranscriptLog`, `TranscriptHistory`, `TranscriptResume`, `TranscriptTurn`): the log of lines and snapshots against the conversation in memory.
- **Smaller pieces**: the assistant projection (`AssistantProjection`), the project-graph checkpoint store (`CheckpointStore`) and node loop (`GraphLoop`), and the Agent detail merge (`AgentMerge`).

`dafny verify dfyconfig.toml` checks everything.

## How it is modelled

Each call under the engine's locks is one step. A step is a function from state to state; what the outside world decides (whether a write succeeds, what the clock says, a fresh identity, what the transcript reports as delivered) is an argument. A write either replaces the file or leaves it, except where the source itself tells the cases apart: an append to the usage ledger may be lost, done, or in doubt, an append to the transcript may stop after any number of lines, and a snapshot may be rejected or in doubt. A crash drops memory and rebuilds it from the files.

Where the source is an object whose methods change fields (`RuntimeInputCoordinator`, `goalService` with the engine's Goal fields, `conversationHistory` and the turn's transcript variables, the projection emitter, the checkpoint store), there is a class with those fields and loops, and each method is proved equal to its step. The properties are proved of the steps, over every run: a run is any sequence of steps with any arguments, and a history beside the state records what the properties speak about (calls admitted and released, reports made, Goals written, cursors minted, turn time without an open wait).

Three kinds of theorem stand beside each other. Invariants say what every run keeps. Exact results (`InputOutcomes`, `InputAdmission`, `GoalOutcomes`, `GoalCalls`, `TranscriptHistory` and the branches of `GoalRecovery`) say on the fields alone when a call succeeds and what it then leaves, so that refusing, losing or reordering too much is excluded as well. Cycles (`GoalCalls`, `GoalCycles`) put several steps together: a provider call, a turn's time, a continuation, a crash between two stores.

Hashes of identities are the hashed fields themselves, so they are injective. Integers are unbounded; every 64-bit check of the source is written out.

## What the callers owe

- The clock is monotone and never zero; a new Goal gets an identity never used before.
- A plain `Enqueue` does not name an identity that has a receipt but neither a live item nor a delivery. `InputRuns.PlainEnqueueExact` shows this is exactly what is needed, and `InputRuns.PlainEnqueueCanStrand` a run that breaks it: submit with a receipt, cancel, enqueue plainly, and the next start refuses the file.
- A committed compaction event carries exactly what the log decodes to, and a max-turns event carries its marker (`TranscriptLog.MaxTurnsExact` says when the latter matters).
- An interrupted graph is not resumed while a transcript snapshot is still due (`TranscriptResume.ResumeExact`), and a turn that ends before its query wrote nothing or found a snapshot due (`TranscriptLog.EarlyEndExact`); nothing in the code checks either, see below.
- For the theorems of `GoalRestart` only: a turn asks for completion after at least one of its own provider calls has been counted, since the request is a tool call in a response of that turn.

## What the code does that its description does not say

- **Revision is a version of what was written, not of memory.** After a restart whose checkpoint write fails, memory holds a Goal at a revision the disk does not have, and a second such restart can hold a different Goal at the same revision (`GoalVersion.UnwrittenRevisionRepeats`). `GoalVersion.MemoryVersion` gives the condition: the revision names a written state exactly when memory agrees with the disk. Continuation admission is safe without it (`GoalVersion.ContinuationAdmission`).
- **A Goal that has had a continuation often does not restore.** The cursor is kept after it is retired or delivered, and validation at the next start compares it with the Goal. After any run a stored Goal is accepted if and only if its cursor, when it has one, still names the objective revision, ordinal, terminal, budget and account (`GoalStored.StoredGoalExact`, `GoalStored.RestoreExact`); otherwise the Goal comes back unavailable. So an edit of the objective is accepted at the next start exactly when the Goal has no cursor (`GoalStored.EditExact`; `GoalWitness.EditedGoalComesBackUnavailable` is a run of four steps), and so is a completed Goal (`GoalRestart.CompletedRestoresExact`; `GoalWitness.CompletedGoalComesBackUnavailable` is a run of nine steps). No write fails in either run. A completed Goal is never reopened (`GoalRestart.CompleteSurvivesRestart`).
- **A resumed graph turn forgets that a snapshot is due.** If the turn before could not write its answer, the resumed one reports a good final write and leaves a log without it (`TranscriptResume.ResumeForgetsSnapshot`). `TranscriptResume.ResumedTurnExact` says which turns repair the log, and `TranscriptResume.ResumeExact` what to ask before resuming so that all do.
- **A turn that ends before its query can strand what it wrote.** When a continuation's delivery or a durable prompt cannot be stored after messages were appended, memory drops them and no snapshot is asked for (`TranscriptLog.EarlyEndStrands`). A prompt that a hook rejects does this with no write failing: the rejection is in the log and not in memory (`TranscriptLog.HookRejectionStrands`). `TranscriptLog.EarlyEndExact` gives the condition, on the session, the way of entering and the outcome of the first write.
- **A media-recovery snapshot in doubt is not followed.** If its bytes did reach the file, memory keeps the old history and asks for no snapshot; the turn can then end with its final write reported as good while the log decodes to something else (`TranscriptLog.MediaDoubtLosesHistory`). `TranscriptLog.MediaEndsTurn` says exactly when, whatever came before in the turn.
- **A provider-origin commit while a compaction snapshot is owed** appends to a log that does not match the history (`TranscriptLog.OriginAfterCompaction`, `TranscriptLog.OriginExact`). The snapshot owed repairs it before the turn ends, so the end-of-turn theorem needs no assumption about it.
- **A cancellation whose write fails leaves the interval closed** (`GoalTime.FailedCancelHalts`), as a blocker report does. Time is then under-counted; it is never over-counted (`GoalTime.ActiveTimeBounded`).

## Model

| member | source | states |
|---|---|---|
| `UsageNormalize.NormalizeExact` | engine/goal_usage_normalize.go:40-99 | a report is accepted exactly when every count is present, non-negative and within its parent; the carry branch is never taken, the subtraction never wraps, and billable plus cached is the total |
| `InputCoordinator.RuntimeInputCoordinator.Open` | engine/input_coordinator.go:308-465 | the constructor's recovery loop, including deferred and failed writes, is the recovery step |
| `InputCoordinator.RuntimeInputCoordinator.RecoverItem` | engine/input_coordinator.go:386-456 | one stored item is checked against its receipt and dropped, reset or kept |
| `InputCoordinator.RuntimeInputCoordinator.ReadReceipts` | engine/input_coordinator.go:346-385 | the loop over stored receipts with its two tables accepts and loads exactly what the step does |
| `InputCoordinator.RuntimeInputCoordinator.CommitDeferredRecovery` | engine/input_coordinator.go:467-486 | writes the recovered ledger once, and only when one is outstanding |
| `InputCoordinator.RuntimeInputCoordinator.Stage` | engine/input_coordinator.go:667-797 | one item of a batch: receipt retry, delivered, resubmission, bound, append |
| `InputCoordinator.RuntimeInputCoordinator.EnqueueBatch` | engine/input_coordinator.go:655-802 | the whole batch is staged, written once, and memory changes only after the write |
| `InputCoordinator.RuntimeInputCoordinator.TakeSnapshot` | engine/input_coordinator.go:1347-1369 | the pending items of the scope in priority-then-sequence order |
| `InputCoordinator.RuntimeInputCoordinator.ClaimAtSafePoint` | engine/input_coordinator.go:845-902 | selection, marking and ordering of a safe-point claim |
| `InputCoordinator.RuntimeInputCoordinator.ClaimIdle` | engine/input_coordinator.go:905-943 | the linear scan for the best idle item |
| `InputCoordinator.RuntimeInputCoordinator.ClaimStopRequest` | engine/input_coordinator.go:1165-1195 | the oldest stop item of the scope is claimed |
| `InputCoordinator.RuntimeInputCoordinator.ClaimIdentity` | engine/input_coordinator.go:1030-1059 | a pending item is claimed by identity |
| `InputCoordinator.RuntimeInputCoordinator.FindContinuation` | engine/input_coordinator.go:945-1028 | one pass finds the continuation item or the explicit input that forbids it, wherever they sit |
| `InputCoordinator.RuntimeInputCoordinator.ClaimGoalContinuation` | engine/input_coordinator.go:945-987 | claims a continuation only when no explicit input is pending in scope |
| `InputCoordinator.RuntimeInputCoordinator.ContinuationForAdmission` | engine/input_coordinator.go:989-1028 | the claimed item, or the reason it may not be admitted now |
| `InputCoordinator.RuntimeInputCoordinator.ReleaseItem` | engine/input_coordinator.go:1063-1094 | a processing item goes back to pending |
| `InputCoordinator.RuntimeInputCoordinator.RejectGoalContinuation` | engine/input_coordinator.go:1099-1162 | a continuation item is rejected once, with its code and time |
| `InputCoordinator.RuntimeInputCoordinator.SettleItems` | engine/input_coordinator.go:1198-1240 | settled identities leave the queue and are remembered as delivered |
| `InputCoordinator.RuntimeInputCoordinator.CancelItem` | engine/input_coordinator.go:1260-1285 | a pending item is removed |
| `InputCoordinator.RuntimeInputCoordinator.Resolve` | engine/input_coordinator.go:1578-1621 | the delivered cache is extended by what the transcript reports |
| `InputInvariant.ReceiptsRoundTrip` | engine/input_coordinator.go:2136-2150 | reading the stored receipts back gives the same table |
| `InputInvariant.EncodeIsGood` | engine/input_coordinator.go:1853-1910 | every file the coordinator writes is one that recovery accepts |
| `InputInvariant.RecoveredExact` | engine/input_coordinator.go:346-456 | recovery of a good file succeeds, keeps exactly the survivors and every promised receipt, and reports a change exactly when there is one |
| `InputRuns.RunKeeps` | engine/input_coordinator.go:308-1621 | every operation, with failed writes and restarts, keeps the ledger invariant and never loses or changes a receipt |
| `InputRuns.LedgerClosure` | engine/input_coordinator.go:346-456 | after any run identities are unique, sequences strictly increase, receipts have distinct bounded sequences, and the file is recoverable whatever has been delivered |
| `InputRuns.CrashRefinement` | engine/input_coordinator.go:308-465 | with no recovery outstanding disk equals memory, and a crash recovers exactly the survivors in order, processing reset to pending; it fails exactly when there is something to write and the write fails |
| `InputRuns.RecoveryIdempotent` | engine/input_coordinator.go:346-465 | recovering a recovered ledger with the same delivered set changes nothing |
| `InputRuns.SubmitAnswer` | engine/input_coordinator.go:544-570 | a successful receipted submission answers with its receipt's sequence and time, and one whose identity has a receipt changes nothing |
| `InputRuns.AdmittedOnce` | engine/input_coordinator.go:683-713 | over any run between two receipted submissions of one identity: same sequence and time, nothing added, any live item is the first one, another payload fails |
| `InputRuns.PlainEnqueueExact` | engine/input_coordinator.go:683-797 | an accepted plain enqueue leaves a recoverable file if and only if its identity was not a receipt without item or delivery |
| `InputRuns.PlainEnqueueCanStrand` | engine/input_coordinator.go:683-797 | a run in which it was |
| `InputSchedule.ClaimMatchesSnapshot` | engine/input_coordinator.go:845-902 | a safe-point claim returns exactly the eligible subsequence of the snapshot and marks only those items |
| `InputSchedule.IdleTakesHead` | engine/input_coordinator.go:905-943 | the scan picks the head of the sorted view and leaves the rest |
| `InputSchedule.DrainsInOrder` | engine/input_coordinator.go:905-943 | repeated idle claims drain the queue in order and then find nothing |
| `InputLaws.ReleaseUndoesClaim` | engine/input_coordinator.go:1030-1094 | claim then release restores the items |
| `InputLaws.CancelRemovesPending` | engine/input_coordinator.go:1260-1285 | exactly the pending items of the identity go, and the answer says whether there was one |
| `InputLaws.SettleRemovesAll` | engine/input_coordinator.go:1198-1240 | exactly the items of the identities go, in any state, and all identities count as delivered |
| `InputOutcomes.RecoveryExact` | engine/input_coordinator.go:386-456 | after any run a successful restart brings back every stored item that is not rejected, delivered or a stop, as itself and pending, no other, in the stored order |
| `InputOutcomes.RecoveryFailsExact` | engine/input_coordinator.go:443-465 | with no recovery outstanding it fails exactly when an item must be dropped or reset, or a text prompt lacks its receipt, and that write fails |
| `InputOutcomes.RecoveredReceipts` | engine/input_coordinator.go:409-427 | a restart keeps every receipt and gives each dated text prompt in the file one with its own sequence and time |
| `InputOutcomes.FileExact` | engine/input_coordinator.go:346-441 | a file is accepted if and only if its receipts are in order and each item is valid and agrees with its receipt |
| `InputOutcomes.ReceiptsExact` | engine/input_coordinator.go:346-385 | receipts load if and only if each is credible and no two share an identity or a sequence, and the table is exactly them |
| `InputOutcomes.SnapshotExact` | engine/input_coordinator.go:1347-1369 | a snapshot is exactly the waiting items: Now before Next before Later, by sequence within each |
| `InputOutcomes.SafePointExact` | engine/input_coordinator.go:845-902 | a safe-point claim answers exactly the takeable waiting items in that order and marks no other |
| `InputOutcomes.IdleExact` | engine/input_coordinator.go:905-943 | an idle claim takes the waiting item more urgent than every other, and only it; nothing exactly when none waits |
| `InputOutcomes.StopExact` | engine/input_coordinator.go:1165-1195 | a stop claim takes the first waiting stop, and only it |
| `InputOutcomes.ByIdExact` | engine/input_coordinator.go:1030-1059 | a claim by identity takes exactly the pending item with it |
| `InputOutcomes.ReleaseExact` | engine/input_coordinator.go:1063-1094 | a release puts exactly the processing item back |
| `InputOutcomes.RejectExact` | engine/input_coordinator.go:1099-1162 | a continuation is rejected once, with its code and time, and nothing else changes |
| `InputOutcomes.ContinuationClaimExact` | engine/input_coordinator.go:945-1028 | a continuation is claimed, and may be admitted, exactly when nothing a person typed is pending |
| `InputOutcomes.ResolveExact` | engine/input_coordinator.go:1578-1621 | the answer is the identities asked about that are known or found delivered, and only found ones are remembered |
| `InputOutcomes.CommitExact` | engine/input_coordinator.go:467-486 | a deferred recovery is written once and then the file is memory |
| `InputOutcomes.FailedRemovals` | engine/input_coordinator.go:1198-1285 | a failed write leaves a cancellation and a settlement undone |
| `InputAdmission.NewItemExact` | engine/input_coordinator.go:655-802 | an unknown identity is accepted if and only if there is room, the item is valid, a receipt can be given and the write succeeds; then the item as stored, field by field, stands at the end |
| `InputAdmission.DuplicateExact` | engine/input_coordinator.go:724-744 | a live identity is answered with its item, or refused when anything the caller chose differs |
| `InputAdmission.DeliveredAgain` | engine/input_coordinator.go:713-723 | a delivered identity does not enter the queue again |
| `InputAdmission.RetryExact` | engine/input_coordinator.go:683-713 | a receipted retry is answered from its receipt, if and only if it agrees with it |
| `InputAdmission.SubmitWithinBound` | engine/input_coordinator.go:544-570 | after any run a bounded submission never brings the pending prompts above the bound, and one at the bound is refused |
| `InputAdmission.BatchIsSequence` | engine/input_coordinator.go:655-802 | a batch is its submissions one after the other in one write: all are answered or none enters |
| `InputAdmission.DigestExact` | engine/input_coordinator.go:2019-2053 | two text prompts have one digest if and only if they agree up to blanks in everything the caller chose |
| `InputAdmission.TrimExact` | engine/input_coordinator.go:2019-2053 | trimming takes the blanks off both ends, all of them and nothing else |
| `InputAdmission.AnotherTextRefused` | engine/input_coordinator.go:683-713 | whatever happened between, a second receipted submission with another text is refused |
| `GoalUsage.CollectRecords` | engine/goal_usage.go:643-661 | the pass that builds the table of a Goal's records and rejects a bad or conflicting one |
| `GoalUsage.CountCommitted` | engine/goal_usage.go:673-693 | counts the committed revisions, or finds one that no admission explains |
| `GoalUsage.InspectLedger` | engine/goal_usage.go:625-694 | the inspection with its two loops is the declarative one |
| `GoalUsage.InspectExact` | engine/goal_usage.go:625-694 | a ledger is accepted if and only if the Goal's records are proper and agree, every counted revision is there, and nothing lies beyond but the pending one |
| `GoalServices.GoalService.constructor` | engine/goal_persistence.go:56-203 | a restart rebuilds the Goal from checkpoint and ledger and stores it again |
| `GoalServices.GoalService.Persist` | engine/goal_state.go:449-452 | memory changes only if the checkpoint was written |
| `GoalServices.GoalService.PersistHeld` | engine/goal_persistence.go:14-46 | the same for an unavailable Goal, whose stored record is written back unchanged |
| `GoalServices.GoalService.RetireItem` | engine/goal_continuation.go:764-780 | reject, then settle |
| `GoalServices.GoalService.ApplyTransition` | engine/goal_state.go:386-468 | the transition step: boundary, no-op, retired cursor, write, retire item |
| `GoalServices.GoalService.Create` | engine/goal_state.go:107-140 | the create step |
| `GoalServices.GoalService.Edit` | engine/goal_state.go:142-176 | the edit step |
| `GoalServices.GoalService.Pause` | engine/goal_state.go:178-204 | the pause step |
| `GoalServices.GoalService.Resume` | engine/goal_state.go:206-241 | the resume step |
| `GoalServices.GoalService.SetBudget` | engine/goal_state.go:243-278 | the budget step |
| `GoalServices.GoalService.ClearForTurn` | engine/goal_state.go:284-384 | the clear step with its two writes, of an available or unavailable Goal |
| `GoalServices.GoalService.BeginTurn` | engine/goal_runtime.go:307-428 | the begin step, steering or not |
| `GoalServices.GoalService.BeginContinuationTurn` | engine/goal_continuation.go:546-617 | the continuation admission step |
| `GoalServices.GoalService.RejectContinuationAdmission` | engine/goal_continuation.go:619-668 | the permanent rejection when explicit input is pending |
| `GoalServices.GoalService.CheckEvidence` | engine/goal_runtime.go:495-529 | the guards of turn evidence |
| `GoalServices.GoalService.RequestCompletion` | engine/goal_runtime.go:430-446 | the completion-request step |
| `GoalServices.GoalService.NoteBlocker` | engine/goal_runtime.go:448-493 | the reporting turn joins the key's turns once, the newest three stay, and the third blocks |
| `GoalServices.GoalService.ReportBlocker` | engine/goal_runtime.go:448-558 | the blocker step: guards, note, interval, write |
| `GoalServices.GoalService.StopActiveInterval` | engine/goal_runtime.go:560-579 | the interval is added with saturation and closed |
| `GoalServices.GoalService.PauseTurnFor` | engine/goal_runtime.go:581-629 | the open-wait step with its rollback |
| `GoalServices.GoalService.ResumeTurnFor` | engine/goal_runtime.go:631-677 | the close-wait step with its rollback |
| `GoalServices.GoalService.AbandonTurn` | engine/goal_runtime.go:683-696 | only the process-local turn goes |
| `GoalServices.GoalService.HasPendingSteering` | engine/goal_runtime.go:853-866 | whether the snapshot holds a user prompt or steering item |
| `GoalServices.GoalService.CloseTurn` | engine/goal_runtime.go:744-770 | the Goal at the terminal boundary |
| `GoalServices.GoalService.MintCursor` | engine/goal_continuation.go:88-156 | the cursor of the Goal just closed |
| `GoalServices.GoalService.CommitTerminal` | engine/goal_runtime.go:702-851 | the terminal step: close, mint, write, enqueue, with rollback |
| `GoalServices.GoalService.EnqueueDormant` | engine/input_coordinator.go:608-639 | the cursor's item is queued, bounded to one |
| `GoalServices.GoalService.MarkContinuationDelivered` | engine/goal_continuation.go:724-762 | the delivery step |
| `GoalServices.GoalService.PauseForCancellation` | engine/goal_continuation.go:797-858 | the cancellation step |
| `GoalServices.GoalService.ReconcileUsage` | engine/goal_usage.go:562-604 | the reconciliation of a Goal with its ledger |
| `GoalServices.GoalService.AdmitProviderUsage` | engine/goal_usage.go:159-238 | the admission step up to the call: gate, doubt, reconciliation, checks |
| `GoalServices.GoalService.AdmitCall` | engine/goal_usage.go:238-283 | the new admission is written before the call exists |
| `GoalServices.GoalService.RecordUsage` | engine/goal_usage.go:285-332 | normalization and the ledger append |
| `GoalServices.GoalService.CountUsage` | engine/goal_usage.go:334-366 | the recorded call joins the aggregate |
| `GoalServices.GoalService.ReleaseBeforeDispatch` | engine/goal_usage.go:368-400 | the release step |
| `GoalServices.GoalService.MarkUsageAmbiguous` | engine/goal_usage.go:402-442 | the ambiguous step |
| `GoalServices.GoalService.ReturnGateToken` | engine/goal_usage.go:133-146 | a settled call gives its token back |
| `GoalServices.GoalService.PauseRestoredContinuation` | engine/goal_continuation.go:958-1000 | the pause that recovery commits, also inside an unavailable Goal |
| `GoalServices.GoalService.ReconcileRestoredContinuation` | engine/goal_continuation.go:860-956 | the reconciliation step with all its branches, for available and unavailable Goals |
| `GoalServices.GoalService.RetireRestoredItem` | engine/goal_continuation.go:917-928 | the item of a cursor already retired or delivered leaves the queue |
| `GoalServices.GoalService.RequeueRestored` | engine/goal_continuation.go:929-949 | the item of an open cursor is queued again, or the Goal is paused |
| `GoalSteps.PlainQuiet` | engine/goal_state.go:386-468 | no control, turn or continuation step touches the books; each change is on disk, raises the revision, and keeps or drops evidence |
| `GoalSteps.UsageAccounts` | engine/goal_usage.go:159-442 | no usage step touches anything but books, status and evidence |
| `GoalBooks.RunKeeps` | engine/goal_usage.go:159-694 | every step of every run keeps ledger, aggregate, calls and gate in agreement |
| `GoalConservation.TokenConservation` | engine/goal_usage.go:529-604 | in every reachable state, in memory and on disk: revisions 1..n in the ledger, at most the pending one beyond, and the aggregate is the sum of their billable tokens |
| `GoalConservation.OneTokenOrCall` | engine/goal_usage.go:133-157 | gate token plus unsettled calls is exactly one |
| `GoalConservation.ActiveHasBudget` | engine/goal_state.go:107-278 | active, or with a call outstanding, implies budget left |
| `GoalConservation.NoSecondCall` | engine/goal_usage.go:171-238 | a call is admitted only when every earlier one was released before dispatch or has its exact record |
| `GoalConservation.OvershootBounded` | engine/goal_usage.go:529-560 | a counted call started under the budget in force, and the overshoot is less than its own tokens |
| `GoalStored.RestartCounts` | engine/goal_usage.go:562-604 | after any run, if the stored cursor still fits, a restart over a readable ledger counts the outstanding record exactly once if the sum fits 64 bits, and otherwise limits the Goal with its admission kept |
| `GoalConservation.InspectAll` | engine/goal_usage.go:625-694 | a clean load of a conserved ledger is accepted and yields exactly the Goal's records |
| `GoalEvidence.BlockerEvidence` | engine/goal_runtime.go:448-558 | stored blocker turns are distinct, at most three, none exactly when the key is empty, and each one reported the key since the last break |
| `GoalEvidence.BlockedNeedsThree` | engine/goal_runtime.go:448-493 | a step blocks only as the third of three distinct turns reporting one key with nothing in between |
| `GoalEvidence.CompletionSafety` | engine/goal_runtime.go:744-770 | a step completes only at the completed terminal of the turn that requested it for this objective revision, with no admission, wait or user input pending |
| `GoalEvidence.CompleteStays` | engine/goal_state.go:118-139 | while the session lives, complete is left only by creating or clearing |
| `GoalStored.StoredRun` | engine/goal_state.go:107-468 | over any run the Goal on disk has sound identity, times and evidence fields, and its cursor names a Goal of the session and no later objective |
| `GoalStored.StoredGoalExact` | engine/goal_persistence.go:212-359 | after any run the stored Goal passes validation if and only if its cursor, when it has one, still names its objective revision, ordinal, terminal, budget and account |
| `GoalStored.RestoreExact` | engine/goal_persistence.go:56-203 | a restart brings it back available exactly then, whatever the ledger load, and otherwise withholds the stored record unchanged |
| `GoalStored.EditExact` | engine/goal_state.go:142-176 | after any run an accepted edit leaves a Goal that validation accepts if and only if it has no cursor |
| `GoalRestart.CompletedRestoresExact` | engine/goal_persistence.go:310-323 | after any run a stored completed Goal comes back as it was if and only if it has no cursor, and is withheld otherwise |
| `GoalRestart.CompleteSurvivesRestart` | engine/goal_persistence.go:56-203 | after any run a restart and the reconciliation after it leave the stored record of a completed Goal as it was, available exactly when it has no cursor |
| `GoalRestart.MeterRunKeeps` | engine/goal_continuation.go:88-156 | over any run a cursor is no newer than the account, and older once completion is asked for or reached |
| `GoalWitness.CompletedGoalComesBackUnavailable` | engine/goal_persistence.go:310-323 | nine steps without a failed write, queue included, after which a completed Goal is unavailable |
| `GoalWitness.EditedGoalComesBackUnavailable` | engine/goal_state.go:437-447 | four steps without a failed write after which an edited Goal is unavailable |
| `GoalTime.ActiveTimeBounded` | engine/goal_runtime.go:560-677 | an open wait means no running interval, and the counter never exceeds turn time without an open wait, in 63 bits |
| `GoalTime.FailedCancelHalts` | engine/goal_continuation.go:797-858 | a cancellation that cannot be written changes only the interval, which it closes |
| `GoalTime.PlainTicks` | engine/goal_runtime.go:421-677 | every step keeps, ends, starts or halts the interval, or closes a wait, and nothing else |
| `GoalVersion.ChangeRaises` | engine/goal_state.go:508-519 | within a session every change raises the revision |
| `GoalVersion.RevisionIsVersion` | engine/goal_state.go:386-468 | one identity and revision name one written state for ever |
| `GoalVersion.MemoryVersion` | engine/goal_persistence.go:56-203 | memory's revision names a written state exactly when memory equals disk |
| `GoalVersion.UnwrittenRevisionRepeats` | engine/goal_persistence.go:56-203 | two restarts with failed checkpoints give two Goals one revision |
| `GoalVersion.ContinuationAdmission` | engine/goal_continuation.go:546-716 | a continuation is newly admitted only on exactly the Goal its terminal wrote, with no explicit input pending in scope |
| `GoalVersion.TerminalMints` | engine/goal_runtime.go:771-823 | a cursor left pending by a terminal names the Goal and revision that terminal wrote |
| `GoalRecovery.TwoStoreRecovery` | engine/goal_continuation.go:860-1000 | after a crash at any point, recovery and a successful reconciliation: the cursor, of an available or unavailable Goal, is open if and only if its item is pending in the queue |
| `GoalRecovery.ReconcileAgrees` | engine/goal_continuation.go:860-956 | the same for any state with a recovered queue |
| `GoalRecovery.ReconcileRequeues` | engine/goal_continuation.go:929-934 | an open undelivered cursor keeps the Goal as it was and has exactly one pending item afterwards, the old one or a new one at the end |
| `GoalRecovery.ReconcileDelivers` | engine/goal_continuation.go:873-895 | a cursor the transcript reports ends delivered, the Goal paused, and only its item gone |
| `GoalRecovery.ReconcileDisabled` | engine/goal_continuation.go:896-915 | where continuations are disabled the Goal is paused, the cursor rejected or left delivered, and only its item gone |
| `GoalRecovery.ReconcileRetires` | engine/goal_continuation.go:917-928 | a closed cursor leaves the Goal alone and loses its item |
| `GoalRecovery.ReconcileConflicts` | engine/goal_continuation.go:935-950 | an open cursor whose place is taken is rejected and the Goal paused |
| `GoalRecovery.RetireOne` | engine/goal_continuation.go:764-780 | retiring with good writes takes exactly that item out and remembers it as delivered |
| `GoalRecovery.CursorQueued` | engine/input_coordinator.go:608-639 | a cursor's item goes to the end of a queue without one, field by field |
| `GoalLaws.ResumeUndoesPause` | engine/goal_state.go:178-241 | pause then resume brings back the same work |
| `GoalOutcomes.CreateExact` | engine/goal_state.go:107-140 | Done exactly when no unfinished Goal, turn or containment forbids it; then the new Goal, field by field |
| `GoalOutcomes.EditExact` | engine/goal_state.go:142-176 | Done exactly when the Goal may be changed; then exactly the new objective, the next objective revision, no evidence and a closed cursor, and nothing else |
| `GoalOutcomes.PauseExact` | engine/goal_state.go:178-204 | the same for a pause |
| `GoalOutcomes.ResumeExact` | engine/goal_state.go:206-241 | the same for a resume |
| `GoalOutcomes.BudgetExact` | engine/goal_state.go:243-278 | the same for a budget: exactly the new one, and limited when an active Goal has used it up |
| `GoalOutcomes.ClearExact` | engine/goal_state.go:284-384 | Done exactly when nothing is outstanding and the writes succeed; then no Goal, no turn and no item of its cursor |
| `GoalOutcomes.BeginExact` | engine/goal_runtime.go:307-428 | when a turn without an item begins, what it stores and retires, and that its interval starts now |
| `GoalOutcomes.CompletionExact` | engine/goal_runtime.go:430-446 | a request is stored exactly when the running turn speaks for the active Goal |
| `GoalOutcomes.BlockerExact` | engine/goal_runtime.go:448-558 | after any run the first two distinct turns to report a key are remembered, the third blocks and closes the interval, and a repeat changes nothing |
| `GoalOutcomes.OpenWaitExact` | engine/goal_runtime.go:581-629 | a first wait counts and closes the interval, a further one only joins |
| `GoalOutcomes.CloseWaitExact` | engine/goal_runtime.go:631-677 | closing the last wait of an active Goal starts an interval |
| `GoalOutcomes.DeliveredExact` | engine/goal_continuation.go:724-762 | exactly the admitting cursor of that item and turn becomes delivered |
| `GoalOutcomes.CancelExact` | engine/goal_continuation.go:797-858 | an active Goal is paused, its interval counted and closed, its cursor retired |
| `GoalOutcomes.TerminalExact` | engine/goal_runtime.go:702-851 | a terminal completes the Goal if and only if its turn asked and nothing is outstanding, leaves a cursor and its item if and only if the Goal goes on, and otherwise only closes the turn |
| `GoalOutcomes.AbandonExact` | engine/goal_runtime.go:683-696 | a turn given up takes nothing with it |
| `GoalOutcomes.CheckpointExact` | engine/goal_persistence.go:14-46 | a checkpoint stores what memory stands for |
| `GoalCalls.AdmitExact` | engine/goal_usage.go:159-283 | with nothing outstanding a call is admitted if and only if the gate is free, no doubt is set, its reporter is bound and the Goal active; then exactly its admission is stored |
| `GoalCalls.RecordExact` | engine/goal_usage.go:285-332 | after any run exactly a well-reported call that is appended puts its record into the ledger |
| `GoalCalls.CountExact` | engine/goal_usage.go:334-366 | after any run a counted call adds exactly its billable tokens, clears the admission, limits a Goal out of budget, and frees the gate |
| `GoalCalls.ReleaseExact` | engine/goal_usage.go:368-400 | after any run a release that answers Done leaves the Goal it found without the admission, one revision on, in memory and on disk, and the gate free |
| `GoalCalls.AmbiguousExact` | engine/goal_usage.go:402-442 | after any run a call in doubt limits the Goal, keeps the admission, sets the doubt and frees the gate |
| `GoalCalls.ReleaseUndoesAdmit` | engine/goal_usage.go:159-400 | admit then release leaves everything but two revisions as before |
| `GoalCalls.CallCycle` | engine/goal_usage.go:159-366 | admit, record and count add exactly one record and its tokens |
| `GoalCalls.AdmitSettlesFirst` | engine/goal_usage.go:171-283 | a call on a Goal with an admission first counts its record, or limits the Goal, and is admitted on the result |
| `GoalCalls.RestartExact` | engine/goal_persistence.go:56-203 | after any run a restart over a readable ledger gives exactly the stored Goal, its outstanding record counted, paused unless a cursor waits, and a free session |
| `GoalCalls.RestartUnreadable` | engine/goal_usage.go:562-604 | a restart that cannot read the usage the Goal owes limits it, and leaves a completed one alone |
| `GoalCalls.WithheldExact` | engine/goal_persistence.go:415-431 | a Goal that validation refuses is shown paused and without evidence, its record kept |
| `GoalCycles.TurnTimeExact` | engine/goal_runtime.go:307-851 | a turn with good wait writes counts exactly the whole milliseconds of each stretch with no wait open |
| `GoalCycles.ContinuationCycle` | engine/goal_continuation.go:546-762 | terminal, claim, begin and delivery of a continuation all succeed, on exactly the Goal the terminal left |
| `GoalCycles.RejectsIt` | engine/goal_continuation.go:619-668 | where a person's input is pending the continuation is rejected for good |
| `GoalCycles.ReentersIt` | engine/goal_continuation.go:546-617 | an admitted continuation may begin again without a change to the Goal |
| `GoalCycles.CrashAfterTerminal` | engine/goal_continuation.go:860-956 | a crash after a terminal, with or without its item, is undone by restart and reconciliation: the same active Goal, and exactly one item |
| `TranscriptTurns.ConversationHistory.ObserveEvent` | engine/engine.go:4589-4662 | the history's update for every event |
| `TranscriptTurns.ConversationHistory.Messages` | engine/engine.go:4679-4702 | reading the messages flushes the pending assistant |
| `TranscriptTurns.LoadTranscript` | engine/transcript/persist.go:515-604 | the loader's pass yields the last snapshot and the lines after it |
| `TranscriptTurns.TranscriptTurn.constructor` | engine/engine.go:1568-1826 | the start of a turn for every way of entering it, a rejected prompt included, and whether it ends there |
| `TranscriptTurns.TranscriptTurn.WriteFirst` | engine/engine.go:1568-1778 | the first write: rejection, durable prompt, resumption, seeded turn, snapshot or append |
| `TranscriptTurns.TranscriptTurn.RecordMessages` | engine/engine.go:2353-2385 | lines one by one, stopping at the first error |
| `TranscriptTurns.TranscriptTurn.HandleEvent` | engine/engine.go:2019-2105 | the event callback |
| `TranscriptTurns.TranscriptTurn.CommitProviderOrigin` | engine/engine.go:1931-1979 | the provider-origin callback |
| `TranscriptTurns.TranscriptTurn.CommitMediaBoundary` | engine/engine.go:1992-2018 | the media-recovery callback |
| `TranscriptTurns.TranscriptTurn.FinishTurn` | engine/engine.go:2107-2165 | the last write |
| `TranscriptTurns.RunTurn` | engine/engine.go:1931-2165 | a whole turn of callbacks is the turn step; one that ends early keeps the session durable exactly as `EarlyEndExact` says, and any other that enters and proceeds soundly does |
| `TranscriptLog.DecodeLines` | engine/transcript/persist.go:1011-1039 | appended lines decode to appended messages |
| `TranscriptLog.RunAgrees` | engine/engine.go:1931-2105 | through any actions: a snapshot is owed, or the log decodes to the persisted prefix |
| `TranscriptLog.FinalHistoryDurable` | engine/engine.go:2107-2165 | if the final write succeeds the log decodes to exactly the final history, and otherwise a snapshot is due |
| `TranscriptLog.SeedDecodes` | engine/subagent.go:611-617 | what the Agent runner stores before a child engine starts decodes to its history and first turn |
| `TranscriptLog.SessionDurable` | engine/engine.go:1568-2165 | over any number of turns, each meeting the conditions above, a snapshot is due or log and memory agree |
| `TranscriptLog.ChildDurable` | engine/subagent.go:611-617 | the same for a child engine from its seeded first turn on |
| `TranscriptLog.OriginDurable` | engine/engine.go:1931-1979 | a provider-origin commit leaves log and history equal when no compaction snapshot is owed |
| `TranscriptLog.OriginExact` | engine/engine.go:1931-1979 | and otherwise exactly when it wrote a snapshot or the prefix was right |
| `TranscriptLog.OriginAfterCompaction` | engine/engine.go:1931-1979 | a commit that leaves them different |
| `TranscriptLog.MediaEndExact` | engine/engine.go:1992-2018 | after a media snapshot that was not recorded, exactly when a good final write leaves log and history equal |
| `TranscriptLog.MediaEndsTurn` | engine/media_recovery.go:172-185 | the same over a whole turn that such a commit ends |
| `TranscriptLog.MediaDoubtLosesHistory` | engine/media_recovery.go:172-185 | a turn whose good final write leaves another history in the log |
| `TranscriptLog.MaxTurnsExact` | engine/engine.go:4645-4653 | when a max-turns event without its marker keeps the invariant |
| `TranscriptResume.ResumedTurnExact` | engine/engine.go:1761-2165 | a whole resumed turn with a good final write leaves log and history equal if and only if they were, or it wrote a snapshot, or a compaction it committed had written one |
| `TranscriptResume.ResumeExact` | engine/engine.go:1761-2165 | every such turn does if and only if the log decodes to the messages before it, which holds of a durable session with no snapshot due |
| `TranscriptResume.ResumeForgetsSnapshot` | engine/engine.go:1761-1782 | two turns after which the log lacks a message and no snapshot is due |
| `TranscriptLog.EarlyEndExact` | engine/engine.go:1568-1826 | a turn that ends before its query keeps the session durable if and only if a snapshot was due or its entrance and first outcome say that nothing was written |
| `TranscriptLog.EarlyEndStrands` | engine/engine.go:1804-1826 | one that does not |
| `TranscriptLog.HookRejectionStrands` | engine/engine.go:1568-1612 | a rejected prompt whose rejection is written leaves it in the log and not in memory, on every session with no snapshot due |
| `TranscriptHistory.HistoryTold` | engine/engine.go:4589-4662 | over any events that only add, the flushed history is what was there followed by one message per final, tool result, attachment and completed group of chunks, in event order; only a rejection, tombstone or interruption drops a group |
| `TranscriptHistory.CompactionRestarts` | engine/engine.go:4629-4644 | a compaction starts over with its messages, or its boundary marker alone |
| `TranscriptHistory.MaxTurnsRepairs` | engine/engine.go:4645-4653 | a max-turns event repairs what was told, adds its marker, and the story goes on |
| `TranscriptHistory.TurnTold` | engine/engine.go:1697-2165 | whatever writes fail, an ordinary turn leaves what was there, what it entered with, and the story of its events |
| `TranscriptHistory.TurnAppends` | engine/engine.go:1697-2165 | with good writes and no snapshot due it writes exactly one line per new message, in order, no snapshot, and leaves none due |
| `TranscriptHistory.LandmarkDurable` | engine/engine.go:2019-2105 | after a tool result, final, attachment or interruption with a good write the log decodes to the whole history |
| `TranscriptHistory.OriginAccepted` | engine/engine.go:1931-1979 | a provider-origin commit with good writes succeeds if and only if it is staged, stored and an assistant has spoken |
| `TranscriptHistory.MediaFollows` | engine/engine.go:1992-2018 | a recorded media snapshot becomes the history and what the log decodes to |
| `AssistantProjection.ProjectionEmitter.Handle` | engine/assistant_projection.go:46-71 | the emitter's dispatch |
| `AssistantProjection.ProjectionEmitter.HandleAssistant` | engine/assistant_projection.go:82-119 | naming, chunks, and the failure without an identity |
| `AssistantProjection.ProjectionEmitter.HandleFinal` | engine/assistant_projection.go:121-160 | the four cases of a final message |
| `AssistantProjection.DeltasAreDelivered` | engine/assistant_projection.go:82-181 | per identity the deltas concatenate to the delivered bytes |
| `AssistantProjection.DeltasAreOffered` | engine/assistant_projection.go:82-181 | per identity the deltas concatenate to the content of the assistant events yielded |
| `AssistantProjection.FinalStands` | engine/assistant_projection.go:121-160 | whatever comes before and after an accepted final, if nothing more is offered under its identity the deltas are exactly its content |
| `AssistantProjection.SilentAfterFailure` | engine/assistant_projection.go:82-85 | after a mismatch no assistant event or delta is ever yielded |
| `AssistantProjection.HistoryHasTheBytes` | engine/engine.go:4589-4616 | fed to the history undisturbed, assistant contents concatenate to the same bytes |
| `AssistantProjection.FinalExact` | engine/assistant_projection.go:121-160 | a final is accepted if and only if there is an identity and what was delivered is a prefix of it; it yields exactly what is missing |
| `AssistantProjection.ChunkExact` | engine/assistant_projection.go:82-119 | a chunk is offered with its bytes under the identity in force or a new one, and fails only without any |
| `AssistantProjection.PassesOn` | engine/assistant_projection.go:46-71 | any other event is yielded as it is, and a stream start forgets the identity |
| `AssistantProjection.EmptyExact` | engine/assistant_projection.go:46-71 | an empty assistant event is yielded until the query has failed |
| `CheckpointStore.GraphCheckpointStore.Open` | engine/graph_hitl.go:168-202 | reload with its validation |
| `CheckpointStore.GraphCheckpointStore.Write` | engine/graph_hitl.go:276-309 | a new payload clears the interrupt before it is written |
| `CheckpointStore.GraphCheckpointStore.Mark` | engine/graph_hitl.go:333-357 | an interrupt needs a payload and a valid request |
| `CheckpointStore.GraphCheckpointStore.Remove` | engine/graph_hitl.go:311-331 | file first, then memory |
| `CheckpointStore.GraphCheckpointStore.Read` | engine/graph_hitl.go:258-274 | the payload, nothing, or a wrong identity |
| `CheckpointStore.InterruptBinding` | engine/graph_hitl.go:276-357 | after any run a present interrupt was marked after the last payload write and on that payload |
| `CheckpointStore.ReloadExact` | engine/graph_hitl.go:396-419 | a restart gives that same pair, nothing, or a refusal, and refuses exactly when a payload has no interrupt |
| `CheckpointStore.ReloadUnstored` | engine/graph_hitl.go:168-185 | without a path a restart is empty |
| `CheckpointStore.ReloadAccepts` | engine/graph_hitl.go:396-419 | a file is accepted if and only if version, checkpoint, payload and interrupt are right |
| `CheckpointStore.WriteThenRead` | engine/graph_hitl.go:258-309 | a payload that is accepted is what is read next, without an interrupt, and accepted exactly when it may be |
| `CheckpointStore.MarkThenRead` | engine/graph_hitl.go:333-357 | an accepted interrupt stands beside the very payload that was there |
| `CheckpointStore.RemoveThenRead` | engine/graph_hitl.go:311-331 | after a deletion nothing is read, in memory or on disk |
| `GraphLoop.GraphFollowsLoop` | engine/graph.go:509-887 | whenever the plain loop ends, the graph ends the same way |
| `GraphLoop.LoopFollowsGraph` | engine/graph.go:509-933 | whenever the graph ends, the plain loop ends the same way |
| `AgentMerge.MergeKeys` | engine/agent_detail.go:331-344 | the backward pass numbers each base from the end |
| `AgentMerge.MergeRows` | engine/agent_detail.go:291-309 | the two loops with their position table build the merge |
| `AgentMerge.RowsPerBase` | engine/agent_detail.go:291-344 | per base, as many merged rows as the larger of the two sides |
| `AgentMerge.RowPerKey` | engine/agent_detail.go:291-375 | each key has one row: the retained one, the live one, or both merged |
| `AgentMerge.RowExact` | engine/agent_detail.go:291-375 | each retained row keeps its place, alone or blended field by field with its live partner, and every other live row follows as it is |
| `AgentMerge.MergeOrder` | engine/agent_detail.go:291-309 | retained keys in order, then the live ones without a partner in order |
| `AgentMerge.NumberedFromEnd` | engine/agent_detail.go:331-344 | a row's number counts the rows of its base from it to the end |
| `AgentMerge.BaseExact` | engine/agent_detail.go:331-344 | rows share a base if and only if they share an explicit identity, or have none and say the same |

## Left out

- File-system work, JSON, hashing and identity generation: files are values, hashes are the hashed fields, fresh identities are arguments.
- Legacy versions of the stored envelopes, and their migration.
- Wrap-around of the coordinator's revision and sequence counters.
- An unavailable coordinator: every step that needs one has it.
- A coordinator without a path, which keeps its queue in memory only.
- Scope validation of Goal commands, Plan state beyond the containment flag, and runtime event projection.
- White space: the trimming of arguments is modelled only where a receipt's digest depends on it.
- The content of media prompts and their durable records, image payloads, notification payloads, and editing a pending prompt: prompts are text or opaque.
- Optimistic Goal control (`engine/goal_control.go`), which checks its expectation before the transition takes the locks.
- Session switching while a provider call is in flight.
- GoalServices.GoalService.RecordUsage: the source marks a failed report as ambiguous in the same call; here the two are separate steps and others may come between.
- Message fields other than role, content and the compaction mark, and the repair of loaded messages, which is an arbitrary function.
- The session checkpoint written beside the transcript, apart from its outcome.
- Commands between turns that replace the conversation or switch the session (clear, compact, rewind, resume; `engine/command_executor.go`).
- GraphLoop.GraphFollowsLoop: nodes are functions on values, and a callback's answer is a function of the round and the tool calls.
- AgentMerge.MergeRows: truncation to the newest rows and the filling in of missing or duplicate identities.
- Tool execution, model providers, permissions, presentation and the event-order validator.
