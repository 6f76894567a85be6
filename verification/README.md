# Lifecycle, gate and delivery proofs

A Dafny model of the parts of the system in which several parties act on shared state and may stop
anywhere, with proofs of what holds over whole runs:

- the **voice-session lifecycle**: sessions, start operations and end intents in the database; the start
  saga with compensation claims; the start/end interlock; leased end intents and their recovery worker; and
  the media plane, whose calls may take effect and lose their reply;
- the **command gate** with its wake signals, frames, timers and recognition workers;
- small concurrent structures: the keyed lock, the replay cache, the durable fallback claim, the
  per-session result queue and the interruptible speech sink with its WAV reading and splitting;
- idempotent stores and monotone observers: final turns with their outbox and attribution queue, versioned
  language configurations, and the clients' snapshot stores.

`dafny verify dfyconfig.toml` checks everything.

## How it is built

Each part has the same three layers.

1. *What one step does*: functions on values, one per transaction or critical section
   (`SessionTransactions`, `CommandGate`, `TurnStore`, ...).
2. *The program's own form*: a class whose methods update its fields in place, with the program's early
   returns and loops, each proved to be the function of layer 1 (`PostgresRepository.Repository`,
   `CommandGateMethods.LiveGate`, `TtsSink.AudioSink`, ...).
3. *Whole runs*: a machine whose steps are those functions plus what the environment may do (crashes, lost
   replies, stale callbacks, clock ticks), an inductive invariant, and the theorems. A step that is not
   enabled changes nothing, so theorems speak about every sequence of steps.

Beside layer 1 stand laws that say, independently of how a step is written, exactly when it takes effect, what it
leaves and what it leaves alone: the modules named `...Outcomes`, `ReplayAdmission` and `SpeechHistory`. The table
below lists the main ones; next to them are the refusals of malformed requests and smaller helpers.

| file | contents |
|---|---|
| `SessionRows`, `SessionTransactions` | rows, invariants, and every repository transaction as one step |
| `SessionOutcomes` | exactly when each transaction takes effect and what it leaves |
| `SessionRuns`, `SessionHistory` | any number of instances interleaving transactions: interlock, agreement, edges, compensation authority |
| `PostgresRepository` | the repository as a class, each method proved to be its transaction |
| `SessionLifecycle` | Start, End, recovery and failure reports as small programs, with crashes and lost replies |
| `LifecycleOutcomes` | what each step of these programs decides and leaves |
| `SessionSafety`, `SessionNoOrphan` | no orphan runtime, and what success replies mean |
| `SessionProgress` | retries and recovery finish what crashed calls left; failed cleanup forbids new pipelines |
| `EndLeases` | attempt windows on end intents |
| `KeyedLock` | the reference-counted lock |
| `CommandGate`, `CommandGateMethods`, `CommandGateSafety` | the gate and what it guarantees over whole runs |
| `CommandGateOutcomes` | what each frame, signal and timer comes to, and an undisturbed command |
| `CommandGateStale`, `CommandGateContexts` | workers whose attempt was left, command ids accepted again, and whose context is live |
| `FallbackClaims`, `ReplayCache`, `ResultQueue` | claim, cache, queue |
| `FallbackOutcomes`, `ReplayAdmission` | exactly when an operation is claimed, and when it may run |
| `Wav`, `TtsSink`, `TtsInterruption` | WAV bytes, speech sink, interruption |
| `SpeechHistory` | what is shipped is what arrived |
| `TurnStore`, `TurnDelivery`, `TurnDeliverySafety` | final turns, their outbox, attribution |
| `TurnOutcomes`, `TurnProgress` | exactly what storing, correcting and settling do, attributions that last, undisturbed deliveries |
| `LanguageConfigs`, `LanguageRuns` | versions, paging, racing creators |
| `LanguageOutcomes`, `ModeOutcomes` | exactly when creating and switching succeed, and with what |
| `Observers`, `ModeSwitch` | snapshot stores, mode switching on device and phone |
| `Backoff` | retry delays in machine integers |

## Main results

- Sessions: `SessionRuns.StartEndInterlock`, `SessionHistory.RunEvolves`, `SessionHistory.AuthorityInEveryRun`,
  `SessionNoOrphan.NoOrphanRuntime`, `SessionNoOrphan.EndSuccessIsFinal`, `SessionOutcomes.FinishedByItsOwn`, the
  recovery lemmas of `SessionProgress`, `EndLeases.WindowsNeverOverlap`.
- Gate: `CommandGateSafety.OneOutcomePerOpen`, `CommandGateStale.SupersededNeverPublishes`,
  `CommandGateStale.SupersededWorkerIsSilent`, `CommandGateContexts.AtMostOneLive`,
  `CommandGateContexts.LiveIffCurrent`, `CommandGateSafety.SilentAfterCancel`, `CommandGateOutcomes.UndisturbedVerdict`.
- Structures: `KeyedLock.MutualExclusion`, `KeyedLock.NoLostWakeup`, `FallbackClaims.OneLiveOwner`,
  `ReplayCache.WaitersGetTheOwnersOutcome`, `ReplayAdmission.OwnerIffFreeAndRoom`, `ReplayAdmission.FinishedThenRepeated`,
  `ResultQueue.PublishedOnceInOrder`, `TtsInterruption.AtMostOneMorePiece`, `TtsInterruption.HeldIff`,
  `SpeechHistory.UndisturbedCompletionShipsAll`, `Wav.PcmDataIff`, `Wav.RoundTripIff`.
- Stores: `TurnDeliverySafety.AckedIsStoredForGood`, `TurnDeliverySafety.AttributedAtMostOnce`, `TurnOutcomes.AttributionLasts`,
  `LanguageRuns.PagingInEveryRun`, `LanguageRuns.OneConfigPerKey`, `Observers.NeverRegresses`,
  `Observers.AlwaysOrderedIff`, `ModeSwitch.SuccessAgreesWithState`.

The table under "Model" lists these and what they rest on; rows that begin with "helper" spell out one guard.

## What is assumed

- A transaction locks the session row or the intent row first, so it is one atomic step. Foreign keys tie
  operations and intents to their session's owner, so filters by owner and session are filters by session.
  The unique indexes of the schema are checks before an insert. An operation id that is already taken is a
  storage error.
- The media plane keeps the contract of `services/api/sessions/ports.go:235-252`: `Start` never takes over
  another operation's runtime, a confirmed `Stop` really stopped. Everything else it answers is arbitrary.
  A runtime failure is reported only after cleanup, with the time of the cleanup.
- The runtime theorems are about one process, whose lock serialises the calls on a session. The database
  theorems are about any number of processes.
- Clock readings of the lifecycle machine increase strictly. `SessionNoOrphan.FailureKeepsOwnerIff` shows
  which comparison needs that. In `EndLeases` database and attempts count time at the same rate, and an
  attempt reads its remaining budget and opens its window in the same instant.
- In the gate, deadlines and cancellation by a caller come with the frame or the recognition result they affect;
  contexts are followed as far as the gate itself cancels them.
- Payload hashes determine their payload; drawn identifiers, receipts and tokens are fresh.

## Properties that hold only under a condition

- Ending a session keeps the rows consistent exactly when no start operation of it is unresolved. The
  transition does not check that; its callers hold an end intent, which implies it
  (`SessionRuns.EndKeepsIff`, `SessionRuns.StartEndInterlock`).
- Attempt windows exclude each other as long as no retry comes under the name of another attempt still within
  its budget on that session, as with owner names that differ there. Two end requests for one session with one
  trace id share theirs, and then a late retry of the first releases the lease of the second
  (`EndLeases.DistinctNamesAreClear`, `EndLeases.RetryRevokesIff`, `EndLeases.SharedNamesOverlap`).
- `beginProcessing` compares command ids, not attempts. A worker left behind is let in exactly while an attempt
  of its own id is being recognized, which takes 256 other ids accepted in between. It never publishes even then,
  but it replaces the attempt's context, so that the attempt's own worker goes on under a cancelled one
  (`CommandGateSafety.AdmittedIff`, `CommandGateStale.SupersededActsIff`, `CommandGateContexts.CancelledUnderWayIff`,
  `CommandGateStale.ReacceptedIdCancelsItsSuccessor`). With distinct ids neither happens
  (`CommandGateContexts.LiveIffCurrent`).
- A discarded playback stays silent unless another completion of the same playback resets its flag when it
  begins, or takes flag and tombstone away when it ends (`TtsInterruption.UnmutedIff`, `TtsInterruption.HeldIff`,
  with the runs `TtsInterruption.BeginRevives` and `TtsInterruption.EndRevives`).
- Reading back a written WAV is exact if and only if the samples are shorter than 2^32 bytes; the container's
  own size field is right only below 2^32 - 36 (`Wav.RoundTripIff`, `Wav.RiffSizeIff`).
- Connections are ordered by version and modes by generation within one identity, so their time may go back there
  and then drop across identities, too: the order holds exactly for snapshots above the latest time shown of other
  identities, and always only for runtimes (`Observers.StepsBackIff`, `Observers.TimeOrderedIff`,
  `Observers.AlwaysOrderedIff`). The phone's mode rule has no time check between runtimes at all
  (`Observers.MobileModeTimeMayDrop`).
- `endRecoveryBackoff` is the capped power of two, except one unit more when the power would stop one unit
  short of the maximum (`Backoff.EndRecoveryClosedForm`).
- Once a compensation is recorded as failed, no call of the service ever releases the session again: the
  follow-up recovery flow that `services/api/sessions/README.md:107-108` mentions is not among these calls
  (`SessionProgress.FailedCleanupForbidsPipelines`).

## Model

| member | source | states |
|---|---|---|
| `PostgresRepository.Repository.GetStartOperation` | services/api/sessions/postgres_start.go:12-64 | finds the operation its key owns in this session; a compensated one counts as absent, and another unresolved one of the session as a start in progress |
| `PostgresRepository.Repository.BeginStartOperation` | services/api/sessions/postgres_start.go:66-204 | begins a pending operation only for a created session with no open end intent, unused key and no unresolved operation; replays or refuses a used key by its status; keeps the tables consistent |
| `PostgresRepository.Repository.ClaimStartCompensation` | services/api/sessions/postgres_start.go:223-300 | grants a pending operation, or a compensating one to the same claim id, and changes nothing otherwise; keeps the tables consistent |
| `PostgresRepository.Repository.FinishStartCompensation` | services/api/sessions/postgres_start.go:302-408 | only the claim holder records an outcome, which may go from failed to compensated but never back; keeps the tables consistent |
| `PostgresRepository.Repository.TransitionToActive` | services/api/sessions/postgres_end.go:262-345 | session and operation become active and completed together, or a committed activation is replayed unchanged; keeps the tables consistent |
| `PostgresRepository.Repository.SaveEndIntent` | services/api/sessions/postgres_end.go:12-124 | saves or re-leases the one intent of a session that has no unresolved start; the lease is counted from the database clock; keeps the tables consistent |
| `PostgresRepository.Repository.CompleteEndIntent` | services/api/sessions/postgres_end.go:183-240 | completes the intent of a terminal session once and frees its lease; keeps the tables consistent |
| `PostgresRepository.Repository.TransitionToEnded` | services/api/sessions/postgres_end.go:347-396 | ends a session in the expected state; the tables stay consistent exactly if the call fails or no start operation of the session is unresolved |
| `PostgresRepository.Repository.TransitionToFailed` | services/api/sessions/postgres_end.go:398-443 | makes an active session failed at the reported time, no earlier than it started; keeps the tables consistent |
| `PostgresRepository.Repository.ClaimPendingEndIntent` | services/api/sessions/postgres_end_recovery.go:13-65 | leases some due intent to the worker, or finds none only if none is due |
| `PostgresRepository.Repository.RetryClaimedEndIntent` | services/api/sessions/postgres_end_recovery.go:69-101 | counts a retry, delays the next attempt and frees the lease for the unexpired owner only |
| `PostgresRepository.Repository.CompleteClaimedEndIntent` | services/api/sessions/postgres_end_recovery.go:105-169 | completes the intent for the unexpired owner only; a completed one is accepted as it is |
| `SessionOutcomes.GetOutcome` | services/api/sessions/postgres_start.go:12-64 | a key finds exactly the operation that owns it unless that was compensated; for an unused key the answer tells exactly whether another operation of the session is unresolved |
| `SessionOutcomes.BeginOutcome` | services/api/sessions/postgres_start.go:66-161 | an operation begins if and only if the session is created and not ending, the key unused, none of its operations unresolved and the id new; the row it leaves, and nothing else |
| `SessionOutcomes.BeginReplayOutcome` | services/api/sessions/postgres_start.go:185-204 | a used key returns its operation if and only if it was for this request and is pending, compensating or completed; which refusal otherwise |
| `SessionOutcomes.ClaimOutcome` | services/api/sessions/postgres_start.go:262-299 | on a created session a claim is granted if and only if the operation is pending or compensating under this very claim; afterwards it is compensating under it, and nothing else changed |
| `SessionOutcomes.ClaimRefusals` | services/api/sessions/postgres_start.go:223-271 | each other answer to a claim if and only if its cause, and that nothing is written then |
| `SessionOutcomes.FinishOutcome` | services/api/sessions/postgres_start.go:332-408 | an outcome is recorded if and only if the claim is the operation's own and it is compensating, failed, or compensated and completed again; the row it leaves |
| `SessionOutcomes.ActivateOutcome` | services/api/sessions/postgres_end.go:262-345 | session and operation start together if and only if one is created, the other pending and neither is younger than the start; both rows in full, and nothing else |
| `SessionOutcomes.SaveOutcomeFresh` | services/api/sessions/postgres_end.go:95-124 | a first request makes the intent if and only if no start is unresolved and the key is unused; the intent it makes |
| `SessionOutcomes.SaveOutcomeRepeated` | services/api/sessions/postgres_end.go:62-94 | a repeated request is leased the open intent if and only if no lease is running, and only its lease changes |
| `SessionOutcomes.CompleteOutcome` | services/api/sessions/postgres_end.go:183-240 | an intent is completed if and only if its session is terminal and the time not before the request; only completion and lease change |
| `SessionOutcomes.LeaseOutcome` | services/api/sessions/postgres_end_recovery.go:13-65 | a worker gets an intent if and only if it is open, its time has come and no lease is running, for as long as it asks |
| `SessionOutcomes.RetryOutcome` | services/api/sessions/postgres_end_recovery.go:69-101 | a failed attempt is recorded if and only if the worker holds the lease beyond now; the row it leaves |
| `SessionOutcomes.EndOutcome` | services/api/sessions/postgres_end.go:347-396 | a session is ended if and only if it is in the expected state and no younger; it is Ended at that time and otherwise as it was |
| `SessionOutcomes.FailOutcome` | services/api/sessions/postgres_end.go:398-443 | a session is failed if and only if it is active and the report no older than its activation; it is Failed at the time of the report and otherwise as it was |
| `SessionOutcomes.FinishedByItsOwn` | services/api/sessions/postgres_end.go:347-443 | in every run a session is Failed only by a failure report and Ended only by an ending transaction, at the time reported |
| `SessionRuns.EndKeepsIff` | services/api/sessions/postgres_end.go:347-396 | ending keeps every row invariant if and only if it is refused or the session has no unresolved start operation |
| `SessionRuns.StepKeeps` | services/api/sessions/postgres_start.go:66-408 | every transaction of every caller, ends only after some call was handed the intent, keeps keys unique, one unresolved and one completed operation per session, statuses and timestamps in agreement, and the interlock; intents handed out stay |
| `SessionRuns.RunKeeps` | services/api/sessions/postgres_end.go:12-443 | the same over every interleaving of any number of instances |
| `SessionRuns.StartEndInterlock` | services/api/sessions/postgres_end.go:46-57 | in every run an unresolved start operation is the only one of a created session that has no end intent |
| `SessionRuns.SessionsAndOperationsAgree` | services/api/sessions/postgres_end.go:309-334 | in every run active and failed sessions have exactly one completed operation and no unresolved one, created ones none completed, and created, started and ended times are in order |
| `SessionHistory.StepMoves` | services/api/sessions/postgres_start.go:272-299 | a transaction changes at most one session, one operation of it and its intent, each along an allowed edge |
| `SessionHistory.RunEvolves` | services/api/sessions/postgres_start.go:381-403 | in every run nothing is deleted, statuses only move forward, claim ids never change once set, and terminal sessions, resolved operations and completed intents are frozen |
| `SessionHistory.GrantIsHeld` | services/api/sessions/postgres_start.go:262-288 | a granted claim belongs to the claimant on a session that is still created |
| `SessionHistory.HeldExcludesOthers` | services/api/sessions/postgres_start.go:223-300 | while a claim is held nothing begins, activates or fails, no end intent is saved or leased, so no caller gets to end the session, and no other claim is granted |
| `SessionHistory.AuthorityInEveryRun` | services/api/sessions/postgres_start.go:332-408 | in every run the claim and its session stay untouched until the claimant records cleanup as complete |
| `SessionHistory.NoClaimAfterActivation` | services/api/sessions/service_start.go:358-362 | once a session has left created, no later claim is granted, so no start may stop its runtime |
| `SessionHistory.ActivationReplays` | services/api/sessions/service_start.go:225-238 | a committed activation is answered by replay in every later state in which the session is active and not ending |
| `LifecycleOutcomes.SnapshotOutcome` | services/api/sessions/service_start_runtime.go:61-100 | helper: a snapshot leads to activation if and only if it is sound, the operation's own and of a runtime that is up; to cleanup if and only if it is own and broken, or down with a launch that cannot still come through; the start gives up otherwise |
| `LifecycleOutcomes.StopOutcome` | services/api/sessions/service_start.go:285-297 | helper: a stop is confirmed if and only if a sound snapshot of the session says stopped; no other session is touched |
| `LifecycleOutcomes.OperationOutcome` | services/api/sessions/service_start.go:240-283 | helper: an operation is launched, cleaned up under its own claim, answered, or refused, each if and only if its status says so |
| `LifecycleOutcomes.ClaimingOutcome` | services/api/sessions/service_start.go:328-371 | helper: cleanup begins if and only if a grant was heard; a denial leads to a second look, and anything else gives up |
| `LifecycleOutcomes.SavingOutcome` | services/api/sessions/service_end.go:12-108 | helper: an end goes on from the state it read if and only if its intent was saved or leased for its own reason and is open |
| `LifecycleOutcomes.RecoveringOutcome` | services/api/sessions/end_recovery.go:152-258 | helper: a recovery completes its intent if and only if it ended the session, looks again if and only if somebody else did, and retries otherwise |
| `SessionSafety.StartSafe` | services/api/sessions/service_start_runtime.go:9-147 | every step of a start, whatever is lost or answered, keeps live runtimes accounted for |
| `SessionSafety.EndSafe` | services/api/sessions/service_end.go:12-108 | every step of an end keeps live runtimes accounted for |
| `SessionSafety.WorkerSafe` | services/api/sessions/end_recovery.go:152-258 | every step of the recovery worker keeps live runtimes accounted for |
| `SessionSafety.FailureSafe` | services/api/sessions/service_failure.go:11-59 | recording a failure, however late, keeps live runtimes accounted for |
| `SessionSafety.OwnedThroughActivation` | services/api/sessions/postgres_end.go:309-334 | activation hands the live runtime from the unresolved operation to the completed one |
| `SessionNoOrphan.MachineStepKeeps` | services/api/sessions/locker.go:8-13 | with calls on a session serialised, every step of any call, crash or environment event keeps the machine invariant |
| `SessionNoOrphan.NoOrphanRuntime` | services/api/sessions/service_start.go:328-397 | in every run a live runtime carries an unresolved operation of a created session or the completed operation of an active one |
| `SessionNoOrphan.EndedSessionsAreSilent` | services/api/sessions/service_end.go:190-221 | in every run a terminal session, and a created one with no unresolved operation, has no live runtime |
| `SessionNoOrphan.StartStopsOnlyWithAuthority` | services/api/sessions/service_start.go:325-377 | a start about to stop the runtime holds the claim on a created session, and any live runtime there is its own operation's |
| `SessionNoOrphan.StartSuccessIsDurable` | services/api/sessions/service_start_runtime.go:124-147 | a start that reports success completed an operation of its own key and payload |
| `SessionNoOrphan.EndSuccessIsFinal` | services/api/sessions/service_end.go:247-264 | an end that reports success left a terminal session, a completed intent and no runtime |
| `SessionNoOrphan.FailureKeepsOwnerIff` | services/api/sessions/postgres_end.go:425-428 | a failure report leaves a live runtime accounted for if and only if it is older than the activation |
| `SessionProgress.FreshStartSucceeds` | services/api/sessions/service_start.go:38-66 | undisturbed, a fresh start of a created session ends active with its runtime live |
| `SessionProgress.InterruptedStartResumes` | services/api/sessions/service_start.go:107-124 | undisturbed, a retry with the same key completes the pending operation a crashed start left |
| `SessionProgress.InterruptedCleanupResumes` | services/api/sessions/service_start.go:268-283 | undisturbed, a retry with the same key finishes the cleanup a crashed start left |
| `SessionProgress.FailedStartIsCleanedUp` | services/api/sessions/service_start.go:328-433 | undisturbed, a start whose activation failed claims its pending operation, stops the runtime and leaves the operation compensated and the session without a runtime |
| `SessionProgress.LostActivationIsReplayed` | services/api/sessions/service_start.go:358-362 | an activation whose reply was lost ends in success by a denied claim and a replay, and the runtime is not touched |
| `SessionProgress.LostLaunchIsReconciled` | services/api/sessions/service_start_runtime.go:33-59 | a launch whose reply was lost is found again and activated |
| `SessionProgress.RecoveryAdoptsForeignEnd` | services/api/sessions/end_recovery.go:214-232 | a recovery that finds its session ended by somebody else still completes the intent it holds |
| `SessionProgress.EndSucceeds` | services/api/sessions/service_end.go:12-108 | undisturbed, a request that may take the intent ends its session from wherever earlier attempts stopped |
| `SessionProgress.RecoverySucceeds` | services/api/sessions/end_recovery.go:152-195 | undisturbed, the worker that holds the lease ends the session and completes the intent from wherever it stopped |
| `SessionProgress.FailureIsRecorded` | services/api/sessions/service_failure.go:11-59 | undisturbed, a failure report that reads an active session leaves it Failed at the reported time |
| `SessionProgress.FailedCleanupForbidsPipelines` | services/api/sessions/README.md:107-108 | in every run after a cleanup was recorded as failed, no runtime comes up in the session, and it neither starts nor ends |
| `EndLeases.RetryTakesEffectIff` | services/api/sessions/postgres_end_recovery.go:81-100 | helper: a retry is recorded if and only if the caller owns the unexpired lease of an open intent, and what it changes |
| `EndLeases.CompletionTakesEffectIff` | services/api/sessions/postgres_end_recovery.go:126-169 | helper: a worker completes an intent if and only if it owns the unexpired lease and the session is terminal |
| `EndLeases.OpenWindowOutcome` | services/api/sessions/end_recovery.go:87-121 | helper: a granted attempt opens its window if and only if budget is left, until the budget or its timeout ends |
| `EndLeases.CompletedIsFrozen` | services/api/sessions/postgres_end.go:69-72 | a completed intent never changes again in any run and has no owner |
| `EndLeases.BudgetBlocksGrants` | services/api/sessions/postgres_end.go:73-93 | while an attempt is within its own budget the database grants its intent to nobody |
| `EndLeases.WindowsNeverOverlap` | services/api/sessions/end_recovery.go:87-121 | in every run in which no retry comes under the name of another attempt within its budget on the session, two attempts that may act on one session now are the same attempt, and it owns the lease unless the intent is complete |
| `EndLeases.DistinctNamesAreClear` | services/api/sessions/end_recovery.go:74-99 | owner names that differ on each session, and may be shared elsewhere, rule out such retries |
| `EndLeases.RetryRevokesIff` | services/api/sessions/postgres_end_recovery.go:81-93 | a retry takes a live attempt's grant if and only if it bears the same owner name and the intent is open |
| `EndLeases.SharedNamesOverlap` | services/api/sessions/service_end.go:35-70 | a run in which two requests with one trace id let a worker's window overlap the second |
| `KeyedLock.KeyedLocker.Enter` | services/api/sessions/locker.go:30-38 | finds or creates the entry of the key and counts the caller in |
| `KeyedLock.KeyedLocker.TryTake` | services/api/sessions/locker.go:40-44 | takes the token exactly if the channel holds it |
| `KeyedLock.KeyedLocker.PutBack` | services/api/sessions/locker.go:45-55 | puts the token into an empty channel |
| `KeyedLock.KeyedLocker.Release` | services/api/sessions/locker.go:60-69 | counts the caller out and removes the key only with its last reference and its own entry |
| `KeyedLock.MutualExclusion` | services/api/sessions/locker.go:30-58 | at most one caller holds a key in every run, across deletion and re-creation of entries |
| `KeyedLock.TokenIffFree` | services/api/sessions/locker.go:24-28 | an entry's token is in its channel if and only if nobody has it |
| `KeyedLock.NoLostWakeup` | services/api/sessions/locker.go:40-58 | while somebody waits, some caller has the token or the waiter can take it |
| `KeyedLock.EntriesAreInUse` | services/api/sessions/locker.go:60-69 | a key is in the map if and only if somebody uses it, and its count is the number of holders, waiters and releasers |
| `KeyedLock.RepeatedUnlock` | services/api/sessions/locker.go:50-56 | unlocking again changes nothing in any later state |
| `KeyedLock.UndisturbedUse` | services/api/sessions/locker.go:30-69 | a caller of an unused key holds it as soon as it asks, and afterwards the key is gone |
| `CommandGateMethods.LiveGate.Open` | services/realtime-audio/command/gate.go:302-341 | refuses invalid, closed and duplicate requests; otherwise cancels the attempt under way with one outcome and arms a new one |
| `CommandGateMethods.LiveGate.RememberCommandID` | services/realtime-audio/command/gate.go:656-664 | lookup set and eviction list keep holding the same ids, 256 at most |
| `CommandGateMethods.LiveGate.Consume` | services/realtime-audio/command/gate.go:373-406 | quarantines, fails or forwards a frame by state, validity and deadlines |
| `CommandGateMethods.LiveGate.HandleEvents` | services/realtime-audio/command/gate.go:407-437 | the loop over a frame's segmenter events: opens the stream, pushes audio, starts recognition or fails |
| `CommandGateMethods.LiveGate.Replay` | services/realtime-audio/command/gate.go:357-371 | the loop over transferred frames, stopping when the gate falls dormant |
| `CommandGateMethods.LiveGate.Expire` | services/realtime-audio/command/gate.go:810-826 | a timer fails the attempt it belongs to unless it came too late |
| `CommandGateMethods.LiveGate.BeginProcessing` | services/realtime-audio/command/gate.go:576-598 | lets a worker in by command id alone, replacing the attempt's context and completing its capture |
| `CommandGateMethods.LiveGate.Decide` | services/realtime-audio/command/gate.go:480-487 | only the worker of the current attempt leaves it |
| `CommandGateMethods.LiveGate.AbandonLocked` | services/realtime-audio/command/gate.go:828-856 | resets everything that belongs to the attempt |
| `CommandGateMethods.LiveGate.FailLocked` | services/realtime-audio/command/gate.go:772-776 | publishes one failure for the attempt and leaves it |
| `CommandGateOutcomes.OpenOutcome` | services/realtime-audio/command/gate.go:302-341 | an accepted signal cancels what was under way with its outcome and arms the next attempt with the request; everything else it carries over |
| `CommandGateOutcomes.FailOutcome` | services/realtime-audio/command/gate.go:772-776 | failing publishes one outcome under the attempt's own id and leaves nothing of the attempt behind |
| `CommandGateOutcomes.UnheardFrames` | services/realtime-audio/command/gate.go:373-383 | helper: a dormant gate passes frames on, a recognizing gate keeps them, and both change nothing |
| `CommandGateOutcomes.BrokenFrames` | services/realtime-audio/command/gate.go:384-389 | helper: a frame whose caller is gone, or that is not valid, ends the attempt with its own failure before anything else is looked at |
| `CommandGateOutcomes.TimedFrames` | services/realtime-audio/command/gate.go:390-402 | a frame from before the capture is swallowed; one past the window ends the attempt as expired, and one of a silent attempt past the speech timeout as without speech, the window first |
| `CommandGateOutcomes.NoSpeechIff` | services/realtime-audio/command/gate.go:400-402 | a live frame reports missing speech if and only if the attempt is armed and the frame lies between the two deadlines |
| `CommandGateOutcomes.SpeechGoesOn` | services/realtime-audio/command/gate.go:407-437 | a frame whose events all succeed before the end of the utterance leaves the gate capturing on one stream |
| `CommandGateOutcomes.SpeechEnds` | services/realtime-audio/command/gate.go:432-437 | a frame that ends the utterance starts recognition once and quarantines what follows |
| `CommandGateOutcomes.SpeechBreaks` | services/realtime-audio/command/gate.go:409-431 | a frame with a failing event ends the attempt with the failure of the first one that fails |
| `CommandGateOutcomes.ExpireOutcome` | services/realtime-audio/command/gate.go:810-826 | helper: a timer that still counts ends its attempt with its own failure, any other changes nothing |
| `CommandGateOutcomes.CancelOutcome` | services/realtime-audio/command/gate.go:280-298 | Cancel closes the gate and drops its attempt without an outcome, and returns if and only if the workers it saw have ended |
| `CommandGateOutcomes.UndisturbedVerdict` | services/realtime-audio/command/gate.go:470-491 | an utterance that is recognized undisturbed is published with its verdict under its own id, once, and the gate is ready again |
| `CommandGateSafety.ConsumeKeeps` | services/realtime-audio/command/gate.go:373-437 | a frame passes through if and only if the gate was dormant, and then changes nothing |
| `CommandGateSafety.StepKeeps` | services/realtime-audio/command/gate.go:280-341 | every step of every source keeps the gate consistent |
| `CommandGateSafety.OneOutcomePerOpen` | services/realtime-audio/command/gate.go:470-491 | every accepted wake signal comes to at most one outcome under its own id, and to exactly one once its attempt is left unless Cancel closed the gate over it |
| `CommandGateSafety.DuplicateIffRecent` | services/realtime-audio/command/gate.go:317-320 | a well-formed signal to an open gate is a duplicate if and only if its id is among the last 256 accepted, and arms the next attempt otherwise |
| `CommandGateSafety.RecognizedAtMostOnce` | services/realtime-audio/command/gate.go:452-462 | recognition starts at most once per attempt, on an open stream |
| `CommandGateSafety.StaleTimerIsSilent` | services/realtime-audio/command/gate.go:810-826 | helper: a timer does nothing if and only if its attempt is not current, speech was captured before a no-speech timer, or capture was complete before a window timer |
| `CommandGateSafety.AdmittedIff` | services/realtime-audio/command/gate.go:576-598 | in every run a worker is let in if and only if the attempt under way is being recognized and was accepted under the worker's own command id |
| `CommandGateSafety.AdmittedOnlyWhenCurrent` | services/realtime-audio/command/gate.go:576-581 | with the last 256 ids remembered, a worker let in is current or more than 256 signals were accepted since |
| `CommandGateSafety.CurrentIsAdmitted` | services/realtime-audio/command/gate.go:576-598 | the current attempt's worker is admitted |
| `CommandGateStale.EndedIsLeftBehind` | services/realtime-audio/command/gate.go:322-341 | an attempt ended by anything but its own worker's decision leaves its worker behind |
| `CommandGateStale.SupersededNeverPublishes` | services/realtime-audio/command/gate.go:470-491 | in the rest of the run, with any ids, a worker left behind never publishes: the outcomes of its attempt stay as they are |
| `CommandGateStale.SupersededActsIff` | services/realtime-audio/command/gate.go:576-598 | a worker left behind is let in if and only if it enters while an attempt of its own id is recognized, and just then it changes that attempt, whose context it cancels and replaces |
| `CommandGateStale.SupersededWorkerIsSilent` | services/realtime-audio/command/gate.go:480-487 | with ids that are not accepted again, a worker left behind publishes nothing and changes no later attempt, at any distance and for the rest of the run |
| `CommandGateStale.ReacceptedIdRevivesItsWorker` | services/realtime-audio/command/gate.go:576-598 | a run in which an id is accepted again after 256 others and its old worker completes the capture of the new attempt |
| `CommandGateStale.ReacceptedIdCancelsItsSuccessor` | services/realtime-audio/command/gate.go:590-596 | the same run with the new attempt's own worker already processing: letting the old one in cancels its context under it |
| `CommandGateContexts.AtMostOneLive` | services/realtime-audio/command/gate.go:590-596 | in every run at most one worker at a time has a context the gate has not cancelled, and only while recognizing |
| `CommandGateContexts.CancelledUnderWayIff` | services/realtime-audio/command/gate.go:576-598 | a worker loses its context while its attempt goes on if and only if another worker of the same command id is let in |
| `CommandGateContexts.LiveIffCurrent` | services/realtime-audio/command/gate.go:829-852 | in every run with distinct ids a worker's context is live if and only if its attempt is the one under way |
| `CommandGateSafety.SilentAfterCancel` | services/realtime-audio/command/gate.go:280-298 | after Cancel returned no worker runs or starts and nothing is published |
| `FallbackClaims.ReplayStore.Claim` | services/realtime-audio/localruntime/postgres_fallback_replays.go:41-116 | inserts, takes over an expired claim through the reclaimable state in one transaction, or reports why not |
| `FallbackClaims.ReplayStore.Renew` | services/realtime-audio/localruntime/postgres_fallback_replays.go:118-153 | renews if and only if the caller owns the claim |
| `FallbackClaims.ReplayStore.Complete` | services/realtime-audio/localruntime/postgres_fallback_replays.go:157-194 | succeeds if and only if the row is accepted afterwards |
| `FallbackClaims.ReplayStore.Abort` | services/realtime-audio/localruntime/postgres_fallback_replays.go:199-235 | removes only the caller's own claim |
| `FallbackOutcomes.ClaimOutcome` | services/realtime-audio/localruntime/postgres_fallback_replays.go:41-116 | an operation is claimed if and only if its row is missing, or has this payload and is reclaimable or was last renewed five minutes ago; each other answer if and only if its cause; the row it leaves |
| `FallbackOutcomes.OwnerOutcome` | services/realtime-audio/localruntime/postgres_fallback_replays.go:118-235 | the owner's renewal moves the stamp, its completion accepts, its abort removes the row and no other; statements of others change nothing |
| `FallbackOutcomes.AbortFreesTheOperation` | services/realtime-audio/localruntime/postgres_fallback_replays.go:199-235 | after a playback that never began the next request claims the operation, with any payload and however fresh the lease was |
| `FallbackOutcomes.CrashedOwnerIsReplaced` | services/realtime-audio/localruntime/postgres_fallback_replays.go:90-110 | the operation of an owner that crashed is taken over by the next request if and only if five minutes have passed since its last renewal |
| `FallbackOutcomes.PlayOutcome` | services/realtime-audio/controlplane/http.go:276-314 | helper: a request completes if and only if it played, gives back if and only if it never began under a living heartbeat, and is refused otherwise |
| `FallbackClaims.RowEdges` | services/realtime-audio/localruntime/postgres_fallback_replays.go:76-110 | a row changes only under its own token or when its lease has run out; its payload is fixed while it exists; a stale token changes nothing |
| `FallbackClaims.OneLiveOwner` | services/realtime-audio/controlplane/http.go:276-311 | in every run two requests playing one operation under running leases are the same request |
| `FallbackClaims.NeverReclaimable` | services/realtime-audio/localruntime/postgres_fallback_replays.go:95-108 | the reclaimable state is never committed |
| `FallbackClaims.ReceiptMeansAccepted` | services/realtime-audio/controlplane/http.go:308-314 | a success receipt implies an accepted row with the request's payload |
| `FallbackClaims.AcceptedIsFinal` | services/realtime-audio/localruntime/postgres_fallback_replays.go:77-79 | an accepted row never changes, and nobody starts playing it who had not been granted it before |
| `FallbackClaims.CalmRequestIsAccepted` | services/realtime-audio/controlplane/http.go:276-314 | undisturbed, a fresh operation is claimed, played and accepted |
| `FallbackClaims.TakeoverIffExpired` | services/realtime-audio/localruntime/postgres_fallback_replays.go:90-94 | helper: a claim can be taken over if and only if its lease has run out |
| `ReplayCache.Cache.Reserve` | services/realtime-audio/controlplane/http.go:624-646 | waits, refuses or runs as `ReplayAdmission.ReserveOutcome` says, with counters equal to true counts and sizes within limits |
| `ReplayCache.Cache.PurgeExpired` | services/realtime-audio/controlplane/http.go:648-655 | the loop removes exactly the expired entries |
| `ReplayCache.Cache.RemoveReplay` | services/realtime-audio/controlplane/http.go:657-668 | removes the expected entry only, and its share of the counter |
| `ReplayCache.Cache.Finish` | services/realtime-audio/controlplane/http.go:602-617 | a failure frees the key, a success keeps it until it expires |
| `ReplayAdmission.ReserveOutcome` | services/realtime-audio/controlplane/http.go:624-646 | an operation runs if and only if no unexpired record has its key and the unexpired records leave room in total and for the session; it is refused for capacity if and only if only the room is missing |
| `ReplayAdmission.OwnerIffFreeAndRoom` | services/realtime-audio/controlplane/http.go:624-646 | in every run an arriving request becomes an owner if and only if no earlier run of its key is under way or still valid and there is room |
| `ReplayAdmission.FinishedThenRepeated` | services/realtime-audio/controlplane/http.go:602-636 | a value answers repeated requests for exactly its time to live, with the owner's outcome; after that, and after a failure at once, the operation runs again where there is room |
| `ReplayCache.OneFlightPerKey` | services/realtime-audio/controlplane/http.go:575-622 | in every run at most one operation of a key runs |
| `ReplayCache.WaitersGetTheOwnersOutcome` | services/realtime-audio/controlplane/http.go:583-599 | everybody answered from a record asked for its key with its payload and got its owner's outcome |
| `ReplayCache.RunsAgainOnlyAfterFailureOrExpiry` | services/realtime-audio/controlplane/http.go:628-636 | a key runs again only after every earlier run of it failed or expired |
| `ReplayCache.AlwaysBounded` | services/realtime-audio/controlplane/http.go:637-640 | total and per-session sizes never exceed their limits |
| `ReplayCache.HeldKeyAnswers` | services/realtime-audio/controlplane/http.go:628-636 | helper: a repeated request for a held key is answered by waiting or by a payload conflict, never by running again |
| `ResultQueue.Dispatcher.Publish` | services/realtime-audio/localruntime/command_result_sink.go:67-86 | creates queue and worker on first use and drops only when the queue is full |
| `ResultQueue.Dispatcher.RetireSessionWorker` | services/realtime-audio/localruntime/command_result_sink.go:111-128 | takes an event that raced with the idle timer, or gives the queue up |
| `ResultQueue.PublishedOnceInOrder` | services/realtime-audio/localruntime/command_result_sink.go:88-107 | in every run a session's publications are a prefix of what it had accepted, and the rest is in flight or queued in order |
| `ResultQueue.AtMostOneWorker` | services/realtime-audio/localruntime/command_result_sink.go:71-76 | a session has at most one worker that has not retired |
| `ResultQueue.GivenUpStaysEmpty` | services/realtime-audio/localruntime/command_result_sink.go:120-127 | a queue that was given up is empty and never receives another event |
| `ResultQueue.RefusedIffFull` | services/realtime-audio/localruntime/command_result_sink.go:77-82 | an event is dropped if and only if its queue holds 32, and then nothing changes |
| `ResultQueue.DrainPublishesAll` | services/realtime-audio/localruntime/command_result_sink.go:88-107 | from any reachable state a waiting worker can publish everything accepted |
| `ResultQueue.IdleSessionStartsAnew` | services/realtime-audio/localruntime/command_result_sink.go:67-128 | in every run an idle worker with an empty queue goes, and the next event of its session gets a new queue and worker |
| `Wav.EncodePCM16MonoWAV` | services/realtime-audio/localruntime/debug_inbound_wav.go:173-195 | fills the 44-byte header and the samples in place |
| `Wav.HeaderFields` | services/realtime-audio/localruntime/debug_inbound_wav.go:173-197 | the header of a written file says linear 16-bit mono samples at the rate given, with the byte rate that follows, and the number of sample bytes, as far as 32 bits can say it |
| `Wav.WavPCMData` | services/realtime-audio/localruntime/tts_dc_sink.go:293-314 | the chunk loop, in bounds on every input |
| `Wav.PcmDataIff` | services/realtime-audio/localruntime/tts_dc_sink.go:293-314 | data is returned if and only if it is the first data chunk of a RIFF/WAVE layout of complete, padded chunks |
| `Wav.ReadBack` | services/realtime-audio/localruntime/debug_inbound_wav.go:173-195 | reading back a written file gives the samples up to what the 32-bit size field can say |
| `Wav.RoundTripIff` | services/realtime-audio/localruntime/debug_inbound_wav.go:192-193 | the round trip is exact if and only if the samples are shorter than 2^32 bytes |
| `Wav.RiffSizeIff` | services/realtime-audio/localruntime/debug_inbound_wav.go:181 | the container's size field is right if and only if the samples are shorter than 2^32 - 36 bytes |
| `Wav.SplitBytes` | services/realtime-audio/localruntime/tts_dc_sink.go:316-333 | pieces add up to the data, all but the last are full, none is empty |
| `Wav.SplitUnique` | services/realtime-audio/localruntime/tts_dc_sink.go:316-333 | there is only one such split |
| `Wav.SplitLength` | services/realtime-audio/localruntime/tts_dc_sink.go:323 | the number of pieces is the rounded-up quotient |
| `Wav.InboundRecorder.ReadFrame` | services/realtime-audio/localruntime/debug_inbound_wav.go:109-126 | full chunks are cut and written as they fill up; nothing heard is reordered, or lost but for parts that cannot be written, whose numbers are used up |
| `Wav.InboundRecorder.Close` | services/realtime-audio/localruntime/debug_inbound_wav.go:128-140 | the rest is cut as the last part, so the parts are a split of all that was heard and the files are those that could be written |
| `Wav.InboundRecorder.FilesDecode` | services/realtime-audio/localruntime/debug_inbound_wav.go:142-170 | a part has a file if and only if it could be written, and the file decodes to it |
| `TtsSink.AudioSink.Publish` | services/realtime-audio/localruntime/tts_dc_sink.go:83-115 | adds a chunk to the end of its playback's buffer unless the playback was discarded |
| `TtsSink.AudioSink.BufferKey` | services/realtime-audio/localruntime/tts_dc_sink.go:204-224 | a missing session means the only buffered playback of that id |
| `SpeechHistory.ResolveOutcome` | services/realtime-audio/localruntime/tts_dc_sink.go:204-224 | a playback named without a session means the only buffered one of that id, in whatever session, and none if there are several |
| `TtsSink.AudioSink.MarkSettled` | services/realtime-audio/localruntime/tts_dc_sink.go:244-262 | set and list of tombstones stay equal, without repeats, 128 at most, the oldest evicted |
| `TtsSink.AudioSink.ReleaseSettled` | services/realtime-audio/localruntime/tts_dc_sink.go:264-275 | the search loop cuts out exactly the released tombstone |
| `TtsSink.AudioSink.Cancel` | services/realtime-audio/localruntime/tts_dc_sink.go:162-172 | drops the buffer, leaves a tombstone and flags a shipment under way |
| `TtsSink.AudioSink.InterruptCurrent` | services/realtime-audio/localruntime/tts_dc_sink.go:178-200 | the loops drop all buffers and flag all shipments of the session and no others |
| `TtsSink.AudioSink.Complete` | services/realtime-audio/localruntime/tts_dc_sink.go:117-160 | ships the audio as pieces numbered from one with the last marked, up to a cancellation or the first send that fails, or nothing if the playback was discarded before; what it shipped leaves no trace in the sink |
| `SpeechHistory.BufferIsWhatArrived` | services/realtime-audio/localruntime/tts_dc_sink.go:83-115 | in every run the buffer of a playback holds the data of all chunks accepted for it since its last completion or discard, in order of arrival, under their last encoding and turn |
| `SpeechHistory.CompletionTakesWhatArrived` | services/realtime-audio/localruntime/tts_dc_sink.go:117-137 | a completion ships exactly that, or nothing if nothing arrived |
| `SpeechHistory.UndisturbedCompletionShipsAll` | services/realtime-audio/localruntime/tts_dc_sink.go:117-160 | an undisturbed completion sends pieces that carry all that arrived; for pcm_s16le they concatenate to it |
| `TtsInterruption.ShippedInOrder` | services/realtime-audio/localruntime/tts_dc_sink.go:145-158 | in every run what a completion sent is a prefix of its numbered pieces |
| `TtsInterruption.ShipmentShape` | services/realtime-audio/localruntime/tts_dc_sink.go:154 | pieces carry turn and encoding, are numbered from one, only the final one is marked last, none exceeds 8192 bytes, and they concatenate to the audio |
| `TtsInterruption.AtMostOneMorePiece` | services/realtime-audio/localruntime/tts_dc_sink.go:145-158 | after a discard at most the one piece past its check is still sent, in every run in which nothing undoes the discard |
| `TtsInterruption.DiscardingMutes` | services/realtime-audio/localruntime/tts_dc_sink.go:162-200 | cancelling mutes every completion of the playback; interrupting does if and only if the playback carries its flag or has a tombstone in the end |
| `TtsInterruption.UnmutedIff` | services/realtime-audio/localruntime/tts_dc_sink.go:127-143 | a step undoes a discard if and only if another completion of the playback begins with new audio or uses up the tombstone left alone, another completion of it ends, or discards evict that tombstone |
| `TtsInterruption.HeldIff` | services/realtime-audio/localruntime/tts_dc_sink.go:145-158 | a completion is held to its one piece in all runs that undo no discard if and only if its playback is settled or it has no more pieces |
| `TtsInterruption.CompletedOnceStaysMuted` | services/realtime-audio/localruntime/tts_dc_sink.go:135-139 | where each playback is completed once at a time nothing undoes a discard, even if the tombstone is evicted |
| `TtsInterruption.BeginRevives` | services/realtime-audio/localruntime/tts_dc_sink.go:135-139 | a run in which the third completion of a cancelled playback resets the flag, and the first goes on |
| `TtsInterruption.EndRevives` | services/realtime-audio/localruntime/tts_dc_sink.go:237-242 | a run in which the end of one completion takes flag and tombstone away, and the other goes on |
| `TtsInterruption.TombstoneSilences` | services/realtime-audio/localruntime/tts_dc_sink.go:90-93 | while a tombstone lives its playback is not buffered and no completion starts shipping it |
| `TtsInterruption.TombstoneSurvivesIff` | services/realtime-audio/localruntime/tts_dc_sink.go:244-262 | after any marks a playback has a tombstone if and only if it had one after its own last mark and at most 127 are younger |
| `TtsInterruption.CancelledStaysSilent` | services/realtime-audio/localruntime/tts_dc_sink.go:162-172 | a cancelled playback is not buffered and not shipped anew until 128 others were discarded or a completion used its tombstone up |
| `TurnStore.TurnWriter.Store` | services/api/recordstore/turn_write.go:25-77 | stores a fresh event with its attribution row, or accepts a replay, or refuses and changes nothing |
| `TurnStore.TurnWriter.VerifyReplay` | services/api/recordstore/turn_write.go:97-135 | the loop over colliding rows accepts if and only if all were stored from this payload |
| `TurnStore.TurnWriter.EnqueueTask` | services/api/recordstore/attribution_tasks.go:44-57 | one attribution row per turn; an unknown session is an error |
| `TurnStore.TurnWriter.Correct` | services/api/recordstore/attribution_write.go:17-70 | moves participant and speaker to a participant of the session, guarded if asked, and touches nothing else |
| `TurnOutcomes.StoreOutcome` | services/api/recordstore/turn_write.go:25-77 | a fresh event is stored if and only if its references are known; the turn and the queued row it leaves, and nothing else |
| `TurnOutcomes.EnqueuedIff` | services/api/recordstore/turn_write.go:137-147 | a turn calls for attribution if and only if it is unresolved and its provider label is not blank |
| `TurnOutcomes.CorrectOutcome` | services/api/recordstore/attribution_write.go:17-111 | a correction succeeds if and only if the session knows the participant and, if guarded, the turn is unresolved; it gives the turn that participant, its recorded speaker, the status and the confidence asked for, and changes nothing else |
| `TurnOutcomes.EnqueueOutcome` | services/api/recordstore/attribution_tasks.go:44-57 | helper: queuing makes one row per turn of a known session and keeps a row that is there |
| `TurnStore.StoreSucceedsIff` | services/api/recordstore/turn_write.go:25-77 | storing succeeds if and only if the event is fresh on all keys with known references, or matches every colliding row |
| `TurnStore.ReplayIsOneRow` | services/api/recordstore/turn_write.go:149-157 | a replay collides with its own row only |
| `TurnStore.StoreKeeps` | services/api/recordstore/turn_write.go:137-147 | rows stay unique on event id, turn id, and session and sequence, and have an attribution row exactly if their event called for one |
| `TurnStore.CorrectKeeps` | services/api/recordstore/attribution_write.go:96-111 | corrections keep keys, payloads and translations |
| `TurnStore.StoredStaysReplay` | services/api/recordstore/turn_write.go:97-135 | storing an event again succeeds and changes nothing in any later state, corrections included |
| `TurnDelivery.FinalTurnOutbox.Publish` | services/api/recordstore/final_turn_outbox.go:44-97 | appends a valid event once; another payload under its id is a conflict |
| `TurnDelivery.FinalTurnOutbox.ReceiveOnce` | services/api/recordstore/final_turn_outbox.go:124-161 | leases some claimable row, or reports none only if there is none |
| `TurnDelivery.FinalTurnOutbox.SettleRow` | services/api/recordstore/final_turn_outbox.go:188-217 | settles only under the receipt that holds the row |
| `TurnDelivery.AttributionTaskStore.ReceiveOnce` | services/api/recordstore/attribution_tasks.go:83-105 | leases some claimable row, or reports none only if there is none |
| `TurnDelivery.AttributionTaskStore.Settle` | services/api/recordstore/attribution_tasks.go:145-161 | settles only under the receipt that holds the row |
| `TurnDelivery.FinalTurnHandler.Handle` | services/api/turns/consumer.go:39-62 | acknowledges what was stored, rejects what never can be or was tried enough, and returns the rest, with storing, scheduling and settling failing anywhere; a failed settlement is reported and not followed by another |
| `TurnDelivery.AttributionWorker.Handle` | services/api/turns/attribution_worker.go:139-172 | applies a decision only to an unresolved turn and settles by what came of it |
| `TurnDelivery.AttributionWorker.Fail` | services/api/turns/attribution_worker.go:178-191 | settles nothing in a shutdown, for good without evidence or after eight attempts, and retries otherwise |
| `TurnOutcomes.AppendOutcome` | services/api/recordstore/final_turn_outbox.go:44-97 | each answer to an appended event if and only if its cause, and the row it leaves |
| `TurnOutcomes.LeaseOutcome` | services/api/recordstore/final_turn_outbox.go:124-161 | a row is leased if and only if its time has come, waiting or after a lease that ran out; for a minute, counted as an attempt |
| `TurnOutcomes.SettleOutcome` | services/api/recordstore/final_turn_outbox.go:188-217 | the holder's verdict acknowledges, rejects, or gives the row back for a second later |
| `TurnOutcomes.ConsumableIff` | services/api/turns/service.go:95-110 | helper: an event without a participant is consumed only while its attribution is pending |
| `TurnOutcomes.ConsumptionOutcome` | services/api/turns/consumer.go:39-66 | what never can be stored is rejected at once, what could not be reached is given back until the eighth attempt, what is stored and heard of is acknowledged |
| `TurnOutcomes.FailureOutcome` | services/api/turns/attribution_worker.go:178-191 | nothing is settled if and only if shutting down; otherwise a failure is for good if and only if evidence is missing or it is the eighth attempt, and retried else |
| `TurnOutcomes.AttributingOutcome` | services/api/turns/attribution_worker.go:139-172 | what each answer of the resolver comes to: when a row is done, when it fails for good |
| `TurnDeliverySafety.TurnsStayGenuine` | services/api/recordstore/turn_write.go:25-77 | in every run turns stay unique on all keys, keep their translation, and have an attribution row exactly if called for |
| `TurnDeliverySafety.AckedIsStoredForGood` | services/api/turns/consumer.go:58-61 | an acknowledged event is stored, and storing it again from any later state changes nothing |
| `TurnDeliverySafety.AttributedAtMostOnce` | services/api/recordstore/attribution_write.go:106 | asynchronous attribution changes a turn at most once in every run |
| `TurnOutcomes.ResolvedLasts` | services/api/recordstore/attribution_write.go:106 | in every run a resolved turn stays as it is until it is corrected by hand |
| `TurnOutcomes.AttributionLasts` | services/api/recordstore/attribution_write.go:97-111 | in every run an asynchronous attribution gives its turn the participant of its decision and the speaker recorded for that participant, and the turn keeps them until it is corrected by hand |
| `TurnProgress.EventIsDelivered` | services/api/turns/consumer.go:39-62 | undisturbed, an event that waits in the outbox ends stored and acknowledged if it can be stored, and rejected with the tables unchanged otherwise |
| `TurnProgress.EventIsTriedAgain` | services/api/turns/consumer.go:47-57 | with the database out of reach an event is given back for a second later seven times and rejected at the eighth attempt |
| `TurnProgress.PublishedIsDelivered` | services/api/turns/consumer.go:39-62 | a valid new event is stored and acknowledged, undisturbed, once its session and speaker are known |
| `TurnProgress.LostLeaseComesBack` | services/api/recordstore/final_turn_outbox.go:124-161 | a delivery whose receiver is lost goes to another one if and only if its lease has run out |
| `TurnProgress.TurnIsAttributed` | services/api/turns/attribution_worker.go:139-172 | undisturbed, a due row with a decision for a known participant leaves its unresolved turn attributed as decided and the row completed |
| `TurnProgress.WorkerHandles` | services/api/turns/attribution_worker.go:139-191 | the worker of the whole-run machine does to the turn, and settles, exactly what its handler does |
| `TurnDeliverySafety.OneHolder` | services/api/recordstore/final_turn_outbox.go:230-247 | of all receivers of an event at most one holds it |
| `TurnDeliverySafety.SettlesIffHeld` | services/api/recordstore/final_turn_outbox.go:249-265 | helper: settling changes a row if and only if the receipt still holds it |
| `TurnDeliverySafety.VerdictIff` | services/api/turns/consumer.go:39-66 | acknowledged if and only if valid, stored and no call failed; rejected if and only if permanent or exhausted; a stored event whose reply or scheduling was lost comes back |
| `LanguageConfigs.MemoryStore.CreateActiveConfig` | services/api/languages/memory_store.go:74-124 | supersedes the active version and appends the next one; keeps versions counting up with only the youngest active |
| `LanguageConfigs.MemoryStore.GetConfigByIdempotencyKey` | services/api/languages/memory_store.go:56-72 | finds a config if and only if the key was used |
| `LanguageConfigs.MemoryStore.ListConfigs` | services/api/languages/memory_store.go:126-167 | the backward loop returns the matching configs youngest first, cut at the limit |
| `LanguageConfigs.CreateKeeps` | services/api/languages/memory_store.go:84-123 | versions of a session count up from one, only the youngest is active, ids and keys stay sound |
| `LanguageOutcomes.CreateRefusals` | services/api/languages/memory_store.go:78-99 | a used key is a conflict if and only if used; otherwise a version conflict is reported if and only if a version is expected and it is not the active one's |
| `LanguageOutcomes.CreateOutcome` | services/api/languages/memory_store.go:84-123 | the new active config carries the request with the next version; only the config it supersedes changes, by status and end |
| `LanguageRuns.VersionsInEveryRun` | services/api/languages/memory_store.go:84-123 | in every run a version is its position in the session and a config is active if and only if none of its session is younger |
| `LanguageRuns.PageCountsDown` | services/api/languages/memory_store.go:147-166 | a page holds the next versions in descending order and its cursor stands where it stopped |
| `LanguageRuns.PagingIsComplete` | services/api/languages/memory_store.go:126-167 | following cursors returns the versions of the first page's store in descending order, each once, as many as the pages have room for, whatever is created meanwhile: all of them if and only if there is room for all |
| `LanguageRuns.PagingInEveryRun` | services/api/languages/memory_store.go:84-167 | the same for a client that reads its pages between any stretches of any run of the store |
| `LanguageRuns.OneConfigPerKey` | services/api/languages/service.go:116-165 | in every interleaving all successes of one key return the same config, made for the request of each |
| `LanguageRuns.KeyMakesOneConfig` | services/api/languages/memory_store.go:78-82 | a key makes at most one config |
| `LanguageRuns.LoserGetsWinnersConfig` | services/api/languages/service.go:155-165 | a caller that loses the race to an identical request gets the winner's config |
| `LanguageOutcomes.UndisturbedRequest` | services/api/languages/service.go:116-165 | undisturbed, a request under a used key succeeds if and only if that key was used for the same request, and otherwise makes a config if and only if the service is ready and the expected version is the latest |
| `Observers.StateStore.ApplyConnection` | sdks/device/state.go:45-66 | accepts a newer version of the shown connection, or a later connection never left before |
| `Observers.StateStore.ApplyRuntime` | sdks/device/state.go:68-89 | accepts a later snapshot of the shown start operation or of one never left before |
| `Observers.StateStore.ApplyMode` | sdks/device/state.go:91-113 | accepts a newer generation or time of the shown runtime, or a later runtime never left before |
| `Observers.NeverRegresses` | sdks/device/state.go:45-113 | over any stream, what is shown visits each identity in one contiguous stretch, strictly newer from one to the next |
| `Observers.NewerOverAnyDistance` | sdks/device/state.go:91-113 | within a stretch snapshots get newer over any distance |
| `Observers.RuntimeTimeIncreases` | sdks/device/state.go:68-89 | runtime snapshots move forward in time across all operations |
| `Observers.BoundaryIsLater` | sdks/device/state.go:53-63 | a new identity is later than the last snapshot before it |
| `Observers.TakenIff` | sdks/device/state.go:45-113 | an observation is taken if and only if it is newer in its own identity or of an identity never shown before |
| `Observers.StepsBackIff` | sdks/device/state.go:45-113 | a snapshot no later than the one shown is accepted if and only if it has the same identity and a newer version or generation |
| `Observers.TimeOrderAcrossIdentities` | sdks/device/state.go:45-113 | where times do not go back within an identity they go forward across identities, over any distance |
| `Observers.SteadyStreamsAreOrdered` | sdks/device/state.go:45-113 | hence every stream whose times do not go back within an identity is shown in time order across identities |
| `Observers.TimeOrderedIff` | sdks/device/state.go:53-63 | what is shown is in time order across identities if and only if each snapshot taken is later than all shown before of other identities |
| `Observers.OneMoreOrderedIff` | sdks/device/state.go:53-63 | one more snapshot keeps that order if and only if it is above the latest time shown of other identities |
| `Observers.AlwaysOrderedIff` | sdks/device/state.go:45-113 | of all rules only the runtimes' keeps that order on every stream; connections and modes do not |
| `Observers.MobileModeTimeMayDrop` | apps/mobile/src/runtime-client.ts:236-252 | the phone takes an older snapshot of a runtime never seen, the device does not |
| `ModeSwitch.ModeController.ApplyMode` | sdks/device/mode_client.go:365-388 | the controller's acceptance rule is the device store's |
| `ModeSwitch.ModeController.PrepareSwitch` | sdks/device/mode_client.go:309-337 | an operation's command is fixed by its first use; discarded or different uses are refused |
| `ModeSwitch.ModeController.ConcludeSwitch` | sdks/device/mode_client.go:338-352 | a reply is reported only if it is, or already was, what the controller shows |
| `ModeOutcomes.FirstCommandOutcome` | sdks/device/mode_client.go:325-335 | the first command of an operation carries the caller's trace and target with the shown runtime and generation, if and only if a mode is shown and the operation is not discarded |
| `ModeOutcomes.RepeatedCommandOutcome` | sdks/device/mode_client.go:317-324 | a repeated operation sends its first command again if and only if trace and target are the same, whatever is shown now |
| `ModeOutcomes.ConcludeOutcome` | sdks/device/mode_client.go:338-352 | a reply is reported if and only if it is taken, or is what is shown; otherwise its operation is discarded |
| `ModeOutcomes.UndisturbedSwitch` | sdks/device/mode_client.go:309-352 | a new switch the server carries out ends with the target shown as the next generation of the runtime, and reported |
| `ModeSwitch.OneCommandPerOperation` | sdks/device/mode_client.go:317-335 | in every run one operation id always sends the same command |
| `ModeSwitch.SuccessAgreesWithState` | sdks/device/mode_client.go:339-351 | a success is reported if and only if the controller then shows the reported runtime, generation and mode |
| `ModeSwitch.DiscardedIsOver` | sdks/device/mode_client.go:314-317 | a discarded operation is never sent again |
| `ModeSwitch.RuntimeClient.ObserveModeSnapshot` | apps/mobile/src/runtime-client.ts:224-256 | a snapshot of a new runtime makes everything awaited stale |
| `ModeSwitch.RuntimeClient.ConcludeSwitch` | apps/mobile/src/runtime-client.ts:281-319 | a reply must answer its command, not be stale, and agree with what is shown |
| `ModeOutcomes.SwitchOutcome` | apps/mobile/src/runtime-client.ts:258-281 | a switch sends one command under a new operation, for the caller's target with the shown runtime and generation, and awaits it |
| `ModeOutcomes.ReplyOutcome` | apps/mobile/src/runtime-client.ts:281-319 | a reply comes to success if and only if it answers its command, was not given up and agrees with what is shown then; it is no longer awaited |
| `ModeOutcomes.ObserveOutcome` | apps/mobile/src/runtime-client.ts:224-256 | a snapshot is shown if and only if it is newer in its runtime or of one never left; what is awaited is stale afterwards if and only if the runtime changed |
| `ModeSwitch.ReportedIsNotStale` | apps/mobile/src/runtime-client.ts:304-311 | in every run a switch succeeds at most once and never after it was given up as stale |
| `ModeSwitch.MobileSuccessAgrees` | apps/mobile/src/runtime-client.ts:296-318 | a success agrees with the shown state and with the runtime the switch was prepared for |
| `ModeOutcomes.UndisturbedPhoneSwitch` | apps/mobile/src/runtime-client.ts:258-319 | an undisturbed switch of the phone ends with the target shown as the next generation, reported once and no longer awaited |
| `ModeSwitch.OnlyTheLatestReadCounts` | apps/mobile/src/runtime-client.ts:418-431 | helper: a superseded mode read changes nothing |
| `ModeSwitch.LaterReadOvertakes` | apps/mobile/src/runtime-client.ts:219-222 | any later read or observation supersedes a read under way |
| `Backoff.EndRecoveryBackoff` | services/api/sessions/end_recovery.go:261-270 | the doubling loop stays within 64 bits and computes the delay |
| `Backoff.EndRecoveryClosedForm` | services/api/sessions/end_recovery.go:261-270 | the capped power of two exactly, unless the power is one short of the maximum; never above the maximum |
| `Backoff.EndRecoveryMonotone` | services/api/sessions/end_recovery.go:261-270 | more failures never shorten the wait |
| `Backoff.RetryBackoff` | services/api/recordstore/attribution_tasks.go:127-139 | the doubling loop stays within 64 bits and computes the delay |
| `Backoff.RetryClosedForm` | services/api/recordstore/attribution_tasks.go:127-139 | min(120, 2^(n-1)) seconds, capped from the eighth attempt on |
| `Backoff.RetryMonotone` | services/api/recordstore/attribution_tasks.go:127-139 | later attempts never wait less |

## Left out

- HTTP routing, JSON, configuration, logging, metrics, migrations and wiring: nothing to prove.
- Account lineage and authorization: callers are taken to resolve to the session's owner.
- PostgreSQL, Valkey, WebRTC, speech recognition, language models and the voice-activity segmenter: only their
  contracts are used. Segmenter events are any stream in which an utterance opens before its audio and its end.
- Cryptography: hashes are compared as the payloads they determine.
- Service calls of the session lifecycle are programs over steps on values, not Dafny methods, because they run
  concurrently and may stop between any two steps; loops of the recovery worker appear as repeated steps.
- Realtime calls that take effect after their caller gave up on them: a call takes effect at its step or never.
- Losing races inside one transaction (an insert that meets a unique index) are ordered after the winner, where
  they take the branch for a key that is already there.
- The order in which due rows are picked: any due row may be picked next.
- Error texts, log lines and user-facing messages; which of several causes an error joins.
- Validity of enumerated fields decoded from replies, and trimming of white space other than blank, tab and line ends.
- The long-sentence delivery trigger and malformed stored payloads in the outbox.
- `voice_sessions.failure_error_code` and other columns no transaction decides on.
- Entries of the keyed lock, queues and replay records are told apart by numbers instead of addresses.
- The queue of attribution rows is a field of the turn writer and of the queue class; the whole-run model has it once.
- Connection and runtime halves of the phone's store: they follow the device's rules, which `Observers` covers.
- A command result that fails validation is not sent; the gate's log counts outcomes, sent or not.
