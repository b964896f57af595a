# A verified model of kwor's state machines

kwor is a proxy panel. This project models the parts of it that are protocols, persisted automata or
arithmetic, and proves what they keep over every interleaving, every choice of failing operations and
every input. `dafny verify dfyconfig.toml` checks all of it.

| file | models |
|---|---|
| `JobChannel.dfy` | the ACME job channel: enqueueing, the worker's receives, and the drain-and-refill of a canceller |
| `AcmeTaskStore.dfy` | the task store around it: callers, the serial worker, cancellers, cleanup and cancellation |
| `RetryPolicy.dfy` | the retry automaton shared by certificate renewal and the Core restart |
| `RenewalDates.dfy` | when certificates are renewed, in dates |
| `RenewalRetries.dfy` | the retry bound for certificate renewal over runs of the batch |
| `CoreRestart.dfy` | the persisted Core restart coordinator, and the retry bound over its histories |
| `CoreGate.dfy` | the gate between certificate syncs and Core starts and restarts |
| `AutoRenewBatch.dfy` | the auto-renew batch: window, candidates, attempts, failures, closing |
| `LoginSessions.dfy` | the two-tier login session store |
| `DbRestore.dfy` | restoring the database directory from an uploaded archive, through crashes |
| `DbImport.dfy` | importing a single database file |
| `RuntimeSampler.dfy` | Start, StopAndFlush and the worker of the runtime sampler |
| `PhaseSlots.dfy` | the sampler's phase slots and its scheduling loop |
| `LogRing.dfy` | the in-memory log |
| `InstallActivation.dfy` | activation of a staged acme.sh install, with rollback |
| `VersionOrder.dfy`, `ReleaseTags.dfy` | the order of version tags, and of releases as they are named |
| `MonthlyReset.dfy`, `ResetPolling.dfy` | monthly reset boundaries and the polling that acts on them |
| `Text.dfy`, `Collections.dfy` | trimming of white space, options, sorting |

A protocol is a state machine: a state, an action per lock section, channel operation, context
cancellation or file operation, and theorems over every sequence of enabled actions. Code that works
step by step on a value is a method with the loops of the source, proved against a specification
function or a property; an object updated in place is a class. Members are
named after the Go functions they model where there is one.

## What does not hold

Where a promise is not kept by the code, the model keeps the code, shows an input or a run, and states
exactly when the promise is kept.

- First-in-first-out order of ACME jobs: a worker can receive from the channel while a canceller's
  drain holds older jobs (`JobChannel.OvertakingRun`; exactly then, `JobChannel.ReceivesOldestUnlessDraining`).
- Completion of ACME jobs: a job cancelled or removed between the context check and `beginExecution` is
  left in status running for ever and its operation is never released (`AcmeTaskStore.EscapingRun`;
  exactly then, `AcmeTaskStore.Completion`).
- No lost certificate update: the recovery starts of both Cores (`cronjob/nftCoreSyncJob.go:61`,
  `cronjob/mihomoNftCoreSyncJob.go:68`) do not take the gate. A sync that regenerates after such a start
  has read its config is lost when it finds the Core still down, or when it queues a restart that the
  start then clears; another way is a panel restart that does not find the queued restart in the saved
  setting (`CoreGate.BypassLosesUpdate`, `CoreGate.QueuedRestartIsCleared`, `CoreGate.UnsavedQueueIsLost`;
  exactly then, over every run, `CoreGate.NoLostUpdateExactly` and `CoreGate.RecoveryExactly`).
- A fixed restart window: a panel restart brings back an older window, when the newer one is not on disk
  (`CoreRestart.OldWindowReturns`; exactly then, `CoreRestart.WindowNeverMovesExactly`).
- The retry bound of the Core restart: a failure that a panel restart does not find is forgotten, so
  attempts repeat without bound (`CoreRestart.LostFailuresRepeat`); the bound holds up to those, over all
  histories (`CoreRestart.RestartBound`).
- The retry bound of certificate renewal: failures that cannot be put on record repeat without bound
  (`RenewalRetries.UnsavedFailuresRepeat`); the bound holds up to those (`RenewalRetries.RenewalBound`),
  and all failures follow the retry policy exactly when each is on record
  (`RenewalRetries.FailureRunExactly`).
- Restore atomicity: an error of the stat call on the database directory reads as absence and the
  original is then removed without a backup (exactly then it is lost, `DbRestore.ApplyKeepsExactly`); an
  error of the stat call on the backup directory makes a failed restore report a plain failure although
  the original is not active (exactly then, `DbRestore.PlainFailureExactly`).
- Install activation: an error of an existence probe makes a failed activation lose an old entry without
  reporting it (`InstallActivation.CleanFailureExactly`), and the backup is deleted even when the
  rollback failed (`InstallActivation.ScriptLost`).
- The sampler's flush in a stop that finds nothing running can overlap a worker started meanwhile
  (`RuntimeSampler.IdleFlushAloneExactly`), and a stop that joins another one can report success although
  that one's flush failed (`RuntimeSampler.ErrorLostRun`).
- Phase slots: different phases do not keep two jobs apart, as the comment at
  `cronjob/runtime_sampler.go:444-446` says; the exact condition is `PhaseSlots.ShareExactly`. The six
  declared jobs meet it. Wake passes can starve the scavenge job (`PhaseSlots.WakesStarve`); a job misses
  a slot exactly when a wake pass or a late round drops it (`PhaseSlots.FiringRate`).
- Version order: with suffix numbers beyond 64 bits the order has cycles (`VersionOrder.LeastOverflowCycle`,
  `VersionOrder.OverflowCycle`); it is transitive on all tags with suffix numbers up to a limit exactly when
  the limit fits 64 bits (`VersionOrder.TransitiveExactly`).
- Monthly reset: a reset that begins in one period and is recorded in the next uses up the reset of that
  one (`ResetPolling.StraddlingRun`), and a period in which no poll can write its reset has none; exactly
  then, `ResetPolling.OncePerPolledPeriod`.
- A certificate polled in its window is attempted: not while a batch is held open beyond its hour
  (`RenewalDates.WaitsForNextBatch`; exactly which are taken, `RenewalDates.CandidateExactly`).
- The sum of (3 - retry count) over the rapid candidates of a batch rises after the window's end, when a
  candidate outside the retry phases fails (`AutoRenewBatch.RisingRun`). How a run changes it is
  `AutoRenewBatch.SumExactly`, and when it falls `AutoRenewBatch.SumFallsExactly`. The measure that never
  rises counts such a candidate as 4 and a rapid one as at least 1 (`AutoRenewBatch.LateRunMeasure`).

## Model

| member | source | states |
|---|---|---|
| `JobChannel.PendingEffect` | service/acme_task.go:144-192 | the waiting jobs (channel plus what a sweep holds) change only by appending an accepted job or by removing the one at the channel's head; draining and refilling never reorder them |
| `JobChannel.InvStep` | service/acme_task.go:144-192 | every operation keeps the ledger: each accepted job is waiting, received or dropped, exactly one of them, and the waiting ones are in acceptance order |
| `JobChannel.Conservation` | service/acme_task.go:144-192 | the ledger in every run: nothing lost or duplicated, survivors in order |
| `JobChannel.RefillNeverBlocks` | service/acme_task.go:180-189 | while a sweep holds jobs the channel has room for the next send |
| `JobChannel.SweepRemovesTarget` | service/acme_task.go:161-192 | when a sweep ends the cancelled job no longer waits |
| `JobChannel.ReceivesOldestUnlessDraining` | service/acme_task.go:161-189 | the worker receives the oldest waiting job if and only if no drain holds an older one |
| `JobChannel.OvertakingRun` | service/acme_task.go:161-189 | a run in which a younger job is received first |
| `JobChannel.SharedChannel.EnqueueJob` | service/acme_task.go:144-159 | accepts exactly when the channel has room, appending the job |
| `JobChannel.SharedChannel.RemoveQueuedJob` | service/acme_task.go:161-192 | with any number of receives between its channel operations: drops the job and no other, keeps the ledger, and leaves the job not waiting |
| `AcmeTaskStore.StoreStep` | service/acme_task.go:56-322 | every action of callers, worker, cancellers and environment keeps the invariant of all tasks |
| `AcmeTaskStore.RunInvariant` | service/acme_task.go:56-322 | the invariant in every run |
| `AcmeTaskStore.CancelledNeverRuns` | service/acme_task.go:208-306 | a task that a canceller saw queued with a cancelled context never has its runner invoked |
| `AcmeTaskStore.RunnerAtMostOnce` | service/acme_task.go:228-296 | a runner is invoked at most once, only for a received job, and by the one worker |
| `AcmeTaskStore.TerminalForGood` | service/acme_task.go:347-390 | in every run, a status once terminal is the one every later view shows |
| `AcmeTaskStore.TerminalIsFinal` | service/acme_task.go:347-390 | no action changes a terminal status, and a removed entry does not return |
| `AcmeTaskStore.Completion` | service/acme_task.go:228-322 | a job the worker has let go of has a terminal status and one call of operation.Done, if and only if it was not removed before the check nor hit between the check and beginExecution |
| `AcmeTaskStore.StatusExactly` | service/acme_task.go:361-390 | in every run, once the worker has let go of a listed task that did not escape: an unmanaged one shows success, a warning or an error exactly as its runner returned, and an error if it was never invoked; a managed one shows success exactly if its handle succeeded and its snapshot was there |
| `AcmeTaskStore.RefusedExactly` | service/acme_task.go:56-142 | a task the full channel refused shows an error, is released once and never runs |
| `AcmeTaskStore.WindowHitFromOutside` | service/acme_task.go:235-306 | only a cancellation or a cleanup call inside that window hits it |
| `AcmeTaskStore.EntryLostFromOutside` | service/acme_task.go:392-407 | an entry not yet checked disappears only by a cleanup call or after a canceller has observed it |
| `AcmeTaskStore.EscapedForGood` | service/acme_task.go:228-322 | in every run, an escaped task never reaches a terminal status and its operation is never released |
| `AcmeTaskStore.EscapingRun` | service/acme_task.go:298-307 | a run with such an escape |
| `AcmeTaskStore.WorkerLetsGo` | service/acme_task.go:228-296 | in every run the worker lets go of a job after at most nine moves of its own, one of which is always enabled |
| `RetryPolicy.PhaseSequence` | service/acme_service.go:3265-3279 | consecutive failures pass through rapid 0, 1, 2 and are periodic for ever after |
| `RetryPolicy.Spacing` | service/acme_service.go:3219-3228 | how late the k-th attempt is after the first failure, at least |
| `RetryPolicy.RetryBound` | service/acme_service.go:3219-3279 | at most 4 + T/21600 consecutive failures in the T seconds after the first, from any state failures lead to |
| `RenewalRetries.EpisodeIsFailureRun` | service/acme_service.go:3067-3131 | in every run of the batch, with failing statements and restarts in between, the recorded failures of a certificate between two edits are failures of the retry policy, whatever else goes unrecorded |
| `RenewalRetries.RenewalBound` | service/acme_service.go:3067-3131 | hence at most 4 + T/21600 failures in any T seconds, and those not on record |
| `RenewalRetries.FailureRunExactly` | service/acme_service.go:3237-3263 | all failures follow the retry policy if and only if each is on record |
| `RenewalRetries.UnsavedFailuresRepeat` | service/acme_service.go:3237-3263 | without the records any number of attempts can fail at one instant |
| `RetryPolicy.RetryBoundIsTight` | service/acme_service.go:3219-3279 | the underlying bound is attained for every T |
| `CoreRestart.WindowNeverMovesExactly` | service/certificate_core_restart.go:102-136 | over every sequence of operations and panel restarts, the window of a pending restart is the one it was queued with if and only if every panel restart meanwhile comes after a write of the setting, or finds that window from before |
| `CoreRestart.ReloadKeepsExactly` | service/certificate_core_restart.go:320-352 | a panel restart keeps the restart pending with its window if and only if it can read the setting and the window is there |
| `CoreRestart.OldWindowReturns` | service/certificate_core_restart.go:320-352 | a history in which a panel restart brings back an older window |
| `CoreRestart.WindowGiven` | service/certificate_core_restart.go:102-124 | a restart queued while a batch is open gets the batch's window, any other one an hour from now |
| `CoreRestart.AttemptsWait` | service/certificate_core_restart.go:178-185 | over every history the first attempt waits for the end of that window, a later one for its retry time |
| `CoreRestart.SavedIsFound` | service/certificate_core_restart.go:320-352 | where writes and reads succeed every panel restart finds what was in memory |
| `CoreRestart.FailuresAccounted` | service/certificate_core_restart.go:168-274 | in every history each failed restart while one is pending stands behind the state in memory, or a panel restart has not found it; those behind it are failures of the retry policy, and those behind the saved state a prefix of them |
| `CoreRestart.RestartBound` | service/certificate_core_restart.go:168-274 | hence at most 4 + T/21600 failed restarts in any T seconds, and those a panel restart has not found |
| `CoreRestart.LostFailuresRepeat` | service/certificate_core_restart.go:245-274 | a history with any number of failures at one instant, each forgotten by a panel restart |
| `CoreRestart.Coordinator.Queue` | service/certificate_core_restart.go:102-136 | the code takes the queueing step of the histories above, in memory and on disk |
| `CoreRestart.Coordinator.RecordFailure` | service/certificate_core_restart.go:245-274 | a pending restart makes the failure transition of certificate renewal; otherwise nothing changes |
| `CoreRestart.Coordinator.Clear` | service/certificate_core_restart.go:280-296 | clears one Core and writes the setting, if a restart is pending |
| `CoreRestart.Coordinator.Process` | service/certificate_core_restart.go:168-223 | takes the processing step of the histories; attempts exactly when pending, due, not waiting for the batch and running |
| `CoreGate.GateStep` | service/certificate_core_restart.go:79-223 | every step of syncs, restarts, starts, recovery starts, stops and panel restarts keeps the gate invariant, unless it is one of four losing steps |
| `CoreGate.NoLostUpdateExactly` | service/certificate_tls_binding.go:33-290 | in every run a running Core without pending restart has loaded a config at least as new as the last one queued, in all states up to one, if and only if no losing step was taken before it |
| `CoreGate.OvertakenExactly` | cronjob/nftCoreSyncJob.go:56-66 | a recovery start is overtaken if and only if a sync has published, since it read its config, one regenerated after that |
| `CoreGate.RecoveryExactly` | service/coreManager.go:1312-1330 | a recovery start that reaches its clear with the Core up keeps it up to date if and only if it was not overtaken |
| `CoreGate.NoLostUpdate` | service/certificate_tls_binding.go:33-290 | nothing is lost in any run without recovery starts whose panel restarts find the pending restarts saved |
| `CoreGate.BypassLosesUpdate` | cronjob/nftCoreSyncJob.go:56-66 | a run in which a sync finds the Core down during a recovery start, and is lost |
| `CoreGate.QueuedRestartIsCleared` | service/coreManager.go:1323-1328 | a run in which a sync queues a restart between the recovered Core coming up and its clear, and is lost |
| `CoreGate.UnsavedQueueIsLost` | service/certificate_core_restart.go:102-136 | a run in which it is lost by a failed save and a panel restart |
| `AutoRenewBatch.BatchStep` | service/acme_service.go:3034-3372 | every action, user edits and reloads included, keeps the batch invariant |
| `AutoRenewBatch.RenewedAtMostOncePerBatch` | service/acme_service.go:3067-3131 | in every run a certificate is renewed successfully at most once per batch |
| `AutoRenewBatch.WindowIsFixed` | service/acme_service.go:3133-3181 | an open window does not move, and closes only after its end with no rapid candidate left |
| `AutoRenewBatch.SortIds` | service/acme_service.go:3172-3180 | the candidates in ascending order, all and only they |
| `AutoRenewBatch.RunAutoRenew` | service/acme_service.go:3034-3131 | whichever statements fail, the loop over the candidates has the effect of collecting, attempting each in order, and closing if ready; the count it returns is that of the renewals |
| `RenewalDates.FallsDueExactly` | service/acme_service.go:3183-3217 | a certificate outside the retry phases is due by an instant if and only if its window has begun: 30 days before its end, or a third of a validity of at most 40 days, in whole days and at least one |
| `RenewalDates.OpensExactly` | service/acme_service.go:3133-3160 | a run opens a batch, for an hour, if and only if some certificate is due |
| `RenewalDates.CandidateExactly` | service/acme_service.go:3160-3181 | which certificates a run takes into the batch, by dates |
| `RenewalDates.AloneExactly` | service/acme_service.go:3133-3217 | with no batch open and no other certificate due, one is taken if and only if it is inside its window and has not ended |
| `RenewalDates.AttemptedInWindow` | service/acme_service.go:3034-3131 | a certificate that a run finds inside its window is attempted before it ends, with succeeding statements and no batch held open beyond its hour |
| `RenewalDates.WaitsForNextBatch` | service/acme_service.go:3160-3181 | while a batch is held open beyond its hour no certificate outside the retry phases is taken |
| `RenewalDates.RenewalTakesEffect` | service/certificate_inventory.go:560-609 | a renewal that succeeds leaves the new dates and no retry state |
| `RenewalDates.ClosesExactly` | service/acme_service.go:3337-3372 | a batch closes if and only if its hour is over and no enrolled candidate is rapid |
| `RenewalDates.RecordedBatchSurvives` | service/acme_service.go:3382-3425 | a batch opened or closed on record is so after a restart |
| `RenewalDates.EndedIsDisabled` | service/acme_service.go:3281-3293 | a certificate that has ended is no longer renewed |
| `RenewalDates.EndedAtTurnIsDisabled` | service/acme_service.go:3237-3263 | the same when it ends before a renewal of it fails |
| `AutoRenewBatch.AllAttemptsLower` | service/acme_service.go:3067-3131 | the attempts of a run raise no weight, and each recorded failure of one that still holds the batch open lowers one |
| `AutoRenewBatch.LateRunMeasure` | service/acme_service.go:3067-3131 | every run after the window leaves the measure no higher; one in which a candidate fails and still holds the batch open lowers it |
| `AutoRenewBatch.LateRunProgress` | service/acme_service.go:3337-3372 | a run that gets a turn at every rapid candidate, with periodic ones due or not, closes the batch or is such a run |
| `AutoRenewBatch.BatchCloses` | service/acme_service.go:3337-3372 | among any runs after the window, at most Measure many leave the batch open with such a failure |
| `AutoRenewBatch.BatchClosesWithin` | service/acme_service.go:3337-3372 | among any runs after the window, at most Measure many that get a turn at every rapid candidate leave the batch open |
| `AutoRenewBatch.SumExactly` | service/acme_service.go:3237-3279 | the attempts of a run change the sum of (3 - retry count) over rapid candidates by three per first failure less what the rapid ones lose |
| `AutoRenewBatch.SumFallsExactly` | service/acme_service.go:3237-3279 | without first failures the sum never rises, and falls if and only if a rapid candidate is renewed, fails or is given up |
| `AutoRenewBatch.RisingRun` | service/acme_service.go:3237-3279 | a run in which it rises after the window |
| `LoginSessions.PruneMemory` | api/session.go:624-630 | memory keeps exactly its live records |
| `LoginSessions.RefillMemory` | api/session.go:707-735 | each round takes a row out of the table; it ends with memory full or the table empty, and only dead rows are dropped |
| `LoginSessions.Store` | api/session.go:499-526 | a new session is added to the one map, or the call fails without effect on it |
| `LoginSessions.Load` | api/session.go:550-590 | a session is valid if and only if it is live in the one map, with that record; a revoked token never is |
| `LoginSessions.Refresh` | api/session.go:528-548 | refreshes exactly the live sessions, with the new expiry |
| `LoginSessions.Remove` | api/session.go:608-622 | the session leaves the one map and both tiers; when the delete statement fails its row stays as it was |
| `LoginSessions.Rename` | api/session.go:296-324 | all sessions of the user are renamed in both tiers, or none |
| `LoginSessions.Cleanup` | api/session.go:125-146 | nothing past its time stays in either tier; nothing changes in the one map; the fast path skips no live row |
| `LoginSessions.Rotate` | api/session.go:326-342 | after a rotation memory is empty and all issued tokens are revoked, even if the table could not be cleared |
| `LoginSessions.ServeOne` | api/session.go:499-735 | one request answers like the one unbounded map, keeps the tiers disjoint, memory within 25 and rows only while memory is full; a revoked token is rejected whatever fails |
| `LoginSessions.Registry.Serve` | api/session.go:499-735 | the same over the whole log of requests and answers; a check or refresh is accepted exactly as AnswerExactly says |
| `LoginSessions.AnswerExactly` | api/session.go:499-606 | where statements succeed, a check or refresh is accepted if and only if the log shows the session opened under a name, neither logged out nor rotated away since, and now before its last login or accepted refresh plus the minutes in force, 72 hours where they are out of range |
| `LoginSessions.RenameExactly` | api/session.go:296-324 | whose sessions a rename changes, and to which name |
| `LoginSessions.ReplaysAnswers` | api/session.go:499-735 | the logged answers are exactly those of the one map |
| `DbRestore.Rollback` | database/backup.go:982-995 | which changes a rollback makes, and exactly when it reports no error |
| `DbRestore.RollbackEffect` | database/backup.go:982-995 | what a backup holds is there or active throughout; the original is active again, or an error is reported and it is still in its backup |
| `DbRestore.Activate` | database/backup.go:638-694 | which changes it makes, and which faults give which outcome |
| `DbRestore.ApplyPendingDBRestore` | database/backup.go:595-695 | it succeeds if and only if a legal, whole and valid stage is announced and none of the listed operations fails, and what it leaves then; which changes it makes, and exactly when it reports a failed rollback |
| `DbRestore.FailedRestoreForgets` | database/backup.go:595-695 | a restore that fails is not tried again, unless its marker cannot be removed |
| `DbRestore.AbandonedDropsStage` | database/backup.go:608-646 | a restore that does not begin gives up its stage |
| `DbRestore.UploadAnnounces` | database/backup.go:505-578 | an upload that no restore stands in the way of is staged and announced |
| `DbRestore.ApplyIsAtomic` | database/backup.go:595-695 | atomicity for every choice of failing operations, with the effect of the two stat calls |
| `DbRestore.PlainFailureExactly` | database/backup.go:595-695 | a plain failure leaves the database active if and only if the restore did not begin, could stat its backup, or put an equal database in place |
| `DbRestore.ApplyKeepsExactly` | database/backup.go:595-695 | a database is there after every change if and only if a failing stat call does not get it removed |
| `DbRestore.FinalizePendingDBRestore` | database/backup.go:697-712 | deletes only the backup an applied marker names, and the marker only after it |
| `DbRestore.StartKeepsExactly` | app/app.go:50-58 | a start keeps the database through every change, up to the deletion of its backup by finalization, if and only if its restore does not so remove it |
| `DbRestore.OneStart` | app/app.go:50-58 | the start code makes the changes of StartOps |
| `DbRestore.Lifetime` | app/app.go:50-58 | after every change of any sequence of starts, failures, uploads and crashes the database is on disk, or finalization has deleted the backup that held it and that an applied marker named |
| `DbImport.RestoreOriginal` | database/backup.go:466-480 | which changes it makes, and exactly when it reports no further error |
| `DbImport.ReplaceMainDatabase` | database/backup.go:445-503 | which changes it makes, and exactly when it reports a finished import, one whose restart signal failed, or that the original is not back |
| `DbImport.ImportIsAtomic` | database/backup.go:445-503 | the imported file is active, or the original is, or it is still on disk; until the last change of a success the original is in one of its two places |
| `RuntimeSampler.StepKeepsInv` | cronjob/runtime_sampler.go:101-237 | every step of any number of Start and StopAndFlush calls and of the workers keeps the invariant |
| `RuntimeSampler.OneWorker` | cronjob/runtime_sampler.go:101-237 | at most one worker executes jobs, in every state of every run |
| `RuntimeSampler.ClosedAtMostOnce` | cronjob/runtime_sampler.go:137-237 | no stop, done or complete channel is closed twice, and none that is missing |
| `RuntimeSampler.StopFlushesAlone` | cronjob/runtime_sampler.go:163-196 | the flush of a stop overlaps no worker and no other such flush |
| `RuntimeSampler.IdleFlushAloneExactly` | cronjob/runtime_sampler.go:141-149 | the flush of a stop that found nothing running is alone if and only if no Start makes a generation meanwhile |
| `RuntimeSampler.OverlappingRun` | cronjob/runtime_sampler.go:141-149 | a run in which it overlaps |
| `RuntimeSampler.JoinedResult` | cronjob/runtime_sampler.go:150-161 | a joined stop reports the outcome of the newest generation's stop, and success where that one runs, is being stopped or ended by itself |
| `RuntimeSampler.OwnFlushReported` | cronjob/runtime_sampler.go:141-196 | a stop that flushes itself reports the outcome of its own flush |
| `RuntimeSampler.ErrorLostRun` | cronjob/runtime_sampler.go:150-161 | a run in which a failed flush is reported as success |
| `RuntimeSampler.HelpersApproach` | cronjob/runtime_sampler.go:163-237 | steps of a generation's worker and stopper bring the close of its complete channel nearer; nothing takes it further away |
| `RuntimeSampler.WaitersReleased` | cronjob/runtime_sampler.go:101-237 | a waiter is released after at most six such steps, one of which is enabled as long as it waits |
| `PhaseSlots.LeastSlotAhead` | cronjob/runtime_sampler.go:447-462 | the slot chosen is the least second congruent to the phase that is at least 800 ms ahead |
| `PhaseSlots.Monotone` | cronjob/runtime_sampler.go:447-462 | a later instant has no earlier slot |
| `PhaseSlots.StableExactly` | cronjob/runtime_sampler.go:285-291 | recomputing gives the same slot if and only if it is not later than 800 ms before it |
| `PhaseSlots.FiringRate` | cronjob/runtime_sampler.go:239-330 | over every run of the loop, wake passes included, a job fires at most once per period, and misses no slot if and only if no wake pass or late round drops one |
| `PhaseSlots.NeverOverdue` | cronjob/runtime_sampler.go:296-330 | no round leaves a job overdue |
| `PhaseSlots.WakesStarve` | cronjob/runtime_sampler.go:276-292 | wake passes can drop any number of slots in a row |
| `PhaseSlots.ShareExactly` | cronjob/runtime_sampler.go:444-462 | two jobs share a second if and only if their phases are congruent modulo the greatest common divisor of their periods |
| `PhaseSlots.DeclaredJobsNeverShare` | cronjob/runtime_sampler.go:14-28 | no two of the six declared jobs ever share a second |
| `PhaseSlots.DifferentPhasesMayShare` | cronjob/runtime_sampler.go:444-446 | two jobs with different phases that do |
| `PhaseSlots.EarliestDeadline` | cronjob/runtime_sampler.go:434-442 | the minimum of the deadlines |
| `LogRing.PushKeepsLongest` | logger/logger.go:322-343 | eviction and append turn the longest fitting suffix of the history into that of the longer history |
| `LogRing.Ring.Push` | logger/logger.go:322-343 | after every push the ring holds the longest suffix of the history within 500 entries and 512 KiB, counts its bytes, and keeps no message in a free slot |
| `LogRing.Ring.Add` | logger/logger.go:303-320 | with truncated entries both limits hold without exception, and every longer suffix breaks one |
| `LogRing.TruncateLogEntry` | logger/logger.go:345-358 | a message within the limit is kept as it is; the loop cuts a longer one at the last rune start that leaves room for the mark |
| `LogRing.TruncationKeepsRunes` | logger/logger.go:345-358 | what is kept is a whole number of characters, and one more would not fit |
| `LogRing.Utf8IsRune` | logger/logger.go:353-356 | every UTF-8 encoded code point is one character in this sense |
| `LogRing.NewestShows` | logger/logger.go:380-386 | shown are the entries with a message and a level at most the one asked for |
| `LogRing.NewestFirst` | logger/logger.go:380-388 | later entries come first |
| `LogRing.Ring.GetLogs` | logger/logger.go:360-390 | the first c entries to show, newest first; the clamps change nothing |
| `InstallActivation.MoveEntries` | service/acme_service.go:4847-4861 | a rename loop moves exactly the names before the first failing one |
| `InstallActivation.Rollback` | service/acme_service.go:4781-4821 | what becomes of each entry, and exactly when an error is reported |
| `InstallActivation.Activate` | service/acme_service.go:4823-4901 | exactly when it succeeds, and what becomes of each entry for every choice of failing operations; unmanaged ones are never touched |
| `InstallActivation.CleanFailureExactly` | service/acme_service.go:4781-4901 | a failure with a clean rollback leaves the target as it was if and only if no existence probe overlooked an entry |
| `InstallActivation.ActivateSeen` | service/acme_service.go:4823-4901 | all or nothing when the probes do not fail, and exactly when it succeeds |
| `InstallActivation.ScriptLost` | service/acme_service.go:4840-4844 | an activation after which the old script is nowhere |
| `VersionOrder.ParseSemverNumbers` | service/acme_service.go:8012-8039 | the loops compute the number of each dotted part |
| `VersionOrder.Tokenize` | service/acme_service.go:7946-7982 | the loop computes the maximal runs of digits and of letters |
| `VersionOrder.TokensPartition` | service/acme_service.go:7946-7982 | tokens are non-empty, of one kind, and together all digits and letters of the suffix in order |
| `VersionOrder.CompareSemverLikeTags` | service/acme_service.go:7871-7904 | the loops compute TagCompare; where two cores first differ the smaller number comes first |
| `ReleaseTags.ReleaseTagParses` | service/acme_service.go:8000-8039 | decimal numbers joined by dots, with or without a leading v and whatever the suffix, parse to those numbers |
| `ReleaseTags.ReleasesOrdered` | service/acme_service.go:7871-7904 | such releases are ordered by the first number in which they differ, missing ones being zero |
| `VersionOrder.TagCompareSigned` | service/acme_service.go:7871-7944 | swapping any two tags flips the sign |
| `VersionOrder.TokensAreKeys` | service/acme_service.go:7906-7944 | with numbers that fit, suffixes compare like lists of numbers and caseless words, numbers first |
| `VersionOrder.TagCompareTransitive` | service/acme_service.go:7871-7944 | transitive on all tags whose suffix numbers fit 64 bits |
| `VersionOrder.ReleaseRanksAbove` | service/acme_service.go:7895-7903 | a tag without suffix ranks above every tag with one and an equal core |
| `VersionOrder.LeastOverflowCycle` | service/acme_service.go:7906-7998 | the suffix numbers 93, 100 and 2^63, the first that does not fit, compare in a cycle |
| `VersionOrder.OverflowCycle` | service/acme_service.go:7906-7998 | a cycle for every suffix number 10^n with n of at least 19 |
| `VersionOrder.TransitiveExactly` | service/acme_service.go:7871-7998 | for every limit: the order is transitive on all tags with suffix numbers up to it if and only if it fits 64 bits |
| `MonthlyReset.JanuaryStarts` | service/traffic_overview.go:4014-4023 | the calendar built month by month agrees with the Gregorian leap year rule in every year |
| `MonthlyReset.LatestAndNext` | service/client_access_policy.go:75-106 | for every instant and reset day: latest <= now < next, and no boundary of any month strictly between |
| `MonthlyReset.BoundariesOnResetDay` | service/client_access_policy.go:67-106 | the latest and the next boundary are midnights of the reset day of their month, or of the last day of a shorter month |
| `MonthlyReset.NoResetDay` | service/client_access_policy.go:75-114 | without a reset day there is no boundary and no reset |
| `MonthlyReset.DueExactly` | service/client_access_policy.go:108-114 | a reset is due if and only if some month's boundary has come since the last one |
| `ResetPolling.FiresAsDecided` | service/client.go:623-641 | a client is reset at a poll if and only if a reset is due and its writes succeed |
| `ResetPolling.AtMostOncePerPeriod` | service/client.go:604-650 | two resets of a client never fall in one period |
| `ResetPolling.OncePerPolledPeriod` | service/client.go:604-650 | a polled period has seen its reset if and only if the writes of one succeeded at some poll in it and no earlier record covers it |
| `ResetPolling.StraddlingRun` | service/nftables_traffic.go:801-810 | for every period, a run in which a reset recorded too late costs the next period its own |

## Left out

- HTTP handlers, cookies, request binding, CLI, systemd and Docker commands; DDNS, nftables and cron plumbing.
- acme.sh, DNS providers, GitHub, PEM, X.509, zip, YAML and SQLite: their outcome is a parameter.
- Core manager internals: a Core is running with a loaded config, starting or stopped; stopping it is not gated and the model does not claim that a stopped Core stays so.
- The log-session view of an ACME task, whose status can briefly return to running; only the task view is modelled.
- The sampler's wake channel, and the work inside its jobs.
- Disk log rotation and the formatting of log lines.
- Floating-point quotients of the renewal window: the model's integer quotients agree with them on the values that occur.
- Invalid UTF-8 in version tags, and letter case outside ASCII (tokens are ASCII).
- Zones with changing offsets.
- Side files of SQLite (WAL), which move with their directory.
- Aliasing and update in place of the session registry's fields: `LoginSessions` keeps them as one value that the class replaces at each request.
- LoginSessions.ServeOne: answers like the one map where statements succeed; where they fail it is the rejection of revoked tokens that is stated.
- DbRestore.Lifetime: assumes that no restore removes the database after a failing stat call; that one does exactly then is `DbRestore.StartKeepsExactly`.
- RenewalDates.AttemptedInWindow: not while a batch is held open beyond its hour (`RenewalDates.WaitsForNextBatch`); `AutoRenewBatch.BatchClosesWithin` bounds how long that lasts.
- AutoRenewBatch.BatchCloses: users' edits between the runs are not part of it; an edit can enrol certificates that the measure did not count.
- RuntimeSampler.WaitersReleased: a released Start looks at the state again and may wait for a newer generation.
- InstallActivation.Activate: a removal that fails may leave anything in place of the new entry; the model claims nothing about that entry.
