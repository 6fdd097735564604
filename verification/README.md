# TaskForge control plane: a verified model

TaskForge is a durable job queue. PostgreSQL holds the truth: every operation is one
transaction that locks rows in a fixed order, samples server time after the locks,
revalidates, and updates. This project models that control plane, the worker-side
protocols around it and its arithmetic cores in Dafny, and proves what they guarantee
over every run.

## How the model is built

- `Schema`, `Transactions`: the tables as finite maps, and each transaction as a function
  from the state after its locks to the committed state and its reply. An error rolls back.
  A colliding UUID is a primary-key violation, hence one of those errors.
- `Invariants`: nineteen laws (row constraints, bindings, authority, attempt numbers, budget,
  settlement, capacity, notifications, dead letters, identities, sources). `Effects`, `Endings`
  and `Movements` show that every transaction keeps them; `Steps` extends that to every run.
- `History`: what later states keep from earlier ones, for every run. `StaleAuthority`, `Replays`,
  `Verdicts`, `Progress`, `Idempotence`, `Accounting`, `WorkerLimits`, `Spacing` and `Backoff` are the consequences.
- `ClaimAnswers`, `ReportAnswers`, `ReconcileAnswers`, `RequestAnswers`: for every transaction, exactly when each answer
  is given and what is written, over the rows alone. `CancelDelivery` and `Schedules` carry that over runs.
- `ControlPlane`: class `Store` runs each transaction statement by statement on a private copy,
  counting the rows its conditional updates hit, and is proved to commit exactly what
  `Transactions` says. `Scans` and `Publishing` are the periodic loops over it, with arbitrary
  steps of everybody else between the scan and each revalidation.
- `Renewal` and `Heartbeats` (worker loops against the database over a network that loses, delays and duplicates),
  `LockOrder` (deadlock freedom), `Deliveries` and `Cancellations` (worker-local concurrency),
  `RetryPolicies`, `CanonicalJson`, `Fingerprints`, `Payloads` (pure and arithmetic cores), `Scenarios` (concrete runs
  that show a documented promise broken).

## Assumptions

- Server time never decreases; all replicas share one lease duration.
- Worker and server clocks advance at the same rate, with any offset between them; the worker's tickers and call deadlines fire on time.
- A renewal identity, once drawn by a worker loop, is used by nobody else, though others may renew the same lease under their own; each handler context has its own cancel function.
- float64 is taken as real arithmetic; durations in the control plane are whole microseconds.
- Scopes, names, keys, payloads, results and hashes are only compared or copied, so numbers stand for them there.
- Retry delays, UUIDs, rows skipped as locked, and the moments at which anything happens are arbitrary inputs.

Where code and documentation disagree the code is modelled: `docs/ARCHITECTURE.md` sends a retryable
failure or a timeout with budget to RETRY_WAIT, but with full jitter the code can draw a delay of zero and
requeue at once (`Backoff.FailureSkipsRetryWait`, `TimeoutSkipsRetryWait` and `LapseSkipsRetryWait` are such runs;
`RetryableFailureWaits`, `DueTimeoutWaits` and `LapsedTimeoutWaits` give the exact condition). Its reliability invariant 6 says a
worker never exceeds its declared concurrency limit; a boot that declares less than its predecessor holds
does (`WorkerLimits.SmallerBootExceeds`), and `WorkerLimits.DeclaredLimitHolds` gives the exact condition.

## Model

| member | source | states |
|---|---|---|
| `Steps.ReachableValid` | docs/ARCHITECTURE.md:804-821 | after any run of any transactions from a migrated database, every law holds |
| `Steps.StepValid` | docs/ARCHITECTURE.md:804-821 | one transaction with any arguments, committed or rolled back, keeps every law |
| `Steps.RunValid` | docs/ARCHITECTURE.md:804-821 | every run from a valid state ends in a valid state |
| `Invariants.InitialValid` | docs/ARCHITECTURE.md:804-821 | a migrated, empty database satisfies every law |
| `Endings.FenceIsTheLeaseRow` | internal/workers/store.go:793-869 | in a valid state the lease row alone decides a fence; session, job and attempt agree with it |
| `Endings.DecideIsLegal` | internal/lifecycle/retry.go:322-351 | passing the attempt number as attempts used gives retries within budget, never for permanent failures, exhaustion exactly on the last attempt, and on a retry exactly the drawn delay, none after an abandonment |
| `Endings.FinalizeAttemptValid` | internal/workers/outcome.go:331-455 | recording a failure, timeout or abandonment keeps every law |
| `Endings.FinalizeCancellationValid` | internal/workers/outcome.go:463-509 | finalizing a cancellation keeps every law |
| `Endings.FailValid` | internal/workers/outcome.go:37-135 | a failure report keeps every law on every path |
| `Endings.AcknowledgeCancellationValid` | internal/workers/outcome.go:150-214 | a cancellation acknowledgement keeps every law |
| `Endings.SucceedValid` | internal/workers/store.go:608-705 | a success report keeps every law |
| `Endings.ReconcileExpiredLeaseValid` | internal/workers/reconcile.go:179-312 | reconciling a lapsed lease keeps every law |
| `Endings.ReconcileDueTimeoutValid` | internal/workers/timeout.go:60-111 | reconciling a due timeout keeps every law |
| `Endings.FinalizeTimeoutValid` | internal/workers/timeout.go:123-160 | recording a timeout keeps every law |
| `Movements.ClaimValid` | internal/workers/store.go:228-449 | a claim keeps every law, among them queue and worker capacity and consecutive attempt numbers |
| `Movements.StartValid` | internal/workers/store.go:514-598 | starting an attempt keeps every law |
| `Movements.RenewLeaseValid` | internal/workers/heartbeat.go:183-308 | a renewal keeps every law |
| `Movements.RegisterValid` | internal/workers/store.go:60-153 | registering a boot keeps every law, among them one current session per worker |
| `Movements.HeartbeatValid` | internal/workers/heartbeat.go:33-107 | a heartbeat keeps every law |
| `Movements.MarkSessionStaleValid` | internal/workers/reconcile.go:74-119 | marking a session stale keeps every law |
| `Movements.RequestCancelValid` | internal/jobs/cancel.go:62-151 | a cancellation request keeps every law |
| `Movements.SubmitValid` | internal/jobs/store.go:64-207 | a submission keeps every law |
| `Movements.ReplayValid` | internal/jobs/dlq.go:204-318 | a dead-letter replay keeps every law |
| `Movements.PromoteDueJobValid` | internal/jobs/schedule.go:87-165 | a promotion keeps every law |
| `Movements.RenotifyStrandedJobValid` | internal/jobs/schedule.go:228-305 | a re-notification keeps every law |
| `Movements.ClaimDueValid` | internal/outbox/store.go:116-165 | claiming outbox events keeps every law |
| `Movements.MarkPublishedValid` | internal/outbox/store.go:172-181 | marking an event published keeps every law |
| `Movements.RecordFailureValid` | internal/outbox/store.go:188-202 | recording a publication failure keeps every law |
| `History.RunExtends` | internal/metrics/collectors.go:186-192 | every continuation only adds rows; immutable columns, terminal rows, closed leases, ended sessions, published events and consumed identities stay as they are |
| `History.StepExtends` | internal/metrics/collectors.go:186-192 | the same for one transaction of any kind |
| `StaleAuthority.StaleAuthorityNeverCommits` | internal/workers/store.go:751-869 | once the lease is unusable, the attempt terminal or the session not healthy, no report under that fence alters any table after any run |
| `StaleAuthority.LostStays` | internal/workers/store.go:751-764 | lost authority is never regained |
| `StaleAuthority.LostCommitsNothing` | internal/workers/store.go:793-869 | a report under lost authority changes nothing |
| `StaleAuthority.EndedSessionStaysEnded` | internal/workers/heartbeat.go:46-82 | a session that is not current keeps its row and can neither claim nor beat, ever |
| `StaleAuthority.TerminalRowsStay` | docs/ARCHITECTURE.md:805-812 | terminal jobs, attempts and closed leases are the same rows in every later state |
| `StaleAuthority.TotalsNeverDecrease` | internal/metrics/collectors.go:186-206 | submitted, completed, attempt and dead-letter totals are monotone over any run |
| `Replays.FailureReplayIsStable` | internal/workers/outcome.go:54-77 | after any run, repeating an accepted failure report returns the stored statuses, delay, retry time and reason, marked replayed, and changes nothing |
| `Replays.ChangedReportConflicts` | internal/workers/outcome.go:223-252 | the same identity with another class, code or message conflicts, however much later |
| `Replays.AcknowledgementReplayIsStable` | internal/workers/outcome.go:170-188 | repeating an accepted acknowledgement returns the same outcome and changes nothing |
| `Replays.AcknowledgedFailureConflicts` | internal/workers/outcome.go:170-188 | an identity that ended its attempt by failure conflicts as an acknowledgement after any run |
| `Replays.FailedAcknowledgementConflicts` | internal/workers/outcome.go:223-252 | an identity that acknowledged a cancellation conflicts as a failure report after any run |
| `Replays.ForeignOutcomeConflicts` | internal/workers/outcome.go:291-306 | an identity that ended one attempt conflicts for every other attempt from then on |
| `Replays.ResultIsFinal` | internal/workers/store.go:608-705 | a committed success and its document stay, and any later report under the fence repeats and writes nothing, whatever document it carries |
| `Replays.ClaimTakesTheBestJob` | internal/workers/store.go:350-363 | a fresh claim gets an eligible unlocked job that precedes every other eligible unlocked job by priority, availability, age and id |
| `Replays.ClaimConsumedOnce` | internal/workers/store.go:238-316 | a claim identity creates one lease ever; later uses replay it, report a duplicate or conflict, by who asks |
| `Replays.HeldClaimAnswers` | internal/workers/store.go:238-316 | what a claim with a consumed identity answers, by scope, queue, worker and session of the asker |
| `Replays.ReplayedAssignmentIsStable` | internal/workers/store.go:455-476 | a replayed assignment names the same job, attempt, number and lease in every later state |
| `Replays.StartReplayKeepsDeadline` | internal/workers/store.go:532-555 | any later successful start repeats the original start time and deadline and writes nothing |
| `Replays.StartStamps` | internal/workers/store.go:569-597 | a first start stamps now plus timeout_seconds as the deadline |
| `Replays.StartRepeats` | internal/workers/store.go:532-555 | a repeated start answers the stored times and what remains of the deadline, and writes nothing |
| `Replays.SubmissionConsumedOnce` | internal/jobs/store.go:159-237 | an idempotency key creates one job ever; another fingerprint conflicts, the same one returns that job |
| `Replays.ReplacementConsumedOnce` | internal/jobs/dlq.go:233-344 | a replay identity creates one replacement ever and the original never changes |
| `ClaimAnswers.ClaimRefusals` | internal/workers/store.go:228-316 | a claim under a fresh identity is refused exactly for missing identities, an unknown queue, or a session that is not a healthy one of that worker and scope |
| `ClaimAnswers.FreshClaimAnswers` | internal/workers/store.go:318-383 | QUEUE_EMPTY iff there is room and nothing due in the queue; NO_ELIGIBLE_JOB iff the groups differ or due jobs exist but no unlocked one suits the session; CAPACITY_EXHAUSTED iff a limit is reached; an assignment otherwise |
| `ClaimAnswers.ClaimWrites` | internal/workers/store.go:385-449 | the leased job, the next attempt and the lease of full length, column by column, and the assignment that describes them |
| `ClaimAnswers.SafeExactlyIfNothingIsLeft` | internal/workers/types.go:195-206 | an answer allows deleting the notification iff its identity then has a lease, or there was room and nothing due |
| `ClaimAnswers.SafeAnswerStrandsNothing` | internal/workers/types.go:195-206 | a safe answer without an assignment, under a fresh identity, leaves no due job in the queue |
| `ReportAnswers.RenewalAnswers` | internal/workers/heartbeat.go:183-308 | when a renewal is granted, repeated, or refused with which error, each as an iff on lease row, session health, instants, job status, version and identity |
| `ReportAnswers.RenewalWrites` | internal/workers/heartbeat.go:277-302 | a granted renewal opens a full window one version on and writes nothing else |
| `ReportAnswers.StartAnswers` | internal/workers/store.go:514-598 | a start is accepted iff the job is LEASED under a live lease of a healthy session, repeated iff it is RUNNING, refused otherwise with the stated error |
| `ReportAnswers.StartWrites` | internal/workers/store.go:569-597 | the two rows a first start writes, and its answer |
| `ReportAnswers.SuccessAnswers` | internal/workers/store.go:608-705 | a success commits iff the fence is bound, the session healthy, the job RUNNING, the lease ACTIVE and unexpired, and the deadline not reached; every refusal as an iff |
| `ReportAnswers.SuccessWrites` | internal/workers/store.go:663-700 | three finished rows stamped with now, and exactly the reported document |
| `ReportAnswers.FailureAnswers` | internal/workers/outcome.go:37-135 | when a failure report is accepted, repeated, or refused with which error, as iffs on the rows |
| `ReportAnswers.FailureWrites` | internal/workers/outcome.go:331-455 | an accepted failure's rows and reply: retried after exactly the drawn delay with budget, buried with its reason otherwise |
| `ReportAnswers.AcknowledgementAnswers` | internal/workers/outcome.go:150-214 | when an acknowledgement ends the attempt, is repeated, or is refused with which error, as iffs on the rows |
| `ReportAnswers.CancellationWrites` | internal/workers/outcome.go:463-509 | the rows and the reply of a finalized cancellation |
| `ReconcileAnswers.DueTimeoutAnswers` | internal/workers/timeout.go:60-111 | the timeout reconciler acts iff the job is RUNNING, the lease live and the deadline reached |
| `ReconcileAnswers.TimeoutWrites` | internal/workers/timeout.go:123-160 | a recorded timeout's rows and statistics |
| `ReconcileAnswers.ExpiredLeaseAnswers` | internal/workers/reconcile.go:212-311 | the lease reconciler acts iff the lease is ACTIVE and its time is up: cancellation if requested, else timeout if the deadline came no later than the lapse, else abandonment |
| `ReconcileAnswers.ExpiredLeaseCounts` | internal/workers/reconcile.go:212-311 | its statistics say exactly what it did |
| `ReconcileAnswers.AbandonmentWrites` | internal/workers/reconcile.go:280-311 | an abandoned attempt's rows: requeued and announced at once with budget, buried otherwise |
| `RequestAnswers.CancelAnswers` | internal/jobs/cancel.go:62-151 | LEASED and RUNNING jobs become CANCEL_REQUESTED, waiting ones CANCELED, canceled ones repeat, finished ones refuse |
| `RequestAnswers.SubmitAnswers` | internal/jobs/store.go:64-237 | when a submission creates a job, and each refusal, as iffs |
| `RequestAnswers.SubmitWrites` | internal/jobs/store.go:95-207 | a future schedule gives a PENDING job at that time without an event; anything else a QUEUED one now with an event claimable at once |
| `RequestAnswers.ReplayAnswers` | internal/jobs/dlq.go:204-344 | a replay is accepted iff the job is DEAD_LETTERED in the scope, and each refusal as an iff |
| `RequestAnswers.ReplayWrites` | internal/jobs/dlq.go:250-318 | the replacement, its identity and its event, column by column |
| `RequestAnswers.PromotionAnswers` | internal/jobs/schedule.go:125-164 | a job is queued and announced iff it is PENDING or RETRY_WAIT and its time has come |
| `RequestAnswers.RenotificationAnswers` | internal/jobs/schedule.go:266-300 | a job is announced again iff it is QUEUED, was last announced longer ago than the interval, and its generation has no pending event |
| `RequestAnswers.RegistrationAnswers` | internal/workers/store.go:60-153 | a new boot starts healthy and ends the current one; the same boot repeats, a different one under its identity conflicts |
| `RequestAnswers.StaleAnswers` | internal/workers/reconcile.go:74-119 | a session is marked iff it is current and silent for longer than the threshold |
| `RequestAnswers.FailureRecorded` | internal/outbox/store.go:188-202 | a failure is stored on a pending event, cut to 1000 characters, with the time of the next try |
| `RequestAnswers.PublishedAnswers` | internal/outbox/store.go:172-181 | an event is marked iff it is pending, with its time and without an old error |
| `RequestAnswers.ClaimedAnswers` | internal/outbox/store.go:116-135 | a claim takes exactly the picked events that are pending and due, counts it and hides them for the timeout |
| `CancelDelivery.HeartbeatAnswers` | internal/workers/heartbeat.go:33-159 | a heartbeat is accepted iff the session is a healthy one of that worker and scope, and names an attempt iff its lease is ACTIVE under the session, it is LEASED or RUNNING, and its job is CANCEL_REQUESTED |
| `CancelDelivery.OrderedUntilItEnds` | internal/workers/heartbeat.go:114-159 | after an accepted cancellation every successful heartbeat of the holding session names the attempt for as long as it executes, over any run |
| `CancelDelivery.NeverNamedUnrequested` | internal/workers/heartbeat.go:114-159 | over any run, a job whose cancellation nobody requests is never named to any session |
| `CancelDelivery.RequestSticks` | docs/ARCHITECTURE.md:817 | once cancellation is requested a job only ever becomes CANCELED, so it never succeeds |
| `Schedules.NeverBeforeItsTime` | internal/jobs/schedule.go:87-165 | over any run, a PENDING or RETRY_WAIT job gets no lease before its available_at |
| `Schedules.RetryWaitsItsDelay` | internal/workers/outcome.go:418-441 | over any run after a retried failure, the next attempt is leased no earlier than the drawn delay from then |
| `Schedules.QueuedIsAnnounced` | internal/jobs/schedule.go:167-189 | a QUEUED job has an event still to be delivered, or is announced again at any time past the interval |
| `Verdicts.SilentRunVerdict` | internal/workers/reconcile.go:212-311 | without worker reports, any interleaving of reconcilers, traffic and time leaves the attempt untouched or ends it CANCELED if cancellation won, else TIMED_OUT exactly when its deadline is set and not after the lease expiry, else ABANDONED |
| `Verdicts.SilentStep` | internal/workers/timeout.go:91-111 | the same for one step of any kind |
| `Verdicts.DueTimeoutVerdict` | internal/workers/timeout.go:60-111 | the timeout reconciler does nothing or reaches the same verdict as the lease reconciler would |
| `Verdicts.ExpiredLeaseVerdict` | internal/workers/reconcile.go:212-311 | the lease reconciler does nothing or reaches the same verdict as the timeout reconciler would |
| `Verdicts.NoRequestNoCancel` | internal/jobs/cancel.go:119-135 | cancellation cannot win unless somebody requested it |
| `Verdicts.FinalizedOnce` | internal/workers/outcome.go:372-405 | over any run an executing attempt is finalized once if it ends up not executing, and never otherwise |
| `Idempotence.LeaseReconciledOnce` | docs/ARCHITECTURE.md:819 | once a replica reconciled a lease, any later reconciliation of it is skipped, whatever it draws |
| `Idempotence.TimeoutReconciledOnce` | internal/workers/timeout.go:60-111 | once a timeout is recorded, any later attempt to record it is skipped |
| `Idempotence.SessionMarkedOnce` | internal/workers/reconcile.go:74-119 | a session is marked stale once, whatever thresholds replicas use |
| `Idempotence.PromotedOncePerAttempt` | internal/jobs/schedule.go:87-165 | a job is promoted again only after another attempt was made |
| `Progress.StepMoves` | docs/ARCHITECTURE.md:225-237 | every step moves every job along the transition matrix; only a claim leases one and only a client's request asks for its cancellation |
| `Progress.StatusChangesAreBounded` | internal/workers/outcome.go:407-455 | over any run a job changes status at most 4 * max_attempts + 1 times, by a strictly decreasing rank |
| `Progress.StepRank` | docs/ARCHITECTURE.md:225-237 | a step that changes a status lowers the rank, any other keeps it |
| `Progress.LateStepIsEnabled` | internal/workers/reconcile.go:215-311 | every PENDING, RETRY_WAIT, LEASED, RUNNING or CANCEL_REQUESTED job has a promotion or reconciliation that changes its status at any time past a fixed point |
| `Progress.LapseEndsAttempt` | internal/workers/reconcile.go:212-311 | reconciling a lapsed lease ends the hold on its job and counts one expired lease |
| `Progress.PromotionEscapes` | internal/jobs/schedule.go:125-164 | a due scheduled job is promoted by the scheduler's step |
| `Accounting.HeldIffActiveLease` | docs/ARCHITECTURE.md:806 | a job has an ACTIVE lease exactly while LEASED, RUNNING or CANCEL_REQUESTED |
| `Accounting.ActiveLeaseIsUnique` | migrations/0002_workers_sessions_and_claims.sql:181 | that lease is unique and bound to the only executing attempt, whose status matches |
| `Accounting.AttemptNumbersAreConsecutive` | internal/workers/store.go:360-397 | attempt numbers are exactly 1..n with n within budget, the executing one is n, and a waiting job has budget left |
| `Accounting.DeadLetteredIffEntry` | internal/lifecycle/dlq.go:54-84 | a job is DEAD_LETTERED exactly when it has a dead-letter entry |
| `Accounting.EntryNamesLastAttempt` | internal/workers/outcome.go:444-453 | the entry is unique, names the last attempt and states the reason its outcome gives |
| `Accounting.CapacityHolds` | docs/ARCHITECTURE.md:809-810 | ACTIVE leases stay within the queue's limit and within a limit some session of the worker registered |
| `WorkerLimits.SmallerBootExceeds` | internal/workers/store.go:101-110 | a run from a migrated database in which the current boot is above the limit it declared |
| `WorkerLimits.DeclaredLimitHolds` | docs/ARCHITECTURE.md:809 | a new boot stays within its declared limit for as long as it is current exactly if the ACTIVE leases of its worker fit that limit at registration |
| `WorkerLimits.RunLoad` | internal/workers/store.go:333-343 | while a session is current the worker's leases never exceed the larger of what it found and what it declared |
| `WorkerLimits.ClaimNeedsRoom` | internal/workers/store.go:333-343 | a claim that changes anything comes from a current session of the worker with room below its limit |
| `Accounting.OneCurrentSession` | internal/workers/store.go:105-140 | a logical worker has at most one current session |
| `Accounting.DirectivesFitTheLimit` | internal/workers/heartbeat.go:114-159 | the limit of 256 directives never cuts off a cancellation |
| `Accounting.WorkerHoldsAtMost256` | internal/workers/store.go:333-343 | no worker ever holds more than 256 ACTIVE leases |
| `Accounting.GenerationsAreAdvertised` | internal/outbox/store.go:92-103 | every generation has an event, none has two pending ones, and a QUEUED job was advertised |
| `Spacing.StepNotices` | internal/jobs/schedule.go:135-160 | outside re-notification and publishing, an event appears only with a new generation |
| `Spacing.RunSpaced` | internal/jobs/schedule.go:266-300 | if every replica re-notifies no sooner than an interval, events of one generation are further apart than it, over any run |
| `Spacing.StepSpaced` | internal/jobs/schedule.go:266-300 | the same for one step |
| `Backoff.RetryableFailureWaits` | internal/workers/outcome.go:418-441 | a retryable failure with budget stores exactly the policy's delay and the retry time it ends at, in the attempt, the job and the reply; it enters RETRY_WAIT unless, exactly, full jitter draws a sample at or below zero; then it is QUEUED |
| `Backoff.StoredMillisIsZero` | internal/lifecycle/retry.go:161-216 | the delay stored in milliseconds is zero exactly for full jitter and a sample at or below zero |
| `Backoff.TimeoutStatsCountWaiting` | internal/workers/timeout.go:154-158 | a recorded timeout with budget stores exactly the policy's delay and retry time, is counted as retry-waiting and leaves its job in RETRY_WAIT unless, exactly, full jitter draws a sample at or below zero; then it is QUEUED |
| `Backoff.DueTimeoutWaits` | internal/workers/timeout.go:60-111 | the same whenever the timeout reconciler records one |
| `Backoff.LapsedTimeoutWaits` | internal/workers/reconcile.go:212-311 | the same whenever the lease reconciler finds that the deadline came first |
| `Backoff.FailureSkipsRetryWait` | internal/workers/outcome.go:418-441 | a run from a migrated database in which a retryable failure of the first of two attempts is requeued at once |
| `Backoff.TimeoutSkipsRetryWait` | internal/workers/timeout.go:123-160 | a run in which a timeout of the first of two attempts is requeued at once and counted as retry-waiting |
| `Backoff.LapseSkipsRetryWait` | internal/workers/reconcile.go:212-311 | the same under the lease reconciler |
| `ControlPlane.LockFindsTheFence` | internal/workers/store.go:793-869 | the queue lock and the joins fail only together with the fence itself |
| `ControlPlane.FinalizeRows` | internal/workers/outcome.go:331-455 | each conditional update hits exactly one row and the result is the specified finalization |
| `ControlPlane.CancelRows` | internal/workers/outcome.go:463-509 | the three cancellation updates hit exactly one row each |
| `ControlPlane.TimeOutRows` | internal/workers/timeout.go:123-160 | the timeout finalization and its statistics are as specified |
| `ControlPlane.LargestNumberIsUsed` | internal/workers/store.go:391-397 | the largest attempt number is the number of attempts used |
| `ControlPlane.ClaimableAreCandidates` | internal/workers/store.go:350-363 | the attempt-count filter never excludes a queued job |
| `ControlPlane.Store.FailAttempt` | internal/workers/outcome.go:37-135 | statement by statement it commits and replies exactly as `Transactions.Fail`; the affected-row conflicts are dead code |
| `ControlPlane.Store.AcknowledgeCanceled` | internal/workers/outcome.go:150-214 | statement by statement it commits and replies exactly as `Transactions.AcknowledgeCancellation`; the affected-row conflicts are dead code |
| `ControlPlane.Store.SucceedAttempt` | internal/workers/store.go:608-705 | commits and replies exactly as specified; a result is never written twice |
| `ControlPlane.Store.StartAttempt` | internal/workers/store.go:514-598 | statement by statement it commits and replies exactly as `Transactions.Start`; attempt and job are updated together or not at all |
| `ControlPlane.Store.Renew` | internal/workers/heartbeat.go:183-308 | statement by statement it commits and replies exactly as `Transactions.RenewLease`; a replay, a stale version and a foreign identity are told apart before the update |
| `ControlPlane.Store.TimeOutAttempt` | internal/workers/timeout.go:60-111 | statement by statement it commits and replies exactly as `Transactions.ReconcileDueTimeout`; an attempt that changed since the scan is skipped |
| `ControlPlane.Store.ReconcileLease` | internal/workers/reconcile.go:179-312 | statement by statement it commits and replies exactly as `Transactions.ReconcileExpiredLease`; cancellation, timeout and abandonment are tried in that order |
| `ControlPlane.Store.MarkStale` | internal/workers/reconcile.go:74-119 | statement by statement it commits and replies exactly as `Transactions.MarkSessionStale`; the locked row is rechecked |
| `ControlPlane.Store.RegisterSession` | internal/workers/store.go:60-153 | statement by statement it commits and replies exactly as `Transactions.Register`; the prior boot is ended and the new one inserted in one commit |
| `ControlPlane.Store.Beat` | internal/workers/heartbeat.go:33-107 | commits as specified and returns every directive despite the limit |
| `ControlPlane.Store.ClaimJob` | internal/workers/store.go:228-449 | preflight, locks, counts, selection, inserts and conditional update commit the specified claim |
| `ControlPlane.Store.ReplayClaim` | internal/workers/store.go:455-476 | answers a consumed claim identity as `Transactions.Claim` does, for any draw |
| `ControlPlane.Store.NextAttemptNumber` | internal/workers/store.go:391-397 | largest number plus one is attempts used plus one |
| `ControlPlane.Store.Cancel` | internal/jobs/cancel.go:62-151 | statement by statement it commits and replies exactly as `Transactions.RequestCancel`; terminal, already requested, executing and waiting jobs are told apart under the lock |
| `ControlPlane.Store.SubmitJob` | internal/jobs/store.go:64-237 | the losing submission's rollback leaves the specified state and reply |
| `ControlPlane.Store.ReplayJob` | internal/jobs/dlq.go:204-344 | the losing replay's rollback leaves the specified state and reply |
| `ControlPlane.Store.Promote` | internal/jobs/schedule.go:87-165 | statement by statement it commits and replies exactly as `Transactions.PromoteDueJob`; the job and its event are committed together |
| `ControlPlane.Store.Renotify` | internal/jobs/schedule.go:228-305 | statement by statement it commits and replies exactly as `Transactions.RenotifyStrandedJob`; a pending event of the generation suppresses another |
| `ControlPlane.Store.MarkEventPublished` | internal/outbox/store.go:172-181 | marks a pending event once |
| `ControlPlane.Store.RecordEventFailure` | internal/outbox/store.go:188-202 | stores the bounded cause and the retry time on a pending event |
| `ControlPlane.Store.ClaimEvents` | internal/outbox/store.go:116-165 | row by row, exactly the picked events that are pending and due are claimed, each attempts column rises by one for them and stays for every other event |
| `ControlPlane.Store.Execute` | docs/ARCHITECTURE.md:804-821 | executing any step yields the step of the model |
| `ControlPlane.Store.ExecuteAll` | docs/ARCHITECTURE.md:804-821 | executing any sequence of steps yields the run of the model |
| `Scans.OldestFirst` | internal/workers/reconcile.go:157-161 | the oldest rows in order, nothing left out before them, all of them below the limit |
| `Scans.ListCandidates` | internal/workers/reconcile.go:47-51 | the unlocked query: the oldest candidates in order, all of them below the limit |
| `Scans.TurnHandles` | internal/workers/reconcile.go:163-176 | a transaction that succeeds leaves its row handled, whatever happened since the scan |
| `Scans.HandledStays` | internal/workers/reconcile.go:163-176 | a handled row stays handled in every later state |
| `Scans.ReconcileExpiredLeases` | internal/workers/reconcile.go:147-177 | lists the oldest lapsed leases; with arbitrary steps between turns, a scan without failure leaves every listed lease closed, each counted as skipped or as ended in exactly one way, and the statistics are the sum of what each transaction answered |
| `Scans.ReconcileDueTimeouts` | internal/workers/timeout.go:28-58 | lists the oldest overdue attempts; a scan without failure leaves none of them reportable past its deadline, and the statistics are the sum of what each transaction answered |
| `Scans.PromoteDueJobs` | internal/jobs/schedule.go:50-85 | lists the oldest due jobs; a scan without failure leaves every one on a new generation or canceled, and counts exactly those it promoted |
| `Scans.MarkStaleSessions` | internal/workers/reconcile.go:34-72 | lists the longest silent sessions; every one has ended or was heard from since, and exactly those marked are counted |
| `Publishing.PublishedWasSent` | internal/outbox/publisher.go:111-135 | under any interleaving and crashes of publishers, a PUBLISHED event was accepted by the broker |
| `Publishing.OnlyMarkingPublishes` | internal/outbox/store.go:172-181 | no other transaction makes an event PUBLISHED |
| `Publishing.ClaimsAreSpaced` | internal/outbox/store.go:116-135 | two claims of an event are a claim timeout apart unless a failure was recorded between |
| `Publishing.ClaimBatch` | internal/outbox/store.go:116-165 | claims the oldest unlocked due events in order, leaving none that comes before a claimed one, and all of them if fewer than a batch |
| `Publishing.PublishEvent` | internal/outbox/publisher.go:111-135 | an event whose turn does not fail is PUBLISHED afterwards, by this publisher or another, and nothing becomes PUBLISHED that the broker has not accepted |
| `Publishing.Settle` | internal/outbox/publisher.go:144-166 | a refusal is recorded, an accepted event marked, and marked is reported exactly if the event was still pending |
| `Publishing.RunOnce` | internal/outbox/publisher.go:87-142 | unless canceled, claimed = published + failed + already published; failed counts exactly the turns let down, already published only what somebody else marked; without failures every claimed event is PUBLISHED; whatever happens, every PUBLISHED event was accepted by the broker |
| `Publishing.Drain` | internal/outbox/publisher.go:202-220 | when nothing is inserted meanwhile it terminates, after a short pass, a failure or a cancellation, with nothing PUBLISHED that the broker has not accepted |
| `Renewal.RenewalStaysInStep` | internal/worker/renewal.go:193-264 | under any loss, delay or duplication, and any renewal of the lease by others: the local deadline never passes expires_at; until somebody else renews the lease the server is at the worker's version or one ahead under the pending identity and a retry is never a renewal conflict; from then on every request of the loop is refused and changes nothing |
| `Renewal.CurrentNeverConflicts` | internal/workers/heartbeat.go:239-302 | a pending request is refused as a renewal conflict only after somebody else renewed the lease |
| `Renewal.OvertakenIsRefused` | internal/workers/heartbeat.go:239-302 | once somebody else renewed the lease, no request of this loop changes anything |
| `Renewal.OvertakenOnlyByRenewal` | internal/workers/heartbeat.go:277-302 | nobody overtakes a loop on a never renewed lease except by a renewal of that lease |
| `Renewal.OnlyRenewalMoves` | internal/workers/heartbeat.go:277-302 | no other transaction moves any lease's version, identity or expiry |
| `Renewal.ClaimDeadlineIsSafe` | internal/worker/client.go:226-258 | the claim's local deadline is within the lease window or already past |
| `Renewal.RoundTripRenews` | internal/worker/renewal.go:205-262 | a renewal granted and heard in time moves the loop to the next version and its deadline to the budget of a full window from the call |
| `Renewal.BudgetKeepsTheWindow` | internal/worker/client.go:328-337 | the worker keeps at least nine tenths of a window and gives up at most a second |
| `Renewal.RestartNeedsVersionZero` | internal/worker/renewal.go:193-222 | a loop restarted at version 0 succeeds only on a never renewed lease, and on such a lease it is not refused as a renewal conflict |
| `Heartbeats.RunningLoopIsFresh` | internal/worker/renewal.go:33-97 | under any interleaving, a heartbeat loop still running is less than its threshold, one interval and the last answer's delay past a receipt the server has recorded; a server threshold of at least that sum never fences it |
| `Heartbeats.FencedWhileAliveExactly` | internal/worker/renewal.go:47-90 | a loop waiting for an answer can be fenced while it takes itself for alive exactly if the server's threshold is below its own plus the last answer's delay |
| `Heartbeats.DelayBecomesLag` | internal/worker/renewal.go:76-85 | every answer delay short of the window occurs and is trusted in full |
| `LockOrder.PlansAreOrdered` | docs/ARCHITECTURE.md:549-571 | what a transaction waits for, row locks, the claim identity, unique keys and the queue share of a new job, comes in strictly increasing rank; what it takes with SKIP LOCKED ranks above all of it |
| `LockOrder.NoWaitCycle` | docs/ARCHITECTURE.md:549-571 | no chain of waiting transactions closes into a cycle |
| `LockOrder.WaitsClimb` | docs/ARCHITECTURE.md:549-571 | a blocking transaction that waits too waits for a higher rank |
| `LockOrder.ReachableTablesMove` | docs/ARCHITECTURE.md:549-571 | after any interleaving of waits, grabs of free rows, commits and rollbacks at any point, some running transaction can take the lock it waits for or commit |
| `LockOrder.ReachableTablesDrain` | docs/ARCHITECTURE.md:549-571 | from there all running transactions can be brought to commit, without a rollback |
| `LockOrder.SkippedComeLast` | internal/outbox/store.go:116-135 | a claimed job and a batch of claimed events rank above everything their transaction waits for |
| `Deliveries.DeliveryDesk.BeginDelivery` | internal/worker/runner.go:779-789 | the caller leads exactly if the event was not in flight |
| `Deliveries.DeliveryDesk.SettleLocked` | internal/worker/runner.go:810-818 | the first settlement counts, later ones change nothing |
| `Deliveries.DeliveryDesk.EndDelivery` | internal/worker/runner.go:803-808 | ends the flight and settles it as unsafe if still open |
| `Deliveries.DeliveriesAreSafe` | internal/worker/runner.go:303-395 | under any interleaving: one leader per event, exactly one publication for every flight whose leader has finished and at most one before, every waiting follower has a leader, followers acknowledge only what a claim committed as safe |
| `Deliveries.FinishReleasesFollowers` | internal/worker/runner.go:799-808 | the leader's end releases every follower of its flight |
| `Deliveries.DecisionIsFinal` | internal/worker/runner.go:791-797 | a published decision never changes |
| `Deliveries.DecisionIsPublished` | internal/worker/runner.go:365-392 | the leader's decision publishes exactly whether the claim is safe to acknowledge, and only a lost session as an error |
| `Deliveries.FollowerLeavesExactly` | internal/worker/runner.go:303-316 | a follower leaves iff its flight is settled, and acknowledges iff that is safe |
| `Deliveries.ReceiveLeadsOrFollows` | internal/worker/runner.go:303-317 | an event in flight is followed, any other is led as a new open flight |
| `Cancellations.AttemptRegistry.Register` | internal/worker/cancellation.go:61-65 | the critical section takes exactly the registration step of the interleaving model |
| `Cancellations.AttemptRegistry.Bind` | internal/worker/cancellation.go:70-84 | takes the binding step of the interleaving model, and hands out the function exactly if a directive already arrived |
| `Cancellations.AttemptRegistry.Deliver` | internal/worker/cancellation.go:100-123 | takes the delivery step of the interleaving model, and hands out the bound function exactly for a matching directive |
| `Cancellations.AttemptRegistry.Unregister` | internal/worker/cancellation.go:87-91 | the critical section takes exactly the removal step of the interleaving model |
| `Cancellations.AttemptRegistry.WasCanceled` | internal/worker/cancellation.go:132-137 | a yes means that a directive named the attempt's own fence and its bound function was or is being called; a no that none arrived |
| `Cancellations.DirectiveIsNeverLost` | internal/worker/cancellation.go:61-123 | under any interleaving the latest function bound to a canceled attempt is called or about to be, and a function is called only for the fence a directive named |
| `Cancellations.EitherOrderCancels` | internal/worker/runner.go:415-421 | directive and binding meet in either order |
| `RetryPolicies.Delay` | internal/lifecycle/retry.go:161-216 | a whole number of milliseconds in [0, Max], less than 1 ms above clamp(nominal * factor, 0, Max), zero exactly if that is zero |
| `RetryPolicies.Jittered` | internal/lifecycle/retry.go:190-205 | the jittered delay is nominal times the factor of the clamped sample |
| `RetryPolicies.QuantizeNanos` | internal/lifecycle/retry.go:274-301 | rounds up to a whole millisecond within the cap; zero stays zero |
| `RetryPolicies.CapMillis` | internal/lifecycle/retry.go:239-251 | the cap of a valid maximum is that maximum |
| `RetryPolicies.ZeroExactlyAtFullJitter` | internal/lifecycle/retry.go:190-215 | the delay is zero exactly with full jitter and a sample at or below zero |
| `RetryPolicies.BackoffIsMonotone` | internal/lifecycle/retry.go:181-185 | without jitter a later attempt never waits less |
| `RetryPolicies.BackoffReachesMax` | internal/lifecycle/retry.go:181-185 | with a multiplier above one every attempt from some number on waits exactly Max |
| `RetryPolicies.BackoffRecurs` | internal/lifecycle/retry.go:178-185 | the first attempt backs off by the base, each later one by the multiplier times the one before up to the maximum |
| `RetryPolicies.JitterSpreads` | internal/lifecycle/retry.go:190-211 | jitter spreads the delay over nominal * (1 +- jitter) within the maximum, centred at the middle sample |
| `RetryPolicies.JitterIsMonotone` | internal/lifecycle/retry.go:190-211 | a larger sample never shortens the delay |
| `CanonicalJson.WriteCanonical` | internal/jobs/canonical.go:42-92 | appends the canonical text, whatever order a map yields its keys in |
| `CanonicalJson.WriteItems` | internal/jobs/canonical.go:42-92 | appends the items in order and the closing bracket |
| `CanonicalJson.WriteMembers` | internal/jobs/canonical.go:42-92 | appends the members by sorted key and the closing brace |
| `CanonicalJson.WriteString` | internal/jobs/canonical.go:99-108 | the encoder line trimmed of its newline is exactly the quoted and escaped string |
| `CanonicalJson.PrintPrefix` | internal/jobs/canonical.go:42-92 | printed values are self-delimiting: a text determines its first value and what remains |
| `CanonicalJson.CanonicalIsInjective` | internal/jobs/canonical.go:11-20 | equal canonical texts mean equal documents |
| `Fingerprints.StreamIsInjective` | internal/jobs/submit.go:249-290 | equal pre-hash streams mean equal normalized requests |
| `Payloads.SameStreamSameMeaning` | internal/jobs/submit.go:249-290 | with the UTF-8 bytes of the canonical text as payload, two submissions hash equal streams exactly if their documents and their remaining fields are equal |
| `Payloads.EncodeIsInjective` | internal/jobs/canonical.go:21-40 | different texts have different UTF-8 encodings |
| `Fingerprints.FieldPrefix` | internal/jobs/submit.go:267-272 | a length-prefixed field ends where its length says |
| `Fingerprints.StreamLists` | internal/jobs/submit.go:265-290 | the stream is the version, the request's fields in their fixed order, the counted capabilities and any tagged schedule |
| `Fingerprints.BigEndianReadsBack` | internal/jobs/submit.go:267-272 | a length prefix reads back as the length |
| `Fingerprints.DigitsReadBack` | internal/jobs/submit.go:276-282 | a decimal text reads back as its number |
| `Fingerprints.ItoaIsInjective` | internal/jobs/submit.go:265-290 | decimal texts of different integers differ |
| `Fingerprints.FeedHash` | internal/jobs/submit.go:265-290 | the fields fed to the running hash are the stream |
| `Fingerprints.NormalizeCapabilities` | internal/jobs/submit.go:197-218 | a sorted, duplicate-free list with exactly the accepted capabilities, and no problem exactly if every one of at most 16 is accepted |
| `Ordering.SortKeys` | internal/jobs/canonical.go:42-92 | a sorted list of exactly the given keys |
| `Fingerprints.SameCapabilitiesNormalizeAlike` | internal/jobs/submit.go:194-196 | two listings normalize alike exactly if they accept the same set |

## Left out

- HTTP handlers, routing, authentication keys, dashboard, CLI, configuration, health, metrics export, tracing and logging: plumbing or single-branch rules.
- SQL text, the query planner and statement timeouts: only each transaction's effect and its locks are modelled.
- Foreign-key locks on rows the transaction itself holds or inserts, the worker-key row of a registration, and key waits on freshly drawn UUIDs: the first and last add no wait, and worker keys are not modelled.
- Validators of names, codes and messages (patterns and length bounds): only the numeric and cardinality bounds the laws need are kept.
- float64 rounding and the NaN and infinity guards of the retry policy: reals are used, and the guards have nothing to guard.
- SHA-256 and hexadecimal encoding: the model ends at the hashed byte stream.
- JSON decoding, and the replacement of invalid UTF-8 when a string is encoded: the model starts at a value tree over Unicode scalar values.
- The RFC 3339 text of a schedule: the fingerprint takes it as given bytes.
- Result uploads, the SQS broker and real timers: they appear only as nondeterministic success, failure and passing time.
- The worker's outcome precedence and retry loop around control-plane calls: they only choose which modelled step to take next.
- The re-notification scan loop: its per-job transaction is modelled and its spacing proved, the loop would repeat the promotion scan.
- Listings, cursors, PendingCount and ReleaseClaim: reads, or a one-column update no caller of the modelled paths uses.
- Publishing.Drain: termination is stated for interference by other publishers and time only; while producers insert a full batch per pass the source's loop goes on.
