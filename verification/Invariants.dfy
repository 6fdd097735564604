/**
 What every reachable database state satisfies. The row predicates are the CHECK
 constraints of the schema, and the uniqueness clauses are its unique indexes: the
 transactions keep them all without ever relying on the database to refuse.
 */
module Invariants {
  import opened Base
  import opened Schema
  import opened Transactions

  // ------------------------------------------------------------------- rows

  predicate JobRow(job: Job, now: Time) {
    && 1 <= job.spec.maxAttempts
    && 1 <= job.spec.timeoutSeconds
    && (job.status.StatusPending? ==> job.scheduledAt == Some(job.availableAt))
    && (!job.status.Scheduled() && !job.status.StatusCanceled? ==> job.availableAt <= now)
    && (job.scheduledAt.Some? && !job.status.StatusPending? && !job.status.StatusCanceled? ==> job.scheduledAt.value <= now)
    && (job.cancelRequestedAt.Some? <==> job.status.StatusCancelRequested? || job.status.StatusCanceled?)
    && (job.generation == 0 <==> job.lastNotificationAt.None?)
    && (job.status.StatusPending? ==> job.generation == 0)
    && (job.generation == 0 ==> job.status.StatusPending? || job.status.StatusCanceled?)
    && (job.lastNotificationAt.Some? ==> job.lastNotificationAt.value <= now)
  }

  /** Which outcome columns go with which terminal status. */
  predicate OutcomeColumns(a: Attempt) {
    && (a.retryDelayMillis.None? <==> a.retryAt.None?)
    && (a.retryAt.Some? ==>
          a.finishedAt.Some? && a.retryAt.value == a.finishedAt.value + a.retryDelayMillis.value * MILLISECOND)
    && (match a.status
        case AttemptFailed =>
          && a.failureClass.Some? && a.failureClass.value.ReportableByHandler() && a.outcomeId.Some?
          && (a.failureClass == Some(ClassPermanent) ==> a.retryDelayMillis.None?)
        case AttemptTimedOut => a.failureClass == Some(ClassTimedOut) && a.outcomeId.None?
        case AttemptAbandoned =>
          && a.failureClass == Some(ClassAbandoned) && a.outcomeId.None?
          && (a.retryDelayMillis.Some? ==> a.retryDelayMillis.value == 0)
        case AttemptCanceled => a.failureClass == Some(ClassCanceled) && a.retryDelayMillis.None?
        case _ => a.failureClass.None? && a.outcomeId.None? && a.retryDelayMillis.None?)
  }

  /** Reports end an attempt strictly before its deadline; a timeout is recorded only from the deadline on. */
  predicate EndsInTime(status: AttemptStatus, finishedAt: Time, timeoutAt: Time) {
    && (status.AttemptSucceeded? || status.AttemptFailed? ==> finishedAt < timeoutAt)
    && (status.AttemptTimedOut? ==> timeoutAt <= finishedAt)
  }

  predicate AttemptRow(a: Attempt, now: Time) {
    && (a.startedAt.None? <==> a.timeoutAt.None?)
    && (a.startedAt.Some? ==> a.startedAt.value <= now && a.startedAt.value < a.timeoutAt.value)
    && (a.status.AttemptLeased? ==> a.startedAt.None?)
    && (a.status.AttemptRunning? || a.status.AttemptSucceeded? || a.status.AttemptFailed? || a.status.AttemptTimedOut?
        ==> a.startedAt.Some?)
    && (a.status.Executing() <==> a.finishedAt.None?)
    && (a.finishedAt.Some? ==> a.finishedAt.value <= now)
    && (a.finishedAt.Some? && a.startedAt.Some? ==> a.startedAt.value <= a.finishedAt.value)
    && (a.finishedAt.Some? && a.timeoutAt.Some? ==> EndsInTime(a.status, a.finishedAt.value, a.timeoutAt.value))
    && OutcomeColumns(a)
  }

  predicate LeaseRow(l: Lease, now: Time, leaseDuration: int) {
    && (l.status.LeaseActive? <==> l.releasedAt.None?)
    && l.acquiredAt <= l.renewedAt <= now
    && l.expiresAt == l.renewedAt + leaseDuration
    && (l.releasedAt.Some? ==> l.renewedAt <= l.releasedAt.value <= now)
    && (l.status.LeaseExpired? <==> l.releasedAt.Some? && l.expiresAt <= l.releasedAt.value)
    && (l.renewalVersion == 0 <==> l.lastRenewalId.None?)
  }

  predicate SessionRow(x: Session, now: Time) {
    && ValidRegistration(x.reg)
    && x.registeredAt <= x.lastHeartbeatAt <= now
    && (x.status.Current() <==> x.endedAt.None?)
    && (x.endedAt.Some? ==> x.registeredAt <= x.endedAt.value <= now)
  }

  predicate EventRow(e: Event, now: Time) {
    && 1 <= e.generation
    && e.createdAt <= now
    && (e.status.EventPublished? <==> e.publishedAt.Some?)
    && (e.claimedAt.Some? <==> 0 < e.attempts)
  }

  ghost predicate JobRows(jobs: map<Id, Job>, now: Time) {
    forall j :: j in jobs ==> JobRow(jobs[j], now)
  }

  ghost predicate AttemptRows(attempts: map<Id, Attempt>, now: Time) {
    forall a :: a in attempts ==> AttemptRow(attempts[a], now)
  }

  ghost predicate LeaseRows(leases: map<Id, Lease>, now: Time, leaseDuration: int) {
    forall l :: l in leases ==> LeaseRow(leases[l], now, leaseDuration)
  }

  ghost predicate SessionRows(sessions: map<Id, Session>, now: Time) {
    forall i :: i in sessions ==> SessionRow(sessions[i], now)
  }

  ghost predicate EventRows(events: map<Id, Event>, now: Time) {
    forall e :: e in events ==> EventRow(events[e], now)
  }

  // --------------------------------------------------------------- sessions

  predicate SameWorker(workers: map<WorkerKey, Id>, k: WorkerKey, m: WorkerKey) {
    k in workers && m in workers && workers[k] == workers[m]
  }

  predicate BothCurrent(sessions: map<Id, Session>, i: Id, k: Id) {
    && i in sessions && k in sessions && sessions[i].worker == sessions[k].worker
    && sessions[i].status.Current() && sessions[k].status.Current()
  }

  /** At most one current session per logical worker. */
  ghost predicate Sessions(workers: map<WorkerKey, Id>, sessions: map<Id, Session>) {
    && (forall k, m :: SameWorker(workers, k, m) ==> k == m)
    && (forall i :: i in sessions ==>
          var key := WorkerKey(sessions[i].scope, sessions[i].reg.name);
          sessions[i].reg.session == i && key in workers && workers[key] == sessions[i].worker)
    && (forall i, k :: BothCurrent(sessions, i, k) ==> i == k)
  }

  // -------------------------------------------- jobs, attempts and leases

  predicate BindingHolds(b: Binding, sessions: map<Id, Session>, jobs: map<Id, Job>) {
    && b.job in jobs && jobs[b.job].scope == b.scope && jobs[b.job].spec.queue == b.queue
    && b.session in sessions && sessions[b.session].worker == b.worker && sessions[b.session].scope == b.scope
  }

  predicate SameAttempt(leases: map<Id, Lease>, l: Id, m: Id) {
    l in leases && m in leases && leases[l].attempt == leases[m].attempt
  }

  /** Every attempt has exactly one lease, and the two carry the same binding. */
  ghost predicate Bindings(sessions: map<Id, Session>, jobs: map<Id, Job>,
                           attempts: map<Id, Attempt>, leases: map<Id, Lease>)
  {
    && (forall a :: a in attempts ==> BindingHolds(attempts[a].binding, sessions, jobs))
    && (forall l :: l in leases ==> leases[l].attempt in attempts && attempts[leases[l].attempt].binding == leases[l].binding)
    && (forall a :: a in attempts ==> HasLease(leases, a))
    && (forall l, m :: SameAttempt(leases, l, m) ==> l == m)
  }

  predicate StatusesAgree(job: JobStatus, attempt: AttemptStatus) {
    || (job.StatusLeased? && attempt.AttemptLeased?)
    || (job.StatusRunning? && attempt.AttemptRunning?)
    || (job.StatusCancelRequested? && attempt.Executing())
  }

  predicate ExecutingAttempt(attempts: map<Id, Attempt>, a: Id, job: Id) {
    a in attempts && attempts[a].binding.job == job && attempts[a].status.Executing()
  }

  ghost predicate HasExecuting(attempts: map<Id, Attempt>, job: Id) {
    exists a :: ExecutingAttempt(attempts, a, job)
  }

  /** A job is held exactly while one of its attempts executes under an ACTIVE lease. */
  ghost predicate Authority(jobs: map<Id, Job>, attempts: map<Id, Attempt>, leases: map<Id, Lease>) {
    && (forall l :: l in leases ==>
          leases[l].attempt in attempts
          && (leases[l].status.LeaseActive? <==> attempts[leases[l].attempt].status.Executing())
          && (leases[l].status.LeaseCompleted? <==> attempts[leases[l].attempt].status.AttemptSucceeded?))
    && (forall a :: a in attempts && attempts[a].status.Executing() ==>
          attempts[a].binding.job in jobs
          && StatusesAgree(jobs[attempts[a].binding.job].status, attempts[a].status))
    && (forall j :: j in jobs && jobs[j].status.Held() ==> HasExecuting(attempts, j))
  }

  predicate SameNumber(attempts: map<Id, Attempt>, a: Id, b: Id) {
    && a in attempts && b in attempts && attempts[a].binding.job == attempts[b].binding.job
    && attempts[a].number == attempts[b].number
  }

  /** Attempt numbers are distinct and count up to the attempts used; an executing attempt is the last. */
  ghost predicate Numbers(attempts: map<Id, Attempt>) {
    && (forall a :: a in attempts ==> 1 <= attempts[a].number <= Used(attempts, attempts[a].binding.job))
    && (forall a, b :: SameNumber(attempts, a, b) ==> a == b)
    && (forall a :: a in attempts && attempts[a].status.Executing() ==>
          attempts[a].number == Used(attempts, attempts[a].binding.job))
  }

  /** No job exceeds its attempt budget, and a waiting job has some of it left. */
  ghost predicate Budget(jobs: map<Id, Job>, attempts: map<Id, Attempt>) {
    forall j :: j in jobs ==>
      Used(attempts, j) <= jobs[j].spec.maxAttempts
      && (jobs[j].status.Waiting() ==> Used(attempts, j) < jobs[j].spec.maxAttempts)
  }

  /** The job status that a final (never retried) attempt leaves behind. */
  function FinalStatus(a: AttemptStatus): JobStatus {
    match a
    case AttemptSucceeded => StatusSucceeded
    case AttemptCanceled => StatusCanceled
    case _ => StatusDeadLettered
  }

  predicate Final(a: Attempt) {
    !a.status.Executing() && a.retryDelayMillis.None?
  }

  predicate SucceededAttempt(attempts: map<Id, Attempt>, a: Id, job: Id) {
    a in attempts && attempts[a].binding.job == job && attempts[a].status.AttemptSucceeded?
  }

  predicate RetriedAttempt(attempts: map<Id, Attempt>, a: Id, job: Id, availableAt: Time) {
    && a in attempts && attempts[a].binding.job == job
    && (attempts[a].status.AttemptFailed? || attempts[a].status.AttemptTimedOut?)
    && attempts[a].retryDelayMillis.Some? && attempts[a].retryDelayMillis.value > 0
    && attempts[a].retryAt == Some(availableAt)
  }

  /**
   A final attempt is its job's last and fixes the job's terminal status; every other
   attempt was retried within budget. Retry-waiting and succeeded jobs name their cause.
   */
  ghost predicate Settled(jobs: map<Id, Job>, attempts: map<Id, Attempt>) {
    && (forall a :: a in attempts && Final(attempts[a]) ==>
          && attempts[a].binding.job in jobs
          && jobs[attempts[a].binding.job].status == FinalStatus(attempts[a].status)
          && attempts[a].number == Used(attempts, attempts[a].binding.job))
    && (forall a :: a in attempts && attempts[a].retryDelayMillis.Some? ==>
          attempts[a].binding.job in jobs
          && attempts[a].number < jobs[attempts[a].binding.job].spec.maxAttempts)
    && (forall j :: j in jobs && jobs[j].status.StatusSucceeded? ==> exists a :: SucceededAttempt(attempts, a, j))
    && (forall j :: j in jobs && jobs[j].status.StatusRetryWait? ==>
          exists a :: RetriedAttempt(attempts, a, j, jobs[j].availableAt)
                      && attempts[a].number == Used(attempts, j))
  }

  ghost predicate Results(jobs: map<Id, Job>, attempts: map<Id, Attempt>, results: map<Id, Result>) {
    forall j :: j in results ==>
      && j in jobs && jobs[j].status.StatusSucceeded? && results[j].scope == jobs[j].scope
      && SucceededAttempt(attempts, results[j].attempt, j)
  }

  // --------------------------------------------------------------- capacity

  /** The worker's active leases fit the limit of some session it registered. */
  ghost predicate WithinLimit(sessions: map<Id, Session>, leases: map<Id, Lease>, worker: Id) {
    || ActiveOfWorker(leases, worker) == {}
    || exists i :: i in sessions && sessions[i].worker == worker
                   && |ActiveOfWorker(leases, worker)| <= sessions[i].reg.concurrencyLimit
  }

  ghost predicate Capacity(queues: map<Name, Queue>, sessions: map<Id, Session>, leases: map<Id, Lease>) {
    && (forall q :: q in queues ==> |ActiveInQueue(leases, q)| <= queues[q].maxConcurrency)
    && (forall w :: WithinLimit(sessions, leases, w))
  }

  // ---------------------------------------------------------- notifications

  predicate EventFor(events: map<Id, Event>, e: Id, job: Id, generation: nat) {
    e in events && events[e].job == job && events[e].generation == generation
  }

  ghost predicate Notified(events: map<Id, Event>, job: Id, generation: nat) {
    exists e :: EventFor(events, e, job, generation)
  }

  predicate BothPending(events: map<Id, Event>, e: Id, f: Id) {
    && e in events && f in events && events[e].job == events[f].job && events[e].generation == events[f].generation
    && events[e].status.EventPending? && events[f].status.EventPending?
  }

  /** Every generation of a job was advertised, and none has two pending events. */
  ghost predicate Notifications(jobs: map<Id, Job>, events: map<Id, Event>) {
    && (forall e :: e in events ==>
          events[e].job in jobs && 1 <= events[e].generation <= jobs[events[e].job].generation
          && events[e].queue == jobs[events[e].job].spec.queue)
    && (forall j, g: nat :: j in jobs && 1 <= g <= jobs[j].generation ==> Notified(events, j, g))
    && (forall e, f :: BothPending(events, e, f) ==> e == f)
  }

  // ------------------------------------------------------------ dead letters

  function ReasonOf(a: Attempt): DLQReason {
    if a.failureClass == Some(ClassPermanent) then ReasonPermanentFailure else ReasonAttemptsExhausted
  }

  predicate SameDeadJob(dlq: map<Id, DlqEntry>, d: Id, e: Id) {
    d in dlq && e in dlq && dlq[d].job == dlq[e].job
  }

  /** A job is DEAD_LETTERED exactly when it has one entry, naming its last attempt and its reason. */
  ghost predicate DeadLetters(jobs: map<Id, Job>, attempts: map<Id, Attempt>, dlq: map<Id, DlqEntry>) {
    && (forall d :: d in dlq ==>
          && dlq[d].job in jobs && jobs[dlq[d].job].status.StatusDeadLettered?
          && dlq[d].scope == jobs[dlq[d].job].scope && dlq[d].queue == jobs[dlq[d].job].spec.queue
          && dlq[d].attempt in attempts && attempts[dlq[d].attempt].binding.job == dlq[d].job
          && Final(attempts[dlq[d].attempt]) && dlq[d].reason == ReasonOf(attempts[dlq[d].attempt])
          && (dlq[d].reason.ReasonAttemptsExhausted? ==>
                attempts[dlq[d].attempt].number == jobs[dlq[d].job].spec.maxAttempts))
    && (forall d, e :: SameDeadJob(dlq, d, e) ==> d == e)
    && (forall j :: j in jobs && jobs[j].status.StatusDeadLettered? ==> HasEntry(dlq, j))
  }

  // -------------------------------------------------------------- identities

  predicate SameClaim(leases: map<Id, Lease>, l: Id, m: Id) {
    l in leases && m in leases && leases[l].claimId == leases[m].claimId
  }

  predicate SameOutcome(attempts: map<Id, Attempt>, a: Id, b: Id) {
    && a in attempts && b in attempts
    && attempts[a].outcomeId.Some? && attempts[a].outcomeId == attempts[b].outcomeId
  }

  predicate SameRenewal(leases: map<Id, Lease>, l: Id, m: Id) {
    && l in leases && m in leases
    && leases[l].lastRenewalId.Some? && leases[l].lastRenewalId == leases[m].lastRenewalId
  }

  /** Claim, outcome and live renewal identities are each used by at most one row. */
  ghost predicate Identities(attempts: map<Id, Attempt>, leases: map<Id, Lease>) {
    && (forall l, m :: SameClaim(leases, l, m) ==> l == m)
    && (forall a, b :: SameOutcome(attempts, a, b) ==> a == b)
    && (forall l, m :: SameRenewal(leases, l, m) ==> l == m)
  }

  ghost predicate HasSource(submissions: map<SubmissionKey, Submission>, replays: map<ReplayKey, Id>, j: Id) {
    || (exists k :: k in submissions && submissions[k].job == j)
    || (exists k :: k in replays && replays[k] == j)
  }

  /** Every job sits in a configured queue and was created by an idempotency key or a replay identity. */
  ghost predicate Sources(queues: map<Name, Queue>, jobs: map<Id, Job>,
                          submissions: map<SubmissionKey, Submission>, replays: map<ReplayKey, Id>)
  {
    forall j :: j in jobs ==> jobs[j].spec.queue in queues && HasSource(submissions, replays, j)
  }

  predicate SubmittedAs(jobs: map<Id, Job>, k: SubmissionKey, j: Id) {
    j in jobs && jobs[j].scope == k.scope && jobs[j].replayedFrom.None?
  }

  /** A replacement copies its original, which stays dead-lettered. */
  predicate ReplayedAs(jobs: map<Id, Job>, k: ReplayKey, j: Id) {
    && j in jobs && jobs[j].scope == k.scope && jobs[j].replayedFrom == Some(k.original)
    && k.original in jobs && jobs[k.original].scope == k.scope && jobs[k.original].status.StatusDeadLettered?
    && jobs[k.original].spec == jobs[j].spec
  }

  predicate SameSubmission(submissions: map<SubmissionKey, Submission>, k: SubmissionKey, m: SubmissionKey) {
    k in submissions && m in submissions && submissions[k].job == submissions[m].job
  }

  predicate SameReplacement(replays: map<ReplayKey, Id>, k: ReplayKey, m: ReplayKey) {
    k in replays && m in replays && replays[k] == replays[m]
  }

  /** Idempotency keys and replay identities each created a job of their own. */
  ghost predicate Submissions(jobs: map<Id, Job>, submissions: map<SubmissionKey, Submission>, replays: map<ReplayKey, Id>) {
    && (forall k :: k in submissions ==> SubmittedAs(jobs, k, submissions[k].job))
    && (forall k, m :: SameSubmission(submissions, k, m) ==> k == m)
    && (forall k :: k in replays ==> ReplayedAs(jobs, k, replays[k]))
    && (forall k, m :: SameReplacement(replays, k, m) ==> k == m)
  }

  datatype Law =
    | LeaseDurationLaw
    | JobRowLaw
    | AttemptRowLaw
    | LeaseRowLaw
    | SessionRowLaw
    | EventRowLaw
    | SessionLaw
    | BindingLaw
    | AuthorityLaw
    | NumberLaw
    | BudgetLaw
    | SettledLaw
    | ResultLaw
    | CapacityLaw
    | NotificationLaw
    | DeadLetterLaw
    | IdentityLaw
    | SourceLaw
    | SubmissionLaw

  ghost predicate Holds(law: Law, s: State) {
    match law
    case LeaseDurationLaw => 0 < s.leaseDuration
    case JobRowLaw => JobRows(s.jobs, s.now)
    case AttemptRowLaw => AttemptRows(s.attempts, s.now)
    case LeaseRowLaw => LeaseRows(s.leases, s.now, s.leaseDuration)
    case SessionRowLaw => SessionRows(s.sessions, s.now)
    case EventRowLaw => EventRows(s.events, s.now)
    case SessionLaw => Sessions(s.workers, s.sessions)
    case BindingLaw => Bindings(s.sessions, s.jobs, s.attempts, s.leases)
    case AuthorityLaw => Authority(s.jobs, s.attempts, s.leases)
    case NumberLaw => Numbers(s.attempts)
    case BudgetLaw => Budget(s.jobs, s.attempts)
    case SettledLaw => Settled(s.jobs, s.attempts)
    case ResultLaw => Results(s.jobs, s.attempts, s.results)
    case CapacityLaw => Capacity(s.queues, s.sessions, s.leases)
    case NotificationLaw => Notifications(s.jobs, s.events)
    case DeadLetterLaw => DeadLetters(s.jobs, s.attempts, s.dlq)
    case IdentityLaw => Identities(s.attempts, s.leases)
    case SourceLaw => Sources(s.queues, s.jobs, s.submissions, s.replays)
    case SubmissionLaw => Submissions(s.jobs, s.submissions, s.replays)
  }

  ghost predicate Valid(s: State) {
    forall law :: Holds(law, s)
  }

  /** A freshly migrated database: queues are configured, everything else is empty. */
  predicate Initial(s: State) {
    && 0 < s.leaseDuration
    && s.workers.Keys == {} && s.sessions.Keys == {} && s.jobs.Keys == {} && s.attempts.Keys == {}
    && s.leases.Keys == {} && s.events.Keys == {} && s.dlq.Keys == {} && s.results.Keys == {}
    && s.submissions.Keys == {} && s.replays.Keys == {}
  }

  lemma InitialValid(s: State)
    requires Initial(s)
    ensures Valid(s)
  {
    assert forall q :: ActiveInQueue(s.leases, q) == {};
  }
}
