/**
 What each committed transaction does to the database, as a function from the
 state after its locks are taken to the state after it commits and its reply.
 An error reply rolls back, so it is always paired with the unchanged state.
 A colliding UUID violates a primary key and is one of those errors.
 */
module Transactions {
  import opened Base
  import opened Schema

  datatype Error =
    | ErrValidation
    | ErrUnknownQueue
    | ErrSessionConflict
    | ErrSessionUnavailable
    | ErrClaimConflict
    | ErrFenceRejected
    | ErrLeaseExpired
    | ErrStateConflict
    | ErrRenewalConflict
    | ErrAttemptTimedOut
    | ErrOutcomeConflict
    | ErrCancellationRequested
    | ErrIdempotencyConflict
    | ErrJobNotFound
    | ErrJobNotCancelable
    | ErrNotDeadLettered
    | ErrDatabase

  datatype Reply<+T> = Ok(value: T) | Err(error: Error)

  /** The UUIDs one finalization would draw for a new event or a new DLQ entry. */
  datatype NewIds = NewIds(event: Id, dlq: Id)

  datatype FailureReport = FailureReport(
    fence: Fence, outcomeId: Id, failureClass: FailureClass, errorCode: string, errorMessage: string)

  datatype Decision = Retry(delayMillis: nat) | DeadLetter(reason: DLQReason)

  datatype AttemptOutcome = AttemptOutcome(
    status: AttemptStatus, failureClass: FailureClass, errorCode: string, errorMessage: string,
    outcomeId: Option<Id>, leaseStatus: LeaseStatus)

  datatype OutcomeResult = OutcomeResult(
    job: Id, jobStatus: JobStatus, attemptStatus: AttemptStatus, retryAt: Option<Time>,
    retryDelayMillis: Option<nat>, deadLetterReason: Option<DLQReason>, replayed: bool)

  datatype StartResult = StartResult(
    attempt: Id, startedAt: Time, timeoutAt: Time, remaining: int, replayed: bool)

  datatype RenewalResult = RenewalResult(
    lease: Id, renewalVersion: nat, expiresAt: Time, remaining: int, replayed: bool)

  datatype Assignment = Assignment(
    scope: Name, job: Id, spec: JobSpec, attempt: Id, attemptNumber: nat, lease: Id,
    leaseExpiresAt: Time, leaseRemaining: int, worker: Id, session: Id)

  datatype ClaimResult =
    | Claimed(assignment: Assignment, replayed: bool)
    | QueueEmpty
    | DuplicateNotification
    | NoEligibleJob
    | CapacityExhausted
  {
    predicate SafeToAcknowledge() {
      Claimed? || QueueEmpty? || DuplicateNotification?
    }
  }

  datatype Directive = Directive(job: Id, attempt: Id, lease: Id)

  datatype CancelResult = CancelResult(
    job: Id, status: JobStatus, cancelRequestedAt: Option<Time>, alreadyRequested: bool)

  datatype JobResult = JobResult(job: Id, row: Job, replayed: bool)

  datatype ReconcileStats = ReconcileStats(
    expiredLeases: nat, timedOut: nat, canceled: nat,
    requeued: nat, retryWaiting: nat, deadLettered: nat, skipped: nat)
  {
    function Add(o: ReconcileStats): ReconcileStats {
      ReconcileStats(
        expiredLeases + o.expiredLeases, timedOut + o.timedOut, canceled + o.canceled,
        requeued + o.requeued, retryWaiting + o.retryWaiting, deadLettered + o.deadLettered,
        skipped + o.skipped)
    }
  }

  const NO_STATS := ReconcileStats(0, 0, 0, 0, 0, 0, 0)
  const SKIPPED := NO_STATS.(skipped := 1)

  const CODE_TIMEOUT := "attempt_timeout"
  const CODE_CANCELED := "canceled"
  const CODE_ABANDONED := "attempt_abandoned"
  const MESSAGE_TIMEOUT := "the attempt exceeded its per-attempt execution deadline"
  const MESSAGE_CANCELED := "the job was canceled"
  const MESSAGE_ABANDONED := "the worker lost authority without reporting an outcome"

  // ---------------------------------------------------------------- fencing

  function Nullable(v: string): Option<string> {
    if v == "" then None else Some(v)
  }

  function Deref(v: Option<string>): string {
    if v.Some? then v.value else ""
  }

  function RemainingUntil(t: Time, now: Time): int {
    if t < now then 0 else t - now
  }

  /** The lease row carries exactly the presented fence and scope. */
  predicate LeaseMatches(l: Lease, scope: Name, f: Fence) {
    && l.attempt == f.attempt
    && l.binding.job == f.job
    && l.binding.worker == f.worker
    && l.binding.session == f.session
    && l.binding.scope == scope
  }

  /** Every row the fence names exists, and the lease row carries exactly that fence. */
  predicate Fenced(s: State, scope: Name, f: Fence) {
    && f.lease in s.leases
    && LeaseMatches(s.leases[f.lease], scope, f)
    && f.session in s.sessions
    && f.job in s.jobs
    && f.attempt in s.attempts
  }

  predicate LeaseUsable(l: Lease, now: Time) {
    l.status.LeaseActive? && now < l.expiresAt
  }

  predicate TimedOut(a: Attempt, now: Time) {
    a.timeoutAt.Some? && a.timeoutAt.value <= now
  }

  predicate TimedOutBeforeLapse(a: Attempt, l: Lease, now: Time) {
    a.timeoutAt.Some? && a.timeoutAt.value <= l.expiresAt && TimedOut(a, now)
  }

  // ---------------------------------------------------------- counting rows

  function AttemptsOf(attempts: map<Id, Attempt>, job: Id): set<Id> {
    set a | a in attempts && attempts[a].binding.job == job
  }

  function Used(attempts: map<Id, Attempt>, job: Id): nat {
    |AttemptsOf(attempts, job)|
  }

  function ActiveInQueue(leases: map<Id, Lease>, queue: Name): set<Id> {
    set l | l in leases && leases[l].status.LeaseActive? && leases[l].binding.queue == queue
  }

  function ActiveOfWorker(leases: map<Id, Lease>, worker: Id): set<Id> {
    set l | l in leases && leases[l].status.LeaseActive? && leases[l].binding.worker == worker
  }

  // --------------------------------------------------------- notifications

  function NewEvent(job: Id, queue: Name, generation: nat, now: Time): Event {
    Event(job, generation, queue, EventPending, 0, now, None, None, None, now)
  }

  predicate PendingEvent(events: map<Id, Event>, e: Id, job: Id, generation: nat) {
    e in events && events[e].job == job && events[e].generation == generation
    && events[e].status.EventPending?
  }

  ghost predicate HasPending(events: map<Id, Event>, job: Id, generation: nat) {
    exists e :: PendingEvent(events, e, job, generation)
  }

  // ------------------------------------------------------- worker sessions

  predicate ValidRegistration(reg: Registration) {
    && reg.session != NIL
    && 1 <= reg.concurrencyLimit <= 256
    && |reg.capabilities| <= 64
    && 1 <= |reg.jobTypes| <= 64
  }

  function EndCurrent(sessions: map<Id, Session>, worker: Id, now: Time): map<Id, Session> {
    map i | i in sessions ::
      if sessions[i].worker == worker && sessions[i].status.Current()
      then sessions[i].(status := SessionOffline, endedAt := Some(now))
      else sessions[i]
  }

  ghost function Register(s: State, scope: Name, reg: Registration, newWorker: Id): (State, Reply<Session>) {
    var key := WorkerKey(scope, reg.name);
    if !ValidRegistration(reg) then (s, Err(ErrValidation))
    else if key !in s.workers && newWorker in s.workers.Values then (s, Err(ErrDatabase))
    else
      var worker := if key in s.workers then s.workers[key] else newWorker;
      if reg.session in s.sessions then
        var existing := s.sessions[reg.session];
        if existing.worker != worker || existing.reg != reg then (s, Err(ErrSessionConflict))
        else if !existing.status.SessionHealthy? then (s, Err(ErrSessionUnavailable))
        else (s, Ok(existing))
      else
        var session := Session(worker, scope, reg, SessionHealthy, s.now, s.now, None);
        (s.(workers := s.workers[key := worker],
            sessions := EndCurrent(s.sessions, worker, s.now)[reg.session := session]),
         Ok(session))
  }

  predicate SessionMatches(s: State, scope: Name, worker: Id, session: Id) {
    session in s.sessions && s.sessions[session].worker == worker && s.sessions[session].scope == scope
  }

  /** The attempts of a session whose cancellation has won and that still hold a lease. */
  function Directives(s: State, session: Id): set<Directive> {
    set l | l in s.leases && s.leases[l].status.LeaseActive?
            && s.leases[l].binding.session == session
            && s.leases[l].attempt in s.attempts && s.attempts[s.leases[l].attempt].status.Executing()
            && s.leases[l].binding.job in s.jobs && s.jobs[s.leases[l].binding.job].status.StatusCancelRequested?
         :: Directive(s.leases[l].binding.job, s.leases[l].attempt, l)
  }

  ghost function Heartbeat(s: State, scope: Name, worker: Id, session: Id): (State, Reply<set<Directive>>) {
    if worker == NIL || session == NIL then (s, Err(ErrValidation))
    else if !SessionMatches(s, scope, worker, session) || !s.sessions[session].status.SessionHealthy? then
      (s, Err(ErrSessionUnavailable))
    else
      var row := s.sessions[session];
      var beat := if row.lastHeartbeatAt < s.now then s.now else row.lastHeartbeatAt;
      (s.(sessions := s.sessions[session := row.(lastHeartbeatAt := beat)]), Ok(Directives(s, session)))
  }

  function MarkSessionStale(s: State, session: Id, staleAfter: int): (State, bool) {
    if session !in s.sessions then (s, false)
    else
      var row := s.sessions[session];
      if !row.status.Current() || s.now - staleAfter <= row.lastHeartbeatAt then (s, false)
      else (s.(sessions := s.sessions[session := row.(status := SessionUnhealthy, endedAt := Some(s.now))]), true)
  }

  // ------------------------------------------------------------------ claim

  /** The claim order: priority DESC, available_at ASC, created_at ASC, id ASC. */
  predicate Before(jobs: map<Id, Job>, i: Id, j: Id)
    requires i in jobs && j in jobs
  {
    var a, b := jobs[i], jobs[j];
    || a.spec.priority > b.spec.priority
    || (a.spec.priority == b.spec.priority
        && (|| a.availableAt < b.availableAt
            || (a.availableAt == b.availableAt
                && (a.createdAt < b.createdAt || (a.createdAt == b.createdAt && i < j)))))
  }

  predicate Due(s: State, scope: Name, queue: Name, j: Id) {
    && j in s.jobs && s.jobs[j].scope == scope && s.jobs[j].spec.queue == queue
    && s.jobs[j].status.StatusQueued? && s.jobs[j].availableAt <= s.now
  }

  /** Due and executable by the session; the attempt-budget conjunct never filters a queued job. */
  predicate Eligible(s: State, scope: Name, queue: Name, reg: Registration, j: Id) {
    && Due(s, scope, queue, j)
    && s.jobs[j].spec.capabilities <= reg.capabilities
    && s.jobs[j].spec.jobType in reg.jobTypes
  }

  ghost function Candidates(s: State, scope: Name, queue: Name, reg: Registration, locked: set<Id>): (r: set<Id>)
    ensures r <= s.jobs.Keys
  {
    set j | j in s.jobs && j !in locked && Eligible(s, scope, queue, reg, j)
  }

  ghost predicate IsFirst(jobs: map<Id, Job>, c: set<Id>, j: Id)
    requires c <= jobs.Keys
  {
    j in c && forall i :: i in c && i != j ==> Before(jobs, j, i)
  }

  lemma FirstExists(jobs: map<Id, Job>, c: set<Id>)
    requires c <= jobs.Keys && c != {}
    ensures exists j :: IsFirst(jobs, c, j)
  {
    var x :| x in c;
    if c == {x} {
      assert IsFirst(jobs, c, x);
    } else {
      var rest := c - {x};
      assert c == rest + {x};
      FirstExists(jobs, rest);
      var y :| IsFirst(jobs, rest, y);
      if Before(jobs, x, y) {
        forall i | i in c && i != x ensures Before(jobs, x, i) {
          assert i == y || Before(jobs, y, i);
        }
        assert IsFirst(jobs, c, x);
      } else {
        assert IsFirst(jobs, c, y);
      }
    }
  }

  ghost function First(jobs: map<Id, Job>, c: set<Id>): (j: Id)
    requires c <= jobs.Keys && c != {}
    ensures IsFirst(jobs, c, j)
  {
    FirstExists(jobs, c);
    var j :| IsFirst(jobs, c, j);
    j
  }

  ghost predicate ClaimedBy(leases: map<Id, Lease>, claimId: Id) {
    exists l :: l in leases && leases[l].claimId == claimId
  }

  ghost function LeaseOfClaim(leases: map<Id, Lease>, claimId: Id): (l: Id)
    requires ClaimedBy(leases, claimId)
    ensures l in leases && leases[l].claimId == claimId
  {
    var l :| l in leases && leases[l].claimId == claimId;
    l
  }

  datatype ClaimRequest = ClaimRequest(worker: Id, session: Id, claimId: Id, queue: Name)
  {
    predicate Complete() {
      worker != NIL && session != NIL && claimId != NIL
    }
  }

  function AssignmentOf(s: State, l: Id, remaining: int): Assignment
    requires l in s.leases && s.leases[l].attempt in s.attempts && s.leases[l].binding.job in s.jobs
  {
    var row := s.leases[l];
    Assignment(row.binding.scope, row.binding.job, s.jobs[row.binding.job].spec,
               row.attempt, s.attempts[row.attempt].number, l, row.expiresAt, remaining,
               row.binding.worker, row.binding.session)
  }

  /** Inserts the attempt and its lease and moves the job to LEASED. */
  ghost function Grant(s: State, req: ClaimRequest, j: Id, attempt: Id, lease: Id): State
    requires j in s.jobs
  {
    var job := s.jobs[j];
    var binding := Binding(j, job.scope, job.spec.queue, req.worker, req.session);
    s.(attempts := s.attempts[attempt :=
         Attempt(binding, Used(s.attempts, j) + 1, AttemptLeased, None, None, None, None, None, None, None, None, None)],
       leases := s.leases[lease :=
         Lease(binding, attempt, req.claimId, LeaseActive, s.now, s.now, s.now + s.leaseDuration, None, 0, None)],
       jobs := s.jobs[j := job.(status := StatusLeased, updatedAt := s.now)])
  }

  ghost function Claim(s: State, scope: Name, req: ClaimRequest, locked: set<Id>, attempt: Id, lease: Id)
    : (State, Reply<ClaimResult>)
  {
    if !req.Complete() then (s, Err(ErrValidation))
    else if ClaimedBy(s.leases, req.claimId)
         && (var l := s.leases[LeaseOfClaim(s.leases, req.claimId)].binding; l.scope != scope || l.queue != req.queue) then
      (s, Err(ErrClaimConflict))
    else if req.queue !in s.queues then (s, Err(ErrUnknownQueue))
    else if !SessionMatches(s, scope, req.worker, req.session) || !s.sessions[req.session].status.SessionHealthy? then
      (s, Err(ErrSessionUnavailable))
    else if ClaimedBy(s.leases, req.claimId) then
      var l := LeaseOfClaim(s.leases, req.claimId);
      var row := s.leases[l];
      if row.binding.worker != req.worker || row.binding.session != req.session then (s, Ok(DuplicateNotification))
      else if row.attempt !in s.attempts || row.binding.job !in s.jobs then (s, Err(ErrDatabase))
      else (s, Ok(Claimed(AssignmentOf(s, l, RemainingUntil(row.expiresAt, s.now)), true)))
    else
      var reg := s.sessions[req.session].reg;
      var c := Candidates(s, scope, req.queue, reg, locked);
      if reg.workerGroup != s.queues[req.queue].workerGroup then (s, Ok(NoEligibleJob))
      else if |ActiveInQueue(s.leases, req.queue)| >= s.queues[req.queue].maxConcurrency then (s, Ok(CapacityExhausted))
      else if |ActiveOfWorker(s.leases, req.worker)| >= reg.concurrencyLimit then (s, Ok(CapacityExhausted))
      else if c == {} then
        (s, Ok(if exists j :: Due(s, scope, req.queue, j) then NoEligibleJob else QueueEmpty))
      else if attempt in s.attempts || lease in s.leases then (s, Err(ErrDatabase))
      else
        var granted := Grant(s, req, First(s.jobs, c), attempt, lease);
        (granted, Ok(Claimed(AssignmentOf(granted, lease, s.leaseDuration), false)))
  }

  // ------------------------------------------------------ start and renewal

  function Start(s: State, scope: Name, f: Fence): (State, Reply<StartResult>) {
    if !f.Complete() then (s, Err(ErrValidation))
    else if !Fenced(s, scope, f) || !s.sessions[f.session].status.SessionHealthy? then (s, Err(ErrFenceRejected))
    else
      var job, a, l := s.jobs[f.job], s.attempts[f.attempt], s.leases[f.lease];
      if !LeaseUsable(l, s.now) then (s, Err(ErrLeaseExpired))
      else if job.status.StatusRunning? && a.status.AttemptRunning? then
        if a.startedAt.None? || a.timeoutAt.None? then (s, Err(ErrStateConflict))
        else (s, Ok(StartResult(f.attempt, a.startedAt.value, a.timeoutAt.value,
                                RemainingUntil(a.timeoutAt.value, s.now), true)))
      else if job.status.StatusCancelRequested? || job.status.StatusCanceled? then (s, Err(ErrCancellationRequested))
      else if !job.status.StatusLeased? || !a.status.AttemptLeased? then (s, Err(ErrStateConflict))
      else
        var budget := job.spec.timeoutSeconds * SECOND;
        (s.(attempts := s.attempts[f.attempt :=
              a.(status := AttemptRunning, startedAt := Some(s.now), timeoutAt := Some(s.now + budget))],
            jobs := s.jobs[f.job := job.(status := StatusRunning, updatedAt := s.now)]),
         Ok(StartResult(f.attempt, s.now, s.now + budget, budget, false)))
  }

  ghost predicate RenewalTaken(leases: map<Id, Lease>, lease: Id, renewalId: Id) {
    exists m :: m in leases && m != lease && leases[m].lastRenewalId == Some(renewalId)
  }

  ghost function RenewLease(s: State, scope: Name, f: Fence, renewalId: Id, expected: int)
    : (State, Reply<RenewalResult>)
  {
    if !f.Complete() || renewalId == NIL || expected < 0 then (s, Err(ErrValidation))
    else if !Fenced(s, scope, f) || !s.sessions[f.session].status.SessionHealthy? then (s, Err(ErrFenceRejected))
    else
      var job, a, l := s.jobs[f.job], s.attempts[f.attempt], s.leases[f.lease];
      if !LeaseUsable(l, s.now) then (s, Err(ErrLeaseExpired))
      else if TimedOut(a, s.now) then (s, Err(ErrAttemptTimedOut))
      else if !job.status.Executing() || !a.status.Executing() then (s, Err(ErrStateConflict))
      else if l.lastRenewalId == Some(renewalId) then
        if l.renewalVersion != expected + 1 then (s, Err(ErrRenewalConflict))
        else (s, Ok(RenewalResult(f.lease, l.renewalVersion, l.expiresAt, RemainingUntil(l.expiresAt, s.now), true)))
      else if RenewalTaken(s.leases, f.lease, renewalId) || l.renewalVersion != expected then
        (s, Err(ErrRenewalConflict))
      else
        var renewed := l.(renewedAt := s.now, expiresAt := s.now + s.leaseDuration,
                          renewalVersion := l.renewalVersion + 1, lastRenewalId := Some(renewalId));
        (s.(leases := s.leases[f.lease := renewed]),
         Ok(RenewalResult(f.lease, renewed.renewalVersion, renewed.expiresAt,
                          RemainingUntil(renewed.expiresAt, s.now), false)))
  }

  // ---------------------------------------------------------- finalization

  /** The retry decision for one terminal outcome; a canceled attempt has none. */
  function Decide(failure: FailureClass, attemptsUsed: nat, maxAttempts: nat, delayMillis: nat): Option<Decision> {
    match failure
    case ClassPermanent => Some(DeadLetter(ReasonPermanentFailure))
    case ClassRetryable =>
      Some(if attemptsUsed < maxAttempts then Retry(delayMillis) else DeadLetter(ReasonAttemptsExhausted))
    case ClassTimedOut =>
      Some(if attemptsUsed < maxAttempts then Retry(delayMillis) else DeadLetter(ReasonAttemptsExhausted))
    case ClassAbandoned =>
      Some(if attemptsUsed < maxAttempts then Retry(0) else DeadLetter(ReasonAttemptsExhausted))
    case ClassCanceled => None
  }

  function Finished(a: Attempt, o: AttemptOutcome, d: Decision, now: Time): Attempt {
    a.(status := o.status, finishedAt := Some(now), failureClass := Some(o.failureClass),
       errorCode := Nullable(o.errorCode), errorMessage := Nullable(o.errorMessage),
       outcomeId := if o.outcomeId.Some? then o.outcomeId else a.outcomeId,
       retryDelayMillis := if d.Retry? then Some(d.delayMillis) else None,
       retryAt := if d.Retry? then Some(now + d.delayMillis * MILLISECOND) else None)
  }

  function Closed(l: Lease, status: LeaseStatus, now: Time): Lease {
    l.(status := status, releasedAt := Some(now))
  }

  /** Requeues a job on a fresh notification generation. */
  function Requeued(job: Job, now: Time): Job {
    job.(status := StatusQueued, availableAt := now, updatedAt := now,
         generation := job.generation + 1, lastNotificationAt := Some(now))
  }

  /** Where the decision sends the job: dead-lettered, waiting out a backoff, or claimable at once. */
  function FinalJob(job: Job, d: Decision, now: Time): Job {
    match d
    case DeadLetter(_) => job.(status := StatusDeadLettered, updatedAt := now)
    case Retry(delay) =>
      if delay > 0 then job.(status := StatusRetryWait, availableAt := now + delay * MILLISECOND, updatedAt := now)
      else Requeued(job, now)
  }

  function FinalResult(f: Fence, o: AttemptOutcome, d: Decision, now: Time): OutcomeResult {
    match d
    case DeadLetter(reason) => OutcomeResult(f.job, StatusDeadLettered, o.status, None, None, Some(reason), false)
    case Retry(delay) =>
      OutcomeResult(f.job, if delay > 0 then StatusRetryWait else StatusQueued, o.status,
                    Some(now + delay * MILLISECOND), Some(delay), None, false)
  }

  /** Writes the rows a fence names together with the given events, dead letters and results. */
  function Commit(s: State, f: Fence, job: Job, attempt: Attempt, lease: Lease,
                  events: map<Id, Event>, dlq: map<Id, DlqEntry>, results: map<Id, Result>): State
  {
    s.(jobs := s.jobs[f.job := job], attempts := s.attempts[f.attempt := attempt], leases := s.leases[f.lease := lease],
       events := events, dlq := dlq, results := results)
  }

  function FinalizeAttempt(s: State, f: Fence, o: AttemptOutcome, d: Decision, ids: NewIds)
    : (State, Reply<OutcomeResult>)
    requires f.job in s.jobs && f.attempt in s.attempts && f.lease in s.leases
  {
    var job := FinalJob(s.jobs[f.job], d, s.now);
    if d.DeadLetter? && ids.dlq in s.dlq then (s, Err(ErrDatabase))
    else if d == Retry(0) && ids.event in s.events then (s, Err(ErrDatabase))
    else
      (Commit(s, f, job, Finished(s.attempts[f.attempt], o, d, s.now), Closed(s.leases[f.lease], o.leaseStatus, s.now),
              if d == Retry(0) then s.events[ids.event := NewEvent(f.job, job.spec.queue, job.generation, s.now)] else s.events,
              if d.DeadLetter?
              then s.dlq[ids.dlq := DlqEntry(job.scope, job.spec.queue, f.job, f.attempt, d.reason, s.now)] else s.dlq,
              s.results),
       Ok(FinalResult(f, o, d, s.now)))
  }

  function CanceledAttempt(a: Attempt, outcomeId: Option<Id>, now: Time): Attempt {
    a.(status := AttemptCanceled, finishedAt := Some(now), failureClass := Some(ClassCanceled),
       errorCode := Some(CODE_CANCELED), errorMessage := Some(MESSAGE_CANCELED),
       outcomeId := if outcomeId.Some? then outcomeId else a.outcomeId)
  }

  function FinalizeCancellation(s: State, f: Fence, outcomeId: Option<Id>, leaseStatus: LeaseStatus)
    : (State, OutcomeResult)
    requires f.job in s.jobs && f.attempt in s.attempts && f.lease in s.leases
  {
    (Commit(s, f, s.jobs[f.job].(status := StatusCanceled, updatedAt := s.now),
            CanceledAttempt(s.attempts[f.attempt], outcomeId, s.now),
            Closed(s.leases[f.lease], leaseStatus, s.now), s.events, s.dlq, s.results),
     OutcomeResult(f.job, StatusCanceled, AttemptCanceled, None, None, None, false))
  }

  function Succeed(s: State, scope: Name, f: Fence, body: Option<Document>): (State, Reply<()>) {
    if !f.Complete() then (s, Err(ErrValidation))
    else if !Fenced(s, scope, f) then (s, Err(ErrFenceRejected))
    else
      var job, a, l := s.jobs[f.job], s.attempts[f.attempt], s.leases[f.lease];
      if job.status.StatusSucceeded? && a.status.AttemptSucceeded? && l.status.LeaseCompleted? then (s, Ok(()))
      else if !s.sessions[f.session].status.SessionHealthy? then (s, Err(ErrFenceRejected))
      else if TimedOut(a, s.now) then (s, Err(ErrAttemptTimedOut))
      else if !LeaseUsable(l, s.now) then (s, Err(ErrLeaseExpired))
      else if !job.status.StatusRunning? || !a.status.AttemptRunning? then (s, Err(ErrStateConflict))
      else
        (Commit(s, f, job.(status := StatusSucceeded, updatedAt := s.now),
                a.(status := AttemptSucceeded, finishedAt := Some(s.now)), Closed(l, LeaseCompleted, s.now), s.events, s.dlq,
                if body.Some? then s.results[f.job := Result(f.attempt, scope, body.value)] else s.results),
         Ok(()))
  }

  /** The job status an attempt's stored outcome produced, read off the attempt alone. */
  function DecidedJobStatus(a: Attempt): JobStatus {
    if a.status.AttemptCanceled? then StatusCanceled
    else if a.retryDelayMillis.None? then StatusDeadLettered
    else if a.retryDelayMillis.value == 0 then StatusQueued
    else StatusRetryWait
  }

  function ReplayedOutcome(a: Attempt, r: FailureReport): Reply<OutcomeResult> {
    if a.failureClass != Some(r.failureClass) then Err(ErrOutcomeConflict)
    else if Deref(a.errorCode) != r.errorCode || Deref(a.errorMessage) != r.errorMessage then Err(ErrOutcomeConflict)
    else
      var status := DecidedJobStatus(a);
      Ok(OutcomeResult(r.fence.job, status, a.status, a.retryAt, a.retryDelayMillis,
                       if !status.StatusDeadLettered? then None
                       else if a.failureClass == Some(ClassPermanent) then Some(ReasonPermanentFailure)
                       else Some(ReasonAttemptsExhausted),
                       true))
  }

  ghost predicate OutcomeTaken(attempts: map<Id, Attempt>, attempt: Id, outcomeId: Id) {
    exists b :: b in attempts && b != attempt && attempts[b].outcomeId == Some(outcomeId)
  }

  function ReportedOutcome(r: FailureReport): AttemptOutcome {
    AttemptOutcome(AttemptFailed, r.failureClass, r.errorCode, r.errorMessage, Some(r.outcomeId), LeaseReleased)
  }

  ghost function Fail(s: State, scope: Name, r: FailureReport, delayMillis: nat, ids: NewIds)
    : (State, Reply<OutcomeResult>)
  {
    var f := r.fence;
    if !f.Complete() || r.outcomeId == NIL || !r.failureClass.ReportableByHandler() then (s, Err(ErrValidation))
    else if !Fenced(s, scope, f) then (s, Err(ErrFenceRejected))
    else
      var job, a, l := s.jobs[f.job], s.attempts[f.attempt], s.leases[f.lease];
      if a.outcomeId == Some(r.outcomeId) then (s, ReplayedOutcome(a, r))
      else if OutcomeTaken(s.attempts, f.attempt, r.outcomeId) then (s, Err(ErrOutcomeConflict))
      else if !s.sessions[f.session].status.SessionHealthy? then (s, Err(ErrFenceRejected))
      else if TimedOut(a, s.now) then (s, Err(ErrAttemptTimedOut))
      else if !LeaseUsable(l, s.now) then (s, Err(ErrLeaseExpired))
      else if !job.status.StatusRunning? || !a.status.AttemptRunning? then (s, Err(ErrStateConflict))
      else
        var d := Decide(r.failureClass, a.number, job.spec.maxAttempts, delayMillis);
        if d.None? then (s, Err(ErrStateConflict))
        else FinalizeAttempt(s, f, ReportedOutcome(r), d.value, ids)
  }

  ghost function AcknowledgeCancellation(s: State, scope: Name, f: Fence, outcomeId: Id)
    : (State, Reply<OutcomeResult>)
  {
    if !f.Complete() || outcomeId == NIL then (s, Err(ErrValidation))
    else if !Fenced(s, scope, f) then (s, Err(ErrFenceRejected))
    else
      var job, a, l := s.jobs[f.job], s.attempts[f.attempt], s.leases[f.lease];
      if a.outcomeId == Some(outcomeId) then
        if !a.status.AttemptCanceled? then (s, Err(ErrOutcomeConflict))
        else (s, Ok(OutcomeResult(f.job, DecidedJobStatus(a), a.status, None, None, None, true)))
      else if OutcomeTaken(s.attempts, f.attempt, outcomeId) then (s, Err(ErrOutcomeConflict))
      else if !s.sessions[f.session].status.SessionHealthy? then (s, Err(ErrFenceRejected))
      else if !LeaseUsable(l, s.now) then (s, Err(ErrLeaseExpired))
      else if !job.status.StatusCancelRequested? || !a.status.Executing() then (s, Err(ErrStateConflict))
      else
        var done := FinalizeCancellation(s, f, Some(outcomeId), LeaseReleased);
        (done.0, Ok(done.1))
  }

  // --------------------------------------------------------- reconciliation

  function FenceOf(leases: map<Id, Lease>, l: Id): Fence
    requires l in leases
  {
    var row := leases[l];
    Fence(row.binding.job, row.attempt, l, row.binding.worker, row.binding.session)
  }

  function TimeoutOutcome(l: Lease, now: Time): AttemptOutcome {
    AttemptOutcome(AttemptTimedOut, ClassTimedOut, CODE_TIMEOUT, MESSAGE_TIMEOUT, None,
                   if l.status.LeaseActive? && l.expiresAt <= now then LeaseExpired else LeaseReleased)
  }

  const ABANDONED := AttemptOutcome(
    AttemptAbandoned, ClassAbandoned, CODE_ABANDONED, MESSAGE_ABANDONED, None, LeaseExpired)

  /** TIMED_OUT under the retry policy; a zero delay still counts as retry-waiting. */
  function FinalizeTimeout(s: State, f: Fence, delayMillis: nat, ids: NewIds): (State, Reply<ReconcileStats>)
    requires f.job in s.jobs && f.attempt in s.attempts && f.lease in s.leases
  {
    var d := Decide(ClassTimedOut, s.attempts[f.attempt].number, s.jobs[f.job].spec.maxAttempts, delayMillis);
    var done := FinalizeAttempt(s, f, TimeoutOutcome(s.leases[f.lease], s.now), d.value, ids);
    (done.0,
     if done.1.Err? then Err(done.1.error)
     else if done.1.value.jobStatus.StatusDeadLettered? then Ok(NO_STATS.(timedOut := 1, deadLettered := 1))
     else Ok(NO_STATS.(timedOut := 1, retryWaiting := 1)))
  }

  ghost predicate HasLease(leases: map<Id, Lease>, attempt: Id) {
    exists l :: l in leases && leases[l].attempt == attempt
  }

  ghost function LeaseOf(leases: map<Id, Lease>, attempt: Id): (l: Id)
    requires HasLease(leases, attempt)
    ensures l in leases && leases[l].attempt == attempt
  {
    var l :| l in leases && leases[l].attempt == attempt;
    l
  }

  ghost function ReconcileDueTimeout(s: State, attempt: Id, delayMillis: nat, ids: NewIds)
    : (State, Reply<ReconcileStats>)
  {
    if !HasLease(s.leases, attempt) then (s, Ok(SKIPPED))
    else
      var l := LeaseOf(s.leases, attempt);
      var f := FenceOf(s.leases, l);
      if !Fenced(s, s.leases[l].binding.scope, f) then (s, Ok(SKIPPED))
      else if !LeaseUsable(s.leases[l], s.now) || !TimedOut(s.attempts[f.attempt], s.now)
           || !s.jobs[f.job].status.StatusRunning? || !s.attempts[f.attempt].status.AttemptRunning? then
        (s, Ok(SKIPPED))
      else FinalizeTimeout(s, f, delayMillis, ids)
  }

  function ReconcileExpiredLease(s: State, l: Id, delayMillis: nat, ids: NewIds): (State, Reply<ReconcileStats>) {
    if l !in s.leases then (s, Ok(SKIPPED))
    else
      var f := FenceOf(s.leases, l);
      if !Fenced(s, s.leases[l].binding.scope, f) then (s, Ok(SKIPPED))
      else
        var job, a, row := s.jobs[f.job], s.attempts[f.attempt], s.leases[l];
        if !row.status.LeaseActive? || s.now < row.expiresAt || !a.status.Executing() then (s, Ok(SKIPPED))
        else if job.status.StatusCancelRequested? then
          (FinalizeCancellation(s, f, None, LeaseExpired).0, Ok(NO_STATS.(expiredLeases := 1, canceled := 1)))
        else if !job.status.Executing() then (s, Ok(SKIPPED))
        else if TimedOutBeforeLapse(a, row, s.now) then
          var done := FinalizeTimeout(s, f, delayMillis, ids);
          (done.0, if done.1.Err? then done.1 else Ok(done.1.value.Add(NO_STATS.(expiredLeases := 1))))
        else
          var d := Decide(ClassAbandoned, a.number, job.spec.maxAttempts, delayMillis);
          var done := FinalizeAttempt(s, f, ABANDONED, d.value, ids);
          (done.0,
           if done.1.Err? then Err(done.1.error)
           else if done.1.value.jobStatus.StatusQueued? then Ok(NO_STATS.(expiredLeases := 1, requeued := 1))
           else Ok(NO_STATS.(expiredLeases := 1, deadLettered := 1)))
  }

  // ---------------------------------------------------------------- clients

  /** Cancellation of an executing job waits for its worker; any other job is canceled at once. */
  function CancelRequested(job: Job, now: Time): Job {
    job.(status := if job.status.Executing() then StatusCancelRequested else StatusCanceled,
         cancelRequestedAt := Some(now), updatedAt := now)
  }

  function RequestCancel(s: State, scope: Name, j: Id): (State, Reply<CancelResult>) {
    if j !in s.jobs || s.jobs[j].scope != scope then (s, Err(ErrJobNotFound))
    else
      var job := s.jobs[j];
      if job.status.StatusCancelRequested? || job.status.StatusCanceled? then
        (s, Ok(CancelResult(j, job.status, job.cancelRequestedAt, true)))
      else if job.status.Terminal() then (s, Err(ErrJobNotCancelable))
      else
        (s.(jobs := s.jobs[j := CancelRequested(job, s.now)]),
         Ok(CancelResult(j, CancelRequested(job, s.now).status, Some(s.now), false)))
  }

  datatype SubmitRequest = SubmitRequest(spec: JobSpec, scheduledAt: Option<Time>, fingerprint: Name)
  {
    predicate Valid() {
      1 <= spec.maxAttempts <= 100 && 1 <= spec.timeoutSeconds <= 86400 && 0 <= spec.priority <= 100
    }
  }

  function SubmittedJob(scope: Name, req: SubmitRequest, now: Time): Job {
    if req.scheduledAt.Some? && now < req.scheduledAt.value then
      Job(scope, req.spec, StatusPending, req.scheduledAt, req.scheduledAt.value, None, None, 0, None, now, now)
    else
      Job(scope, req.spec, StatusQueued, req.scheduledAt, now, None, None, 1, Some(now), now, now)
  }

  /** Adds a job and, when it is claimable at once, the event that advertises it. */
  function InsertJob(s: State, j: Id, job: Job, event: Id): State {
    s.(jobs := s.jobs[j := job],
       events := if job.status.StatusQueued? then s.events[event := NewEvent(j, job.spec.queue, 1, s.now)] else s.events)
  }

  function Submit(s: State, scope: Name, key: Name, req: SubmitRequest, j: Id, event: Id)
    : (State, Reply<JobResult>)
  {
    var job := SubmittedJob(scope, req, s.now);
    var k := SubmissionKey(scope, key);
    if !req.Valid() then (s, Err(ErrValidation))
    else if req.spec.queue !in s.queues then (s, Err(ErrUnknownQueue))
    else if j in s.jobs then (s, Err(ErrDatabase))
    else if k in s.submissions then
      var known := s.submissions[k];
      if known.fingerprint != req.fingerprint then (s, Err(ErrIdempotencyConflict))
      else if known.job !in s.jobs || s.jobs[known.job].scope != scope then (s, Err(ErrJobNotFound))
      else (s, Ok(JobResult(known.job, s.jobs[known.job], true)))
    else if job.status.StatusQueued? && event in s.events then (s, Err(ErrDatabase))
    else
      (InsertJob(s, j, job, event).(submissions := s.submissions[k := Submission(req.fingerprint, j)]),
       Ok(JobResult(j, job, false)))
  }

  ghost predicate HasEntry(dlq: map<Id, DlqEntry>, job: Id) {
    exists d :: d in dlq && dlq[d].job == job
  }

  function Replacement(scope: Name, original: Id, spec: JobSpec, now: Time): Job {
    Job(scope, spec, StatusQueued, None, now, None, Some(original), 1, Some(now), now, now)
  }

  ghost function Replay(s: State, scope: Name, original: Id, key: Name, j: Id, event: Id)
    : (State, Reply<JobResult>)
  {
    if original !in s.jobs || s.jobs[original].scope != scope then (s, Err(ErrJobNotFound))
    else if !s.jobs[original].status.StatusDeadLettered? || !HasEntry(s.dlq, original) then (s, Err(ErrNotDeadLettered))
    else if j in s.jobs then (s, Err(ErrDatabase))
    else
      var k := ReplayKey(scope, original, key);
      var job := Replacement(scope, original, s.jobs[original].spec, s.now);
      if k in s.replays then
        if s.replays[k] !in s.jobs || s.jobs[s.replays[k]].scope != scope then (s, Err(ErrJobNotFound))
        else (s, Ok(JobResult(s.replays[k], s.jobs[s.replays[k]], true)))
      else if event in s.events then (s, Err(ErrDatabase))
      else
        (InsertJob(s, j, job, event).(replays := s.replays[k := j]), Ok(JobResult(j, job, false)))
  }

  // -------------------------------------------------------------- scheduler

  function PromoteDueJob(s: State, j: Id, event: Id): (State, Reply<bool>) {
    if j !in s.jobs then (s, Ok(false))
    else
      var job := s.jobs[j];
      if !(job.status.StatusPending? || job.status.StatusRetryWait?) || s.now < job.availableAt then (s, Ok(false))
      else if event in s.events then (s, Err(ErrDatabase))
      else
        var promoted := job.(status := StatusQueued, updatedAt := s.now,
                             generation := job.generation + 1, lastNotificationAt := Some(s.now));
        (s.(jobs := s.jobs[j := promoted],
            events := s.events[event := NewEvent(j, job.spec.queue, promoted.generation, s.now)]),
         Ok(true))
  }

  ghost function RenotifyStrandedJob(s: State, j: Id, after: int, event: Id): (State, Reply<bool>) {
    if j !in s.jobs then (s, Ok(false))
    else
      var job := s.jobs[j];
      if !job.status.StatusQueued? || job.generation < 1 || job.lastNotificationAt.None? then (s, Ok(false))
      else if s.now - after <= job.lastNotificationAt.value then (s, Ok(false))
      else if HasPending(s.events, j, job.generation) then (s, Ok(false))
      else if event in s.events then (s, Err(ErrDatabase))
      else
        (s.(jobs := s.jobs[j := job.(lastNotificationAt := Some(s.now))],
            events := s.events[event := NewEvent(j, job.spec.queue, job.generation, s.now)]),
         Ok(true))
  }

  // ----------------------------------------------------------------- outbox

  predicate EventDue(s: State, e: Id) {
    e in s.events && s.events[e].status.EventPending? && s.events[e].availableAt <= s.now
  }

  /** Claims the picked events that are pending and due; the others are left alone. */
  function ClaimDue(s: State, picked: set<Id>, claimTimeout: nat): (State, set<Id>) {
    var taken := set e | e in picked && EventDue(s, e);
    (s.(events := map e | e in s.events ::
          if e in taken
          then s.events[e].(attempts := s.events[e].attempts + 1, claimedAt := Some(s.now),
                            availableAt := s.now + claimTimeout)
          else s.events[e]),
     taken)
  }

  function MarkPublished(s: State, e: Id): (State, bool) {
    if e !in s.events || !s.events[e].status.EventPending? then (s, false)
    else
      (s.(events := s.events[e :=
            s.events[e].(status := EventPublished, publishedAt := Some(s.now), lastError := None)]),
       true)
  }

  function RecordFailure(s: State, e: Id, cause: string, retryAfter: nat): State {
    if e !in s.events || !s.events[e].status.EventPending? then s
    else
      s.(events := s.events[e :=
           s.events[e].(lastError := Some(if |cause| > 1000 then cause[..1000] else cause),
                        availableAt := s.now + retryAfter)])
  }
}
