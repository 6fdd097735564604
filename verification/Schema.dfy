/**
 The tables of TaskForge's database as finite maps from primary keys to rows.
 Times are microseconds on the database clock, ids stand for UUIDs.
 */
module Schema {
  import opened Base

  type Id = nat
  type Time = int

  /** Scopes, queue and worker names, job types, keys and fingerprints are only compared for equality. */
  type Name = nat

  /** Payloads and results are only copied. */
  type Document = nat

  const NIL: Id := 0
  const MILLISECOND: int := 1000
  const SECOND: int := 1000 * MILLISECOND

  datatype JobStatus =
    | StatusPending
    | StatusQueued
    | StatusLeased
    | StatusRunning
    | StatusRetryWait
    | StatusCancelRequested
    | StatusSucceeded
    | StatusCanceled
    | StatusDeadLettered
  {
    predicate Terminal() {
      StatusSucceeded? || StatusCanceled? || StatusDeadLettered?
    }

    predicate Executing() {
      StatusLeased? || StatusRunning?
    }

    /** Some attempt still holds a lease on the job. */
    predicate Held() {
      Executing() || StatusCancelRequested?
    }

    /** The scheduler will queue the job once it is due. */
    predicate Scheduled() {
      StatusPending? || StatusRetryWait?
    }

    /** The job may still be given another attempt. */
    predicate Waiting() {
      Scheduled() || StatusQueued?
    }
  }

  datatype AttemptStatus =
    | AttemptLeased
    | AttemptRunning
    | AttemptSucceeded
    | AttemptFailed
    | AttemptTimedOut
    | AttemptCanceled
    | AttemptAbandoned
  {
    predicate Executing() {
      AttemptLeased? || AttemptRunning?
    }
  }

  datatype LeaseStatus = LeaseActive | LeaseCompleted | LeaseExpired | LeaseReleased

  datatype SessionStatus =
    | SessionStarting
    | SessionHealthy
    | SessionDraining
    | SessionUnhealthy
    | SessionOffline
  {
    predicate Current() {
      SessionStarting? || SessionHealthy? || SessionDraining?
    }
  }

  datatype EventStatus = EventPending | EventPublished

  datatype FailureClass = ClassRetryable | ClassPermanent | ClassTimedOut | ClassCanceled | ClassAbandoned
  {
    predicate ReportableByHandler() {
      ClassRetryable? || ClassPermanent?
    }
  }

  datatype DLQReason = ReasonPermanentFailure | ReasonAttemptsExhausted

  datatype Queue = Queue(workerGroup: Name, maxConcurrency: nat)

  datatype WorkerKey = WorkerKey(scope: Name, name: Name)

  /** What a process boot declares; capabilities and job types are canonical sets. */
  datatype Registration = Registration(
    session: Id, name: Name, hostname: Name, workerGroup: Name,
    concurrencyLimit: nat, capabilities: set<Name>, jobTypes: set<Name>)

  datatype Session = Session(
    worker: Id, scope: Name, reg: Registration, status: SessionStatus,
    registeredAt: Time, lastHeartbeatAt: Time, endedAt: Option<Time>)

  /** The immutable definition of a job. */
  datatype JobSpec = JobSpec(
    queue: Name, jobType: Name, payload: Document, priority: int,
    maxAttempts: nat, timeoutSeconds: nat, capabilities: set<Name>)

  datatype Job = Job(
    scope: Name, spec: JobSpec, status: JobStatus,
    scheduledAt: Option<Time>, availableAt: Time, cancelRequestedAt: Option<Time>,
    replayedFrom: Option<Id>, generation: nat, lastNotificationAt: Option<Time>,
    createdAt: Time, updatedAt: Time)

  /** The columns shared by an attempt and its lease, fixed when the claim commits. */
  datatype Binding = Binding(job: Id, scope: Name, queue: Name, worker: Id, session: Id)

  datatype Attempt = Attempt(
    binding: Binding, number: nat, status: AttemptStatus,
    startedAt: Option<Time>, timeoutAt: Option<Time>, finishedAt: Option<Time>,
    outcomeId: Option<Id>, failureClass: Option<FailureClass>,
    errorCode: Option<string>, errorMessage: Option<string>,
    retryDelayMillis: Option<nat>, retryAt: Option<Time>)

  datatype Lease = Lease(
    binding: Binding, attempt: Id, claimId: Id, status: LeaseStatus,
    acquiredAt: Time, renewedAt: Time, expiresAt: Time, releasedAt: Option<Time>,
    renewalVersion: nat, lastRenewalId: Option<Id>)

  datatype Event = Event(
    job: Id, generation: nat, queue: Name, status: EventStatus, attempts: nat,
    availableAt: Time, claimedAt: Option<Time>, publishedAt: Option<Time>,
    lastError: Option<string>, createdAt: Time)

  datatype DlqEntry = DlqEntry(
    scope: Name, queue: Name, job: Id, attempt: Id, reason: DLQReason, createdAt: Time)

  datatype Result = Result(attempt: Id, scope: Name, body: Document)

  datatype SubmissionKey = SubmissionKey(scope: Name, key: Name)

  datatype Submission = Submission(fingerprint: Name, job: Id)

  datatype ReplayKey = ReplayKey(scope: Name, original: Id, key: Name)

  /** One committed database state. The lease duration is shared by every replica. */
  datatype State = State(
    now: Time,
    leaseDuration: int,
    queues: map<Name, Queue>,
    workers: map<WorkerKey, Id>,
    sessions: map<Id, Session>,
    jobs: map<Id, Job>,
    attempts: map<Id, Attempt>,
    leases: map<Id, Lease>,
    events: map<Id, Event>,
    dlq: map<Id, DlqEntry>,
    results: map<Id, Result>,
    submissions: map<SubmissionKey, Submission>,
    replays: map<ReplayKey, Id>)

  /** The complete fencing tuple a worker presents. */
  datatype Fence = Fence(job: Id, attempt: Id, lease: Id, worker: Id, session: Id)
  {
    predicate Complete() {
      job != NIL && attempt != NIL && lease != NIL && worker != NIL && session != NIL
    }
  }
}
