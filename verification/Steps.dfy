/**
 Runs: any number of replicas, workers and clients interleave committed transactions
 with the passing of server time. A step carries whatever its caller chose freely:
 the presented fence, drawn UUIDs, the sampled retry delay, rows skipped as locked.
 */
module Steps {
  import opened Base
  import opened Schema
  import opened Transactions
  import opened Invariants
  import opened Endings
  import opened Movements

  datatype Step =
    | RegisterStep(scope: Name, reg: Registration, newWorker: Id)
    | HeartbeatStep(scope: Name, worker: Id, session: Id)
    | MarkStaleStep(session: Id, staleAfter: int)
    | ClaimStep(scope: Name, req: ClaimRequest, locked: set<Id>, newAttempt: Id, newLease: Id)
    | StartStep(scope: Name, fence: Fence)
    | RenewStep(scope: Name, fence: Fence, renewalId: Id, expected: int)
    | SucceedStep(scope: Name, fence: Fence, body: Option<Document>)
    | FailStep(scope: Name, report: FailureReport, delayMillis: nat, ids: NewIds)
    | AcknowledgeStep(scope: Name, fence: Fence, outcomeId: Id)
    | DueTimeoutStep(attempt: Id, delayMillis: nat, ids: NewIds)
    | ExpiredLeaseStep(lease: Id, delayMillis: nat, ids: NewIds)
    | CancelStep(scope: Name, job: Id)
    | SubmitStep(scope: Name, key: Name, submission: SubmitRequest, newJob: Id, newEvent: Id)
    | ReplayStep(scope: Name, original: Id, key: Name, newJob: Id, newEvent: Id)
    | PromoteStep(job: Id, newEvent: Id)
    | RenotifyStep(job: Id, after: int, newEvent: Id)
    | ClaimEventsStep(picked: set<Id>, claimTimeout: nat)
    | MarkPublishedStep(event: Id)
    | RecordFailureStep(event: Id, cause: string, retryAfter: nat)
    | TickStep(elapsed: nat)

  ghost function Apply(s: State, step: Step): State {
    match step
    case RegisterStep(scope, reg, newWorker) => Register(s, scope, reg, newWorker).0
    case HeartbeatStep(scope, worker, session) => Heartbeat(s, scope, worker, session).0
    case MarkStaleStep(session, staleAfter) => MarkSessionStale(s, session, staleAfter).0
    case ClaimStep(scope, req, locked, newAttempt, newLease) => Claim(s, scope, req, locked, newAttempt, newLease).0
    case StartStep(scope, fence) => Start(s, scope, fence).0
    case RenewStep(scope, fence, renewalId, expected) => RenewLease(s, scope, fence, renewalId, expected).0
    case SucceedStep(scope, fence, body) => Succeed(s, scope, fence, body).0
    case FailStep(scope, report, delayMillis, ids) => Fail(s, scope, report, delayMillis, ids).0
    case AcknowledgeStep(scope, fence, outcomeId) => AcknowledgeCancellation(s, scope, fence, outcomeId).0
    case DueTimeoutStep(attempt, delayMillis, ids) => ReconcileDueTimeout(s, attempt, delayMillis, ids).0
    case ExpiredLeaseStep(lease, delayMillis, ids) => ReconcileExpiredLease(s, lease, delayMillis, ids).0
    case CancelStep(scope, job) => RequestCancel(s, scope, job).0
    case SubmitStep(scope, key, submission, newJob, newEvent) => Submit(s, scope, key, submission, newJob, newEvent).0
    case ReplayStep(scope, original, key, newJob, newEvent) => Replay(s, scope, original, key, newJob, newEvent).0
    case PromoteStep(job, newEvent) => PromoteDueJob(s, job, newEvent).0
    case RenotifyStep(job, after, newEvent) => RenotifyStrandedJob(s, job, after, newEvent).0
    case ClaimEventsStep(picked, claimTimeout) => ClaimDue(s, picked, claimTimeout).0
    case MarkPublishedStep(event) => MarkPublished(s, event).0
    case RecordFailureStep(event, cause, retryAfter) => RecordFailure(s, event, cause, retryAfter)
    case TickStep(elapsed) => s.(now := s.now + elapsed)
  }

  ghost function Run(s: State, steps: seq<Step>): State
    decreases |steps|
  {
    if steps == [] then s else Run(Apply(s, steps[0]), steps[1..])
  }

  lemma {:induction false} RunAppend(s: State, before: seq<Step>, after: seq<Step>)
    ensures Run(s, before + after) == Run(Run(s, before), after)
    decreases |before|
  {
    if before == [] {
      assert before + after == after;
    } else {
      assert (before + after)[1..] == before[1..] + after;
      RunAppend(Apply(s, before[0]), before[1..], after);
    }
  }

  predicate WorkerSide(step: Step) {
    || step.RegisterStep? || step.HeartbeatStep? || step.MarkStaleStep? || step.ClaimStep? || step.StartStep?
    || step.RenewStep? || step.SucceedStep? || step.FailStep? || step.AcknowledgeStep?
    || step.DueTimeoutStep? || step.ExpiredLeaseStep?
  }

  lemma WorkerStepValid(s: State, step: Step)
    requires Valid(s) && WorkerSide(step)
    ensures Valid(Apply(s, step))
  {
    match step
    case RegisterStep(scope, reg, newWorker) => RegisterValid(s, scope, reg, newWorker);
    case HeartbeatStep(scope, worker, session) => HeartbeatValid(s, scope, worker, session);
    case MarkStaleStep(session, staleAfter) => MarkSessionStaleValid(s, session, staleAfter);
    case ClaimStep(scope, req, locked, newAttempt, newLease) => ClaimValid(s, scope, req, locked, newAttempt, newLease);
    case StartStep(scope, fence) => StartValid(s, scope, fence);
    case RenewStep(scope, fence, renewalId, expected) => RenewLeaseValid(s, scope, fence, renewalId, expected);
    case SucceedStep(scope, fence, body) => SucceedValid(s, scope, fence, body);
    case FailStep(scope, report, delayMillis, ids) => FailValid(s, scope, report, delayMillis, ids);
    case AcknowledgeStep(scope, fence, outcomeId) => AcknowledgeCancellationValid(s, scope, fence, outcomeId);
    case DueTimeoutStep(attempt, delayMillis, ids) => ReconcileDueTimeoutValid(s, attempt, delayMillis, ids);
    case ExpiredLeaseStep(lease, delayMillis, ids) => ReconcileExpiredLeaseValid(s, lease, delayMillis, ids);
  }

  /** Every transaction, whatever its arguments and whether it commits or rolls back, keeps every law. */
  lemma StepValid(s: State, step: Step)
    requires Valid(s)
    ensures Valid(Apply(s, step))
  {
    if WorkerSide(step) {
      WorkerStepValid(s, step);
    } else {
      match step
      case CancelStep(scope, job) => RequestCancelValid(s, scope, job);
      case SubmitStep(scope, key, submission, newJob, newEvent) => SubmitValid(s, scope, key, submission, newJob, newEvent);
      case ReplayStep(scope, original, key, newJob, newEvent) => ReplayValid(s, scope, original, key, newJob, newEvent);
      case PromoteStep(job, newEvent) => PromoteDueJobValid(s, job, newEvent);
      case RenotifyStep(job, after, newEvent) => RenotifyStrandedJobValid(s, job, after, newEvent);
      case ClaimEventsStep(picked, claimTimeout) => ClaimDueValid(s, picked, claimTimeout);
      case MarkPublishedStep(event) => MarkPublishedValid(s, event);
      case RecordFailureStep(event, cause, retryAfter) => RecordFailureValid(s, event, cause, retryAfter);
      case TickStep(elapsed) => TickValid(s, elapsed);
    }
  }

  lemma {:induction false} RunValid(s: State, steps: seq<Step>)
    requires Valid(s)
    ensures Valid(Run(s, steps))
    decreases |steps|
  {
    if steps != [] {
      StepValid(s, steps[0]);
      RunValid(Apply(s, steps[0]), steps[1..]);
    }
  }

  /** Every reachable state is valid: the laws hold after any run from a migrated database. */
  lemma ReachableValid(s: State, steps: seq<Step>)
    requires Initial(s)
    ensures Valid(Run(s, steps))
  {
    InitialValid(s);
    RunValid(s, steps);
  }
}
