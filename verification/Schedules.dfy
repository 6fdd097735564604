/** No attempt of a job begins before its time: neither before the schedule it was submitted with nor before its retry is due. */
module Schedules {
  import opened Schema
  import opened Transactions
  import opened Invariants
  import opened Endings
  import opened Steps
  import opened History
  import opened Footprints
  import opened WorkerLimits
  import opened ClaimAnswers
  import opened RequestAnswers
  import opened ReportAnswers

  /** The job still waits for that time, or will never run again, or the time has come. */
  predicate Waits(s: State, j: Id, due: Time) {
    && j in s.jobs
    && (|| (s.jobs[j].status.Scheduled() && s.jobs[j].availableAt == due)
        || s.jobs[j].status.StatusCanceled? || due <= s.now)
  }

  // ------------------------------------------------------------- one transaction

  lemma FootprintSparesWaiting(s: State, t: State, scope: Name, g: Fence, j: Id)
    requires Valid(s) && Footprint(s, t, scope, g) && j in s.jobs && !s.jobs[j].status.Held()
    ensures j in t.jobs && t.jobs[j] == s.jobs[j]
  {
    if t != s {
      FencedExecutes(s, scope, g);
      ExecutingStatuses(s, g);
    }
  }

  lemma ReportSparesWaiting(s: State, step: Step, j: Id)
    requires Valid(s) && j in s.jobs && !s.jobs[j].status.Held()
    requires step.StartStep? || step.RenewStep? || step.SucceedStep? || step.FailStep? || step.AcknowledgeStep?
    ensures j in Apply(s, step).jobs && Apply(s, step).jobs[j] == s.jobs[j]
  {
    match step {
      case StartStep(scope, g) =>
        StartFootprint(s, scope, g);
        FootprintSparesWaiting(s, Apply(s, step), scope, g, j);
      case RenewStep(scope, g, renewalId, expected) =>
        RenewFootprint(s, scope, g, renewalId, expected);
        FootprintSparesWaiting(s, Apply(s, step), scope, g, j);
      case SucceedStep(scope, g, body) =>
        SucceedFootprint(s, scope, g, body);
        FootprintSparesWaiting(s, Apply(s, step), scope, g, j);
      case FailStep(scope, r, delayMillis, ids) =>
        FailFootprint(s, scope, r, delayMillis, ids);
        FootprintSparesWaiting(s, Apply(s, step), scope, r.fence, j);
      case AcknowledgeStep(scope, g, outcomeId) =>
        AcknowledgeFootprint(s, scope, g, outcomeId);
        FootprintSparesWaiting(s, Apply(s, step), scope, g, j);
    }
  }

  lemma ReconcilersSpareWaiting(s: State, step: Step, j: Id)
    requires Valid(s) && j in s.jobs && !s.jobs[j].status.Held() && (step.DueTimeoutStep? || step.ExpiredLeaseStep?)
    ensures j in Apply(s, step).jobs && Apply(s, step).jobs[j] == s.jobs[j]
  {
    var t := Apply(s, step);
    if step.DueTimeoutStep? {
      DueTimeoutFootprint(s, step.attempt, step.delayMillis, step.ids);
      if t != s {
        var l := LeaseOf(s.leases, step.attempt);
        FootprintSparesWaiting(s, t, s.leases[l].binding.scope, FenceOf(s.leases, l), j);
      }
    } else {
      ExpiredLeaseFootprint(s, step.lease, step.delayMillis, step.ids);
      if t != s {
        FootprintSparesWaiting(s, t, s.leases[step.lease].binding.scope, FenceOf(s.leases, step.lease), j);
      }
    }
  }

  lemma WorkersSpareWaiting(s: State, step: Step, j: Id)
    requires Valid(s) && j in s.jobs && s.jobs[j].status.Scheduled() && WorkerSide(step)
    ensures j in Apply(s, step).jobs && Apply(s, step).jobs[j] == s.jobs[j]
  {
    match step
    case ClaimStep(scope, req, locked, attempt, lease) => ClaimFrame(s, scope, req, locked, attempt, lease);
    case DueTimeoutStep(_, _, _) => ReconcilersSpareWaiting(s, step, j);
    case ExpiredLeaseStep(_, _, _) => ReconcilersSpareWaiting(s, step, j);
    case RegisterStep(_, _, _) => JobFrame(s, step);
    case HeartbeatStep(_, _, _) => JobFrame(s, step);
    case MarkStaleStep(_, _) => JobFrame(s, step);
    case _ => ReportSparesWaiting(s, step, j);
  }

  /** A job that waits for its time is touched only by its promotion and its cancellation. */
  lemma WaitingIsSpared(s: State, step: Step, j: Id)
    requires Valid(s) && j in s.jobs && s.jobs[j].status.Scheduled()
    requires !(step.PromoteStep? && step.job == j) && !(step.CancelStep? && step.job == j)
    ensures j in Apply(s, step).jobs && Apply(s, step).jobs[j] == s.jobs[j]
  {
    if WorkerSide(step) {
      WorkersSpareWaiting(s, step, j);
    } else {
      match step
      case CancelStep(scope, k) => CancelFrame(s, scope, k);
      case PromoteStep(k, event) => PromoteFrame(s, k, event);
      case RenotifyStep(k, after, event) => RenotificationAnswers(s, k, after, event);
      case SubmitStep(_, _, _, _, _) => InsertFrame(s, step);
      case ReplayStep(_, _, _, _, _) => InsertFrame(s, step);
      case _ => JobFrame(s, step);
    }
  }

  lemma StepWaits(s: State, step: Step, j: Id, due: Time)
    requires Valid(s) && Waits(s, j, due)
    ensures Waits(Apply(s, step), j, due)
  {
    var t := Apply(s, step);
    StepExtends(s, step);
    assert s.now <= t.now by { assert Grows(Settings, s, t); }
    assert j in t.jobs && JobGrows(s.jobs[j], t.jobs[j]) by { assert Grows(Jobs, s, t); }
    if s.jobs[j].status.Scheduled() && s.now < due {
      if step.PromoteStep? && step.job == j {
        PromotionAnswers(s, j, step.newEvent);
      } else if step.CancelStep? && step.job == j {
        CancelAnswers(s, step.scope, j);
      } else {
        WaitingIsSpared(s, step, j);
      }
    }
  }

  // ------------------------------------------------------------------- whole runs

  /** Every lease of the job outside the given ones was acquired no earlier than that. */
  ghost predicate NotBefore(leases: map<Id, Lease>, known: set<Id>, j: Id, due: Time) {
    forall l :: l in leases && l !in known && leases[l].binding.job == j ==> due <= leases[l].acquiredAt
  }

  lemma StepNotBefore(s: State, step: Step, known: set<Id>, j: Id, due: Time)
    requires Valid(s) && Waits(s, j, due) && NotBefore(s.leases, known, j, due)
    ensures NotBefore(Apply(s, step).leases, known, j, due)
  {
    var t := Apply(s, step);
    StepExtends(s, step);
    assert Grows(Leases, s, t);
    forall l | l in t.leases && l !in known && t.leases[l].binding.job == j ensures due <= t.leases[l].acquiredAt {
      if l !in s.leases {
        NewLeaseIsClaimed(s, step, l);
      }
    }
  }

  /** A new lease is a claim of a QUEUED job, acquired now. */
  lemma NewLeaseIsClaimed(s: State, step: Step, l: Id)
    requires l in Apply(s, step).leases && l !in s.leases
    ensures var row := Apply(s, step).leases[l];
            row.acquiredAt == s.now && row.binding.job in s.jobs && s.jobs[row.binding.job].status.StatusQueued?
  {
    if step.ClaimStep? {
      var r := Claim(s, step.scope, step.req, step.locked, step.newAttempt, step.newLease);
      UnlessGranted(s, step.scope, step.req, step.locked, step.newAttempt, step.newLease);
      ClaimWrites(s, step.scope, step.req, step.locked, step.newAttempt, step.newLease);
    } else {
      OnlyClaimsLease(s, step);
    }
  }

  lemma UnlessGranted(s: State, scope: Name, req: ClaimRequest, locked: set<Id>, attempt: Id, lease: Id)
    ensures var (t, reply) := Claim(s, scope, req, locked, attempt, lease);
            t.leases == s.leases || (reply.Ok? && reply.value.Claimed? && !reply.value.replayed)
  {
  }

  /**
   Over any run, a job that waits for a time gets no attempt before it. The time is the submitted schedule of a
   PENDING job, and of a job in RETRY_WAIT the instant its last attempt's drawn delay ends.
   */
  lemma {:induction false} NeverBeforeItsTime(s: State, steps: seq<Step>, known: set<Id>, j: Id, due: Time)
    requires Valid(s) && Waits(s, j, due) && NotBefore(s.leases, known, j, due)
    ensures Waits(Run(s, steps), j, due) && NotBefore(Run(s, steps).leases, known, j, due)
    decreases |steps|
  {
    if steps != [] {
      StepWaits(s, steps[0], j, due);
      StepNotBefore(s, steps[0], known, j, due);
      StepValid(s, steps[0]);
      NeverBeforeItsTime(Apply(s, steps[0]), steps[1..], known, j, due);
    }
  }

  /** After a failure that drew a delay, the job's next attempt is leased no earlier than that delay from then. */
  lemma RetryWaitsItsDelay(s: State, scope: Name, r: FailureReport, delayMillis: nat, ids: NewIds, steps: seq<Step>, l: Id)
    requires Valid(s)
    requires var reply := Fail(s, scope, r, delayMillis, ids).1; reply.Ok? && !reply.value.replayed && reply.value.retryAt.Some?
    ensures var u := Run(Fail(s, scope, r, delayMillis, ids).0, steps);
            l in u.leases && l !in s.leases && u.leases[l].binding.job == r.fence.job ==>
              s.now + delayMillis * 1000 <= u.leases[l].acquiredAt
  {
    var t := Apply(s, FailStep(scope, r, delayMillis, ids));
    StepValid(s, FailStep(scope, r, delayMillis, ids));
    FailureWrites(s, scope, r, delayMillis, ids);
    FailureKeepsLeases(s, scope, r, delayMillis, ids);
    NeverBeforeItsTime(t, steps, s.leases.Keys, r.fence.job, s.now + delayMillis * 1000);
  }

  lemma FailureKeepsLeases(s: State, scope: Name, r: FailureReport, delayMillis: nat, ids: NewIds)
    ensures Fail(s, scope, r, delayMillis, ids).0.leases.Keys == s.leases.Keys
    ensures Fail(s, scope, r, delayMillis, ids).0.now == s.now
  {
    FailFootprint(s, scope, r, delayMillis, ids);
  }

  // ------------------------------------------------------------------ announced

  /** After so much more time, the scheduler's step announces the job again. */
  ghost predicate Reannounced(s: State, j: Id, after: int, event: Id, delay: nat) {
    RenotifyStrandedJob(s.(now := s.now + delay), j, after, event).1 == Ok(true)
  }

  /**
   No QUEUED job is forgotten: its generation has an event that some publisher will still deliver, or at every
   time later than the interval after its last announcement the scheduler announces it again.
   */
  lemma QueuedIsAnnounced(s: State, j: Id, after: int, event: Id)
    requires Valid(s) && j in s.jobs && s.jobs[j].status.StatusQueued? && event !in s.events
    ensures s.jobs[j].lastNotificationAt.Some?
    ensures || HasPending(s.events, j, s.jobs[j].generation)
            || forall delay: nat :: s.jobs[j].lastNotificationAt.value + after < s.now + delay ==> Reannounced(s, j, after, event, delay)
  {
    assert JobRow(s.jobs[j], s.now) by { assert Holds(JobRowLaw, s); }
  }
}
