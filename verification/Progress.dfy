/** Every status change of a job uses up part of a budget linear in max_attempts, and no job is stuck. */
module Progress {
  import opened Base
  import opened Schema
  import opened Transactions
  import opened Invariants
  import opened Effects
  import opened Endings
  import opened Footprints
  import opened Steps
  import opened History

  // ------------------------------------------------------------- transitions

  /** The only status changes any transaction makes. */
  predicate Transition(a: JobStatus, b: JobStatus) {
    match a
    case StatusPending => b.StatusQueued? || b.StatusCanceled?
    case StatusQueued => b.StatusLeased? || b.StatusCanceled?
    case StatusLeased => b.StatusRunning? || b.StatusCancelRequested? || b.StatusQueued? || b.StatusDeadLettered?
    case StatusRunning =>
      b.StatusSucceeded? || b.StatusCancelRequested? || b.StatusQueued? || b.StatusRetryWait? || b.StatusDeadLettered?
    case StatusRetryWait => b.StatusQueued? || b.StatusCanceled?
    case StatusCancelRequested => b.StatusCanceled?
    case _ => false
  }

  datatype Mover = ByClaim | ByRequest | ByOther

  function MoverOf(step: Step): Mover {
    if step.ClaimStep? then ByClaim else if step.CancelStep? then ByRequest else ByOther
  }

  /** Only a claim leases a job, and only a client's request asks for its cancellation. */
  predicate Moved(a: JobStatus, b: JobStatus, mover: Mover) {
    a == b || (Transition(a, b) && (b.StatusLeased? ==> mover.ByClaim?) && (b.StatusCancelRequested? ==> mover.ByRequest?))
  }

  ghost predicate JobsMove(m: map<Id, Job>, n: map<Id, Job>, mover: Mover) {
    forall j :: j in m ==> j in n && Moved(m[j].status, n[j].status, mover)
  }

  lemma FrameMoves(m: map<Id, Job>, n: map<Id, Job>)
    requires Submap(m, n)
    ensures JobsMove(m, n, ByOther)
  {
  }

  lemma UpdateMoves(jobs: map<Id, Job>, j: Id, job: Job, mover: Mover)
    requires j in jobs && Moved(jobs[j].status, job.status, mover)
    ensures JobsMove(jobs, jobs[j := job], mover)
  {
  }

  lemma FinalizeMoves(s: State, g: Fence, o: AttemptOutcome, d: Decision, ids: NewIds)
    requires g.job in s.jobs && g.attempt in s.attempts && g.lease in s.leases
    requires Moved(s.jobs[g.job].status, FinalJob(s.jobs[g.job], d, s.now).status, ByOther)
    ensures JobsMove(s.jobs, FinalizeAttempt(s, g, o, d, ids).0.jobs, ByOther)
  {
  }

  lemma StartMoves(s: State, scope: Name, g: Fence)
    ensures JobsMove(s.jobs, Start(s, scope, g).0.jobs, ByOther)
  {
    FrameMoves(s.jobs, s.jobs);
    if Fenced(s, scope, g) && s.jobs[g.job].status.StatusLeased? {
      UpdateMoves(s.jobs, g.job, s.jobs[g.job].(status := StatusRunning, updatedAt := s.now), ByOther);
    }
  }

  lemma RenewMoves(s: State, scope: Name, g: Fence, renewalId: Id, expected: int)
    ensures JobsMove(s.jobs, RenewLease(s, scope, g, renewalId, expected).0.jobs, ByOther)
  {
    FrameMoves(s.jobs, s.jobs);
  }

  lemma SucceedMoves(s: State, scope: Name, g: Fence, body: Option<Document>)
    ensures JobsMove(s.jobs, Succeed(s, scope, g, body).0.jobs, ByOther)
  {
  }

  lemma FailMoves(s: State, scope: Name, r: FailureReport, delayMillis: nat, ids: NewIds)
    ensures JobsMove(s.jobs, Fail(s, scope, r, delayMillis, ids).0.jobs, ByOther)
  {
    FrameMoves(s.jobs, s.jobs);
    if Fenced(s, scope, r.fence) && s.jobs[r.fence.job].status.StatusRunning? {
      var d := Decide(r.failureClass, s.attempts[r.fence.attempt].number, s.jobs[r.fence.job].spec.maxAttempts, delayMillis);
      if d.Some? {
        FinalizeMoves(s, r.fence, ReportedOutcome(r), d.value, ids);
      }
    }
  }

  lemma AcknowledgeMoves(s: State, scope: Name, g: Fence, outcomeId: Id)
    ensures JobsMove(s.jobs, AcknowledgeCancellation(s, scope, g, outcomeId).0.jobs, ByOther)
  {
    FrameMoves(s.jobs, s.jobs);
    if Fenced(s, scope, g) && s.jobs[g.job].status.StatusCancelRequested? {
      UpdateMoves(s.jobs, g.job, s.jobs[g.job].(status := StatusCanceled, updatedAt := s.now), ByOther);
    }
  }

  lemma ClaimMoves(s: State, scope: Name, req: ClaimRequest, locked: set<Id>, attempt: Id, lease: Id)
    ensures JobsMove(s.jobs, Claim(s, scope, req, locked, attempt, lease).0.jobs, ByClaim)
  {
    ClaimFrame(s, scope, req, locked, attempt, lease);
  }

  lemma CancelMoves(s: State, scope: Name, j: Id)
    ensures JobsMove(s.jobs, RequestCancel(s, scope, j).0.jobs, ByRequest)
  {
    FrameMoves(s.jobs, s.jobs);
    if j in s.jobs && !s.jobs[j].status.Terminal() && !s.jobs[j].status.StatusCancelRequested? {
      UpdateMoves(s.jobs, j, CancelRequested(s.jobs[j], s.now), ByRequest);
    }
  }

  lemma PromoteMoves(s: State, j: Id, event: Id)
    ensures JobsMove(s.jobs, PromoteDueJob(s, j, event).0.jobs, ByOther)
  {
  }

  lemma RenotifyMoves(s: State, j: Id, after: int, event: Id)
    ensures JobsMove(s.jobs, RenotifyStrandedJob(s, j, after, event).0.jobs, ByOther)
  {
  }

  lemma DueTimeoutMoves(s: State, attempt: Id, delayMillis: nat, ids: NewIds)
    ensures JobsMove(s.jobs, ReconcileDueTimeout(s, attempt, delayMillis, ids).0.jobs, ByOther)
  {
    if HasLease(s.leases, attempt) {
      var g := FenceOf(s.leases, LeaseOf(s.leases, attempt));
      if g.job in s.jobs && g.attempt in s.attempts && s.jobs[g.job].status.StatusRunning? {
        FinalizeMoves(s, g, TimeoutOutcome(s.leases[g.lease], s.now),
                      Decide(ClassTimedOut, s.attempts[g.attempt].number, s.jobs[g.job].spec.maxAttempts, delayMillis).value, ids);
      }
    }
  }

  lemma LapsedMoves(s: State, g: Fence, delayMillis: nat, ids: NewIds)
    requires g.lease in s.leases && FenceOf(s.leases, g.lease) == g && g.job in s.jobs && g.attempt in s.attempts
    requires s.attempts[g.attempt].timeoutAt.Some? ==> s.attempts[g.attempt].status.AttemptRunning?
    requires StatusesAgree(s.jobs[g.job].status, s.attempts[g.attempt].status)
    ensures JobsMove(s.jobs, ReconcileExpiredLease(s, g.lease, delayMillis, ids).0.jobs, ByOther)
  {
    var n, max := s.attempts[g.attempt].number, s.jobs[g.job].spec.maxAttempts;
    FrameMoves(s.jobs, s.jobs);
    if s.jobs[g.job].status.StatusCancelRequested? {
      UpdateMoves(s.jobs, g.job, s.jobs[g.job].(status := StatusCanceled, updatedAt := s.now), ByOther);
    } else if TimedOutBeforeLapse(s.attempts[g.attempt], s.leases[g.lease], s.now) {
      FinalizeMoves(s, g, TimeoutOutcome(s.leases[g.lease], s.now), Decide(ClassTimedOut, n, max, delayMillis).value, ids);
    } else {
      FinalizeMoves(s, g, ABANDONED, Decide(ClassAbandoned, n, max, delayMillis).value, ids);
    }
  }

  /** A lapsed lease whose deadline passed belongs to an attempt that started, so its job is RUNNING. */
  lemma ExpiredLeaseMoves(s: State, l: Id, delayMillis: nat, ids: NewIds)
    requires Valid(s)
    ensures JobsMove(s.jobs, ReconcileExpiredLease(s, l, delayMillis, ids).0.jobs, ByOther)
  {
    if l in s.leases {
      var g := FenceOf(s.leases, l);
      if Fenced(s, s.leases[l].binding.scope, g) && s.attempts[g.attempt].status.Executing() {
        FencedExecutes(s, s.leases[l].binding.scope, g);
        ExecutingFacts(s, g);
        LapsedMoves(s, g, delayMillis, ids);
      }
    }
  }

  lemma WorkerStepMoves(s: State, step: Step)
    requires Valid(s) && WorkerSide(step)
    ensures JobsMove(s.jobs, Apply(s, step).jobs, MoverOf(step))
  {
    match step
    case StartStep(scope, g) => StartMoves(s, scope, g);
    case RenewStep(scope, g, renewalId, expected) => RenewMoves(s, scope, g, renewalId, expected);
    case SucceedStep(scope, g, body) => SucceedMoves(s, scope, g, body);
    case FailStep(scope, r, delayMillis, ids) => FailMoves(s, scope, r, delayMillis, ids);
    case AcknowledgeStep(scope, g, outcomeId) => AcknowledgeMoves(s, scope, g, outcomeId);
    case DueTimeoutStep(attempt, delayMillis, ids) => DueTimeoutMoves(s, attempt, delayMillis, ids);
    case ExpiredLeaseStep(l, delayMillis, ids) => ExpiredLeaseMoves(s, l, delayMillis, ids);
    case ClaimStep(scope, req, locked, attempt, lease) => ClaimMoves(s, scope, req, locked, attempt, lease);
    case _ =>
      JobFrame(s, step);
      FrameMoves(s.jobs, s.jobs);
  }

  /** Every step moves every job along the transition matrix or leaves its status alone. */
  lemma StepMoves(s: State, step: Step)
    requires Valid(s)
    ensures JobsMove(s.jobs, Apply(s, step).jobs, MoverOf(step))
  {
    if WorkerSide(step) {
      WorkerStepMoves(s, step);
    } else {
      match step
      case CancelStep(scope, j) => CancelMoves(s, scope, j);
      case PromoteStep(j, event) => PromoteMoves(s, j, event);
      case RenotifyStep(j, after, event) => RenotifyMoves(s, j, after, event);
      case SubmitStep(_, _, _, _, _) =>
        InsertFrame(s, step);
        FrameMoves(s.jobs, Apply(s, step).jobs);
      case ReplayStep(_, _, _, _, _) =>
        InsertFrame(s, step);
        FrameMoves(s.jobs, Apply(s, step).jobs);
      case _ =>
        JobFrame(s, step);
        FrameMoves(s.jobs, s.jobs);
    }
  }

  // ------------------------------------------------------------ used attempts

  /** The attempts of a job only grow in number by a claim that leases the job. */
  ghost predicate Counted(s: State, t: State) {
    forall j :: j in s.jobs && j in t.jobs ==>
      Used(t.attempts, j) ==
      Used(s.attempts, j) + if t.jobs[j].status.StatusLeased? && !s.jobs[j].status.StatusLeased? then 1 else 0
  }

  lemma SameAttemptsCounted(s: State, t: State, mover: Mover)
    requires t.attempts.Keys == s.attempts.Keys && AttemptsGrow(s.attempts, t.attempts)
    requires JobsMove(s.jobs, t.jobs, mover) && !mover.ByClaim?
    ensures Counted(s, t)
  {
    UsedKept(s.attempts, t.attempts);
  }

  lemma GrantCounted(s: State, req: ClaimRequest, j: Id, a: Id, l: Id)
    requires j in s.jobs && s.jobs[j].status.StatusQueued? && a !in s.attempts
    ensures Counted(s, Grant(s, req, j, a, l))
  {
    UsedAfterInsert(s.attempts, a, Grant(s, req, j, a, l).attempts[a]);
  }

  lemma ClaimCounted(s: State, scope: Name, req: ClaimRequest, locked: set<Id>, attempt: Id, lease: Id)
    ensures Counted(s, Claim(s, scope, req, locked, attempt, lease).0)
  {
    var t := Claim(s, scope, req, locked, attempt, lease).0;
    ClaimFrame(s, scope, req, locked, attempt, lease);
    if t != s {
      var j :| j in s.jobs && s.jobs[j].status.StatusQueued? && t == Grant(s, req, j, attempt, lease);
      GrantCounted(s, req, j, attempt, lease);
    }
  }

  lemma AttemptKeys(s: State, step: Step)
    requires !step.ClaimStep?
    ensures Apply(s, step).attempts.Keys == s.attempts.Keys
  {
    match step
    case StartStep(scope, g) => StartFootprint(s, scope, g);
    case RenewStep(scope, g, renewalId, expected) => RenewFootprint(s, scope, g, renewalId, expected);
    case SucceedStep(scope, g, body) => SucceedFootprint(s, scope, g, body);
    case FailStep(scope, r, delayMillis, ids) => FailFootprint(s, scope, r, delayMillis, ids);
    case AcknowledgeStep(scope, g, outcomeId) => AcknowledgeFootprint(s, scope, g, outcomeId);
    case DueTimeoutStep(attempt, delayMillis, ids) => DueTimeoutFootprint(s, attempt, delayMillis, ids);
    case ExpiredLeaseStep(l, delayMillis, ids) => ExpiredLeaseFootprint(s, l, delayMillis, ids);
    case _ => AuthorityFrame(s, step);
  }

  lemma StepCounted(s: State, step: Step)
    requires Valid(s)
    ensures Counted(s, Apply(s, step))
  {
    if step.ClaimStep? {
      ClaimCounted(s, step.scope, step.req, step.locked, step.newAttempt, step.newLease);
    } else {
      var t := Apply(s, step);
      AttemptKeys(s, step);
      StepExtends(s, step);
      assert Grows(JobAttempts, s, t);
      StepMoves(s, step);
      SameAttemptsCounted(s, t, MoverOf(step));
    }
  }

  // ------------------------------------------------------------------ measure

  /** How many status changes the job can still make: four per attempt left, plus its phase. */
  ghost function Rank(s: State, j: Id): int
    requires j in s.jobs
  {
    var left := s.jobs[j].spec.maxAttempts - Used(s.attempts, j);
    match s.jobs[j].status
    case StatusPending => 4 * left + 1
    case StatusQueued => 4 * left
    case StatusLeased => 4 * left + 3
    case StatusRunning => 4 * left + 2
    case StatusRetryWait => 4 * left + 1
    case StatusCancelRequested => 1
    case _ => 0
  }

  lemma RankBounds(s: State, j: Id)
    requires Valid(s) && j in s.jobs
    ensures 0 <= Rank(s, j) <= 4 * s.jobs[j].spec.maxAttempts + 1
    ensures s.jobs[j].status.Waiting() ==> 4 <= Rank(s, j)
  {
    assert Holds(BudgetLaw, s);
    if s.jobs[j].status.Executing() {
      assert Holds(AuthorityLaw, s);
      assert HasExecuting(s.attempts, j);
      var a :| ExecutingAttempt(s.attempts, a, j);
      assert Holds(NumberLaw, s);
    }
  }

  lemma MoveRank(s: State, t: State, j: Id, mover: Mover)
    requires j in s.jobs && j in t.jobs && t.jobs[j].spec == s.jobs[j].spec
    requires Moved(s.jobs[j].status, t.jobs[j].status, mover)
    requires Used(t.attempts, j) ==
             Used(s.attempts, j) + if t.jobs[j].status.StatusLeased? && !s.jobs[j].status.StatusLeased? then 1 else 0
    requires 0 <= Rank(s, j) && (s.jobs[j].status.Waiting() ==> 4 <= Rank(s, j))
    ensures if t.jobs[j].status == s.jobs[j].status then Rank(t, j) == Rank(s, j) else Rank(t, j) < Rank(s, j)
  {
  }

  /** A status change strictly lowers the rank; without one the rank stays. */
  lemma StepRank(s: State, step: Step, j: Id)
    requires Valid(s) && j in s.jobs
    ensures var t := Apply(s, step);
            && j in t.jobs && t.jobs[j].spec == s.jobs[j].spec
            && if t.jobs[j].status == s.jobs[j].status then Rank(t, j) == Rank(s, j) else Rank(t, j) < Rank(s, j)
  {
    var t := Apply(s, step);
    assert j in t.jobs && t.jobs[j].spec == s.jobs[j].spec by {
      StepExtends(s, step);
      assert Grows(Jobs, s, t);
    }
    StepMoves(s, step);
    StepCounted(s, step);
    RankBounds(s, j);
    MoveRank(s, t, j, MoverOf(step));
  }

  ghost function StatusChanges(s: State, steps: seq<Step>, j: Id): nat
    requires j in s.jobs
    decreases |steps|
  {
    if steps == [] then 0
    else
      var t := Apply(s, steps[0]);
      if j !in t.jobs then 0
      else (if t.jobs[j].status == s.jobs[j].status then 0 else 1) + StatusChanges(t, steps[1..], j)
  }

  /** Over any run a job changes status at most 4 * max_attempts + 1 times. */
  lemma {:induction false} StatusChangesAreBounded(s: State, steps: seq<Step>, j: Id)
    requires Valid(s) && j in s.jobs
    ensures j in Run(s, steps).jobs
    ensures StatusChanges(s, steps, j) + Rank(Run(s, steps), j) <= Rank(s, j)
    ensures StatusChanges(s, steps, j) <= 4 * s.jobs[j].spec.maxAttempts + 1
    decreases |steps|
  {
    RankBounds(s, j);
    if steps != [] {
      var t := Apply(s, steps[0]);
      StepRank(s, steps[0], j);
      StepValid(s, steps[0]);
      StatusChangesAreBounded(t, steps[1..], j);
      RunValid(t, steps[1..]);
      RankBounds(Run(t, steps[1..]), j);
    }
  }

  // ------------------------------------------------------------------ enabled

  lemma FinalizeCommits(s: State, f: Fence, o: AttemptOutcome, d: Decision, ids: NewIds)
    requires Executes(s, f) && ids.event !in s.events && ids.dlq !in s.dlq
    ensures var r := FinalizeAttempt(s, f, o, d, ids);
            && r.1 == Ok(FinalResult(f, o, d, s.now))
            && f.job in r.0.jobs && r.0.jobs[f.job].status == FinalJob(s.jobs[f.job], d, s.now).status
  {
  }

  /** The lease row and its fence hold the job. */
  predicate Holding(s: State, f: Fence) {
    && Executes(s, f) && Fenced(s, s.leases[f.lease].binding.scope, f) && FenceOf(s.leases, f.lease) == f
    && s.leases[f.lease].status.LeaseActive? && s.jobs[f.job].status.Held()
  }

  lemma HoldingAfterTick(s: State, f: Fence, delay: nat)
    requires Holding(s, f)
    ensures Holding(Apply(s, TickStep(delay)), f)
  {
  }

  lemma LapseEndsAttempt(s: State, f: Fence, delayMillis: nat, ids: NewIds)
    requires Holding(s, f) && s.leases[f.lease].expiresAt <= s.now
    requires ids.event !in s.events && ids.dlq !in s.dlq
    ensures var r := ReconcileExpiredLease(s, f.lease, delayMillis, ids);
            && r.1.Ok? && r.1.value.expiredLeases == 1 && r.1.value.skipped == 0
            && f.job in r.0.jobs && !r.0.jobs[f.job].status.Held()
  {
    var a, max := s.attempts[f.attempt], s.jobs[f.job].spec.maxAttempts;
    if s.jobs[f.job].status.StatusCancelRequested? {
      assert ReconcileExpiredLease(s, f.lease, delayMillis, ids).0 == FinalizeCancellation(s, f, None, LeaseExpired).0;
    } else if TimedOutBeforeLapse(a, s.leases[f.lease], s.now) {
      FinalizeCommits(s, f, TimeoutOutcome(s.leases[f.lease], s.now), Decide(ClassTimedOut, a.number, max, delayMillis).value, ids);
    } else {
      FinalizeCommits(s, f, ABANDONED, Decide(ClassAbandoned, a.number, max, delayMillis).value, ids);
    }
  }

  lemma HeldJobHasFence(s: State, j: Id) returns (f: Fence)
    requires Valid(s) && j in s.jobs && s.jobs[j].status.Held()
    ensures Holding(s, f) && f.job == j
  {
    assert HasExecuting(s.attempts, j) by { assert Holds(AuthorityLaw, s); }
    var a :| ExecutingAttempt(s.attempts, a, j);
    assert HasLease(s.leases, a) by { assert Holds(BindingLaw, s); }
    f := FenceOf(s.leases, LeaseOf(s.leases, a));
    assert Holds(BindingLaw, s);
    ExecutingStatuses(s, f);
  }

  /** Taken after a further delay, the step changes the job's status. */
  ghost predicate Escapes(s: State, j: Id, delay: nat, step: Step)
    requires j in s.jobs
  {
    var t := Apply(Apply(s, TickStep(delay)), step);
    j in t.jobs && t.jobs[j].status != s.jobs[j].status
  }

  lemma PromotionEscapes(s: State, j: Id, e: Id, delay: nat)
    requires j in s.jobs && (s.jobs[j].status.StatusPending? || s.jobs[j].status.StatusRetryWait?)
    requires s.jobs[j].availableAt <= s.now + delay && e !in s.events
    ensures Escapes(s, j, delay, PromoteStep(j, e))
  {
  }

  lemma LapseEscapes(s: State, f: Fence, ids: NewIds, delay: nat)
    requires Holding(s, f) && s.leases[f.lease].expiresAt <= s.now + delay
    requires ids.event !in s.events && ids.dlq !in s.dlq
    ensures Escapes(s, f.job, delay, ExpiredLeaseStep(f.lease, 0, ids))
  {
    var t := Apply(s, TickStep(delay));
    HoldingAfterTick(s, f, delay);
    LapseEndsAttempt(t, f, 0, ids);
  }

  /**
   No job is stuck outside QUEUED: for each there is a scheduler or reconciler step that changes
   its status whenever server time has passed a fixed point, however late the step is taken.
   */
  lemma LateStepIsEnabled(s: State, j: Id) returns (step: Step, due: Time)
    requires Valid(s) && j in s.jobs && !s.jobs[j].status.Terminal() && !s.jobs[j].status.StatusQueued?
    ensures step.PromoteStep? || step.ExpiredLeaseStep?
    ensures forall delay: nat :: due <= s.now + delay ==> Escapes(s, j, delay, step)
  {
    var e := FreshId(s.events.Keys);
    var q := FreshId(s.dlq.Keys);
    if s.jobs[j].status.Held() {
      var f := HeldJobHasFence(s, j);
      step, due := ExpiredLeaseStep(f.lease, 0, NewIds(e, q)), s.leases[f.lease].expiresAt;
      forall delay: nat | due <= s.now + delay ensures Escapes(s, j, delay, step) {
        LapseEscapes(s, f, NewIds(e, q), delay);
      }
    } else {
      step, due := PromoteStep(j, e), s.jobs[j].availableAt;
      forall delay: nat | due <= s.now + delay ensures Escapes(s, j, delay, step) {
        PromotionEscapes(s, j, e, delay);
      }
    }
  }
}
