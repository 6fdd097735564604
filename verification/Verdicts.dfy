/**
 When a worker goes silent, reconcilers of any number of replicas race at arbitrary times.
 The verdict they reach is fixed by the stored deadline and lease expiry, not by who wins.
 */
module Verdicts {
  import opened Base
  import opened Schema
  import opened Transactions
  import opened Invariants
  import opened Endings
  import opened Footprints
  import opened Steps
  import opened History
  import opened StaleAuthority

  /** A worker report on the attempt: the steps that a silent worker does not take. */
  predicate Reports(step: Step, attempt: Id) {
    Presented(step).Some? && Presented(step).value.attempt == attempt
  }

  predicate Silent(steps: seq<Step>, attempt: Id) {
    forall i :: 0 <= i < |steps| ==> !Reports(steps[i], attempt)
  }

  function LapseVerdict(a: Attempt, l: Lease): AttemptStatus {
    if a.timeoutAt.Some? && a.timeoutAt.value <= l.expiresAt then AttemptTimedOut else AttemptAbandoned
  }

  function Verdict(job: Job, a: Attempt, l: Lease): AttemptStatus {
    if job.status.StatusCancelRequested? then AttemptCanceled else LapseVerdict(a, l)
  }

  /** The attempt and its lease are exactly as before. */
  predicate SameAuthority(s: State, t: State, f: Fence)
    requires Executes(s, f)
  {
    && f.attempt in t.attempts && t.attempts[f.attempt] == s.attempts[f.attempt]
    && f.lease in t.leases && t.leases[f.lease] == s.leases[f.lease]
  }

  predicate SameJob(s: State, t: State, j: Id)
    requires j in s.jobs
  {
    j in t.jobs && t.jobs[j] == s.jobs[j]
  }

  /** Two executing attempts share neither job nor lease. */
  lemma Elsewhere(s: State, f: Fence, g: Fence)
    requires Valid(s) && Executes(s, f) && Executes(s, g) && g.attempt != f.attempt
    ensures g.job != f.job && g.lease != f.lease
  {
    ExecutingAlone(s, f);
    if g.job == f.job {
      assert ExecutingAttempt(s.attempts, g.attempt, f.job);
    }
  }

  /** A transaction that writes under the fence of another executing attempt leaves this one alone. */
  lemma FootprintElsewhere(s: State, t: State, f: Fence, scope: Name, g: Fence)
    requires Valid(s) && Executes(s, f) && Footprint(s, t, scope, g) && g.attempt != f.attempt
    ensures SameAuthority(s, t, f) && SameJob(s, t, f.job)
  {
    if Fenced(s, scope, g) && s.attempts[g.attempt].status.Executing() {
      FencedExecutes(s, scope, g);
      Elsewhere(s, f, g);
    }
  }

  lemma ReportElsewhere(s: State, f: Fence, step: Step)
    requires Valid(s) && Executes(s, f) && Presented(step).Some? && !Reports(step, f.attempt)
    ensures SameAuthority(s, Apply(s, step), f) && SameJob(s, Apply(s, step), f.job)
  {
    match step {
      case StartStep(scope, g) => StartFootprint(s, scope, g);
      case RenewStep(scope, g, renewalId, expected) => RenewFootprint(s, scope, g, renewalId, expected);
      case SucceedStep(scope, g, body) => SucceedFootprint(s, scope, g, body);
      case FailStep(scope, r, delayMillis, ids) => FailFootprint(s, scope, r, delayMillis, ids);
      case AcknowledgeStep(scope, g, outcomeId) => AcknowledgeFootprint(s, scope, g, outcomeId);
    }
    FootprintElsewhere(s, Apply(s, step), f, step.scope, Presented(step).value);
  }

  lemma ClaimBystander(s: State, f: Fence, scope: Name, req: ClaimRequest, locked: set<Id>, attempt: Id, lease: Id)
    requires Executes(s, f) && s.jobs[f.job].status.Held()
    ensures var t := Claim(s, scope, req, locked, attempt, lease).0; SameAuthority(s, t, f) && SameJob(s, t, f.job)
  {
    ClaimFrame(s, scope, req, locked, attempt, lease);
  }

  lemma BystanderAuthority(s: State, f: Fence, step: Step)
    requires Executes(s, f) && s.jobs[f.job].status.Held()
    requires Presented(step).None? && !step.DueTimeoutStep? && !step.ExpiredLeaseStep?
    ensures SameAuthority(s, Apply(s, step), f)
  {
    if step.ClaimStep? {
      ClaimBystander(s, f, step.scope, step.req, step.locked, step.newAttempt, step.newLease);
    } else {
      AuthorityFrame(s, step);
    }
  }

  lemma BystanderJob(s: State, f: Fence, step: Step)
    requires Executes(s, f) && s.jobs[f.job].status.Held()
    requires Presented(step).None? && !step.DueTimeoutStep? && !step.ExpiredLeaseStep? && !step.CancelStep?
    ensures SameJob(s, Apply(s, step), f.job)
  {
    match step
    case ClaimStep(scope, req, locked, attempt, lease) => ClaimBystander(s, f, scope, req, locked, attempt, lease);
    case PromoteStep(j, event) => PromoteFrame(s, j, event);
    case RenotifyStep(j, after, event) => RenotifyFrame(s, j, after, event);
    case SubmitStep(_, _, _, _, _) => InsertFrame(s, step);
    case ReplayStep(_, _, _, _, _) => InsertFrame(s, step);
    case _ => JobFrame(s, step);
  }

  lemma CancelBystander(s: State, f: Fence, scope: Name, j: Id)
    requires Executes(s, f) && s.jobs[f.job].status.Held()
    ensures var t := RequestCancel(s, scope, j).0;
            || SameJob(s, t, f.job)
            || (j == f.job && f.job in t.jobs && t.jobs[f.job].status.StatusCancelRequested?)
  {
    CancelFrame(s, scope, j);
  }

  lemma FenceOfLease(s: State, l: Id)
    requires Valid(s) && l in s.leases
    ensures Fenced(s, s.leases[l].binding.scope, FenceOf(s.leases, l))
    ensures s.attempts[s.leases[l].attempt].status.Executing() ==> Executes(s, FenceOf(s.leases, l))
  {
    assert Holds(BindingLaw, s);
  }

  lemma TimeoutElsewhere(s: State, f: Fence, attempt: Id, delayMillis: nat, ids: NewIds)
    requires Valid(s) && Executes(s, f) && attempt != f.attempt
    ensures var t := ReconcileDueTimeout(s, attempt, delayMillis, ids).0; SameAuthority(s, t, f) && SameJob(s, t, f.job)
  {
    var t := ReconcileDueTimeout(s, attempt, delayMillis, ids).0;
    DueTimeoutFootprint(s, attempt, delayMillis, ids);
    if HasLease(s.leases, attempt) && t != s {
      var l := LeaseOf(s.leases, attempt);
      FootprintElsewhere(s, t, f, s.leases[l].binding.scope, FenceOf(s.leases, l));
    }
  }

  lemma ExpiryElsewhere(s: State, f: Fence, l: Id, delayMillis: nat, ids: NewIds)
    requires Valid(s) && Executes(s, f) && l != f.lease
    ensures var t := ReconcileExpiredLease(s, l, delayMillis, ids).0; SameAuthority(s, t, f) && SameJob(s, t, f.job)
  {
    var t := ReconcileExpiredLease(s, l, delayMillis, ids).0;
    ExpiredLeaseFootprint(s, l, delayMillis, ids);
    if l in s.leases && t != s {
      ExecutingAlone(s, f);
      FootprintElsewhere(s, t, f, s.leases[l].binding.scope, FenceOf(s.leases, l));
    }
  }

  lemma DueTimeoutVerdict(s: State, f: Fence, delayMillis: nat, ids: NewIds)
    requires Valid(s) && Executes(s, f)
    ensures var t := ReconcileDueTimeout(s, f.attempt, delayMillis, ids).0;
            || t == s
            || (&& f.attempt in t.attempts
                && t.attempts[f.attempt].status == Verdict(s.jobs[f.job], s.attempts[f.attempt], s.leases[f.lease]))
  {
    ExecutingAlone(s, f);
    assert HasLease(s.leases, f.attempt);
    FenceOfLease(s, f.lease);
  }

  lemma ExpiredLeaseVerdict(s: State, f: Fence, delayMillis: nat, ids: NewIds)
    requires Valid(s) && Executes(s, f)
    ensures var t := ReconcileExpiredLease(s, f.lease, delayMillis, ids).0;
            || t == s
            || (&& f.attempt in t.attempts
                && t.attempts[f.attempt].status == Verdict(s.jobs[f.job], s.attempts[f.attempt], s.leases[f.lease]))
  {
    FenceOfLease(s, f.lease);
    LapsedVerdict(s, FenceOf(s.leases, f.lease), delayMillis, ids);
  }

  lemma FinalizedAs(s: State, f: Fence, o: AttemptOutcome, d: Decision, ids: NewIds)
    requires Executes(s, f)
    ensures var r := FinalizeAttempt(s, f, o, d, ids);
            if r.1.Err? then r.0 == s else f.attempt in r.0.attempts && r.0.attempts[f.attempt].status == o.status
  {
  }

  lemma CanceledAs(s: State, f: Fence, outcomeId: Option<Id>, leaseStatus: LeaseStatus)
    requires Executes(s, f)
    ensures var t := FinalizeCancellation(s, f, outcomeId, leaseStatus).0;
            f.attempt in t.attempts && t.attempts[f.attempt].status.AttemptCanceled?
  {
  }

  lemma LapsedVerdict(s: State, f: Fence, delayMillis: nat, ids: NewIds)
    requires Executes(s, f) && Fenced(s, s.leases[f.lease].binding.scope, f) && FenceOf(s.leases, f.lease) == f
    ensures var t := ReconcileExpiredLease(s, f.lease, delayMillis, ids).0;
            || t == s
            || (&& f.attempt in t.attempts
                && t.attempts[f.attempt].status == Verdict(s.jobs[f.job], s.attempts[f.attempt], s.leases[f.lease]))
  {
    var a, max := s.attempts[f.attempt], s.jobs[f.job].spec.maxAttempts;
    if s.jobs[f.job].status.StatusCancelRequested? {
      CanceledAs(s, f, None, LeaseExpired);
    } else if TimedOutBeforeLapse(a, s.leases[f.lease], s.now) {
      FinalizedAs(s, f, TimeoutOutcome(s.leases[f.lease], s.now), Decide(ClassTimedOut, a.number, max, delayMillis).value, ids);
    } else {
      FinalizedAs(s, f, ABANDONED, Decide(ClassAbandoned, a.number, max, delayMillis).value, ids);
    }
  }

  /** The authority is left alone, with the job at most asked to cancel, or the attempt ended with the verdict. */
  predicate SilentOutcome(s: State, t: State, f: Fence, cancels: bool)
    requires Executes(s, f)
  {
    && f.attempt in t.attempts
    && if t.attempts[f.attempt].status.Executing() then
         && SameAuthority(s, t, f) && f.job in t.jobs
         && (SameJob(s, t, f.job) || (cancels && t.jobs[f.job].status.StatusCancelRequested?))
       else
         t.attempts[f.attempt].status == Verdict(s.jobs[f.job], s.attempts[f.attempt], s.leases[f.lease])
  }

  lemma SilentReconcile(s: State, f: Fence, step: Step)
    requires Valid(s) && Executes(s, f) && (step.DueTimeoutStep? || step.ExpiredLeaseStep?)
    ensures SilentOutcome(s, Apply(s, step), f, false)
  {
    match step
    case DueTimeoutStep(attempt, delayMillis, ids) =>
      if attempt == f.attempt {
        DueTimeoutVerdict(s, f, delayMillis, ids);
      } else {
        TimeoutElsewhere(s, f, attempt, delayMillis, ids);
      }
    case ExpiredLeaseStep(lease, delayMillis, ids) =>
      if lease == f.lease {
        ExpiredLeaseVerdict(s, f, delayMillis, ids);
      } else {
        ExpiryElsewhere(s, f, lease, delayMillis, ids);
      }
  }

  /** One step without a report either leaves the authority alone or ends the attempt with the verdict. */
  lemma SilentStep(s: State, f: Fence, step: Step)
    requires Valid(s) && Executes(s, f) && !Reports(step, f.attempt)
    ensures SilentOutcome(s, Apply(s, step), f, step.CancelStep? && step.job == f.job)
  {
    if step.DueTimeoutStep? || step.ExpiredLeaseStep? {
      SilentReconcile(s, f, step);
    } else if Presented(step).Some? {
      ReportElsewhere(s, f, step);
    } else {
      ExecutingStatuses(s, f);
      BystanderAuthority(s, f, step);
      if step.CancelStep? {
        CancelBystander(s, f, step.scope, step.job);
      } else {
        BystanderJob(s, f, step);
      }
    }
  }

  /** Cancellation wins when the job is CANCEL_REQUESTED at some point while the attempt still executes. */
  ghost predicate CancelWins(s: State, steps: seq<Step>, f: Fence)
    decreases |steps|
  {
    && Executes(s, f)
    && (s.jobs[f.job].status.StatusCancelRequested? || (steps != [] && CancelWins(Apply(s, steps[0]), steps[1..], f)))
  }

  /**
   After the last report, whatever the interleaving of scans, other traffic and time: the attempt is
   untouched, or it ended CANCELED if cancellation won, and otherwise TIMED_OUT exactly when its
   deadline was set and not after the lease expiry, else ABANDONED.
   */
  lemma {:induction false} SilentRunVerdict(s: State, steps: seq<Step>, f: Fence)
    requires Valid(s) && Executes(s, f) && Silent(steps, f.attempt)
    ensures var u := Run(s, steps);
            && f.attempt in u.attempts
            && if u.attempts[f.attempt].status.Executing() then SameAuthority(s, u, f)
               else u.attempts[f.attempt].status ==
                    if CancelWins(s, steps, f) then AttemptCanceled
                    else LapseVerdict(s.attempts[f.attempt], s.leases[f.lease])
    decreases |steps|
  {
    if steps != [] {
      var t := Apply(s, steps[0]);
      SilentStep(s, f, steps[0]);
      StepValid(s, steps[0]);
      if t.attempts[f.attempt].status.Executing() {
        SilentRunVerdict(t, steps[1..], f);
      } else {
        RunExtends(t, steps[1..]);
        assert Grows(JobAttempts, t, Run(t, steps[1..]));
      }
    }
  }

  /** Without a cancellation request for the job, cancellation cannot win. */
  lemma {:induction false} NoRequestNoCancel(s: State, steps: seq<Step>, f: Fence)
    requires Valid(s) && Executes(s, f) && Silent(steps, f.attempt)
    requires !s.jobs[f.job].status.StatusCancelRequested?
    requires forall i :: 0 <= i < |steps| && steps[i].CancelStep? ==> steps[i].job != f.job
    ensures !CancelWins(s, steps, f)
    decreases |steps|
  {
    if steps != [] {
      var t := Apply(s, steps[0]);
      SilentStep(s, f, steps[0]);
      StepValid(s, steps[0]);
      if Executes(t, f) {
        NoRequestNoCancel(t, steps[1..], f);
      }
    }
  }

  // ------------------------------------------------------- exactly once

  ghost predicate IsExecuting(s: State, a: Id) {
    a in s.attempts && s.attempts[a].status.Executing()
  }

  ghost function Finalizations(s: State, steps: seq<Step>, a: Id): nat
    decreases |steps|
  {
    if steps == [] then 0
    else
      var t := Apply(s, steps[0]);
      (if IsExecuting(s, a) && !IsExecuting(t, a) then 1 else 0) + Finalizations(t, steps[1..], a)
  }

  /** An executing attempt is finalized at most once over any run, and exactly once if it does not end up executing. */
  lemma {:induction false} FinalizedOnce(s: State, steps: seq<Step>, a: Id)
    requires Valid(s) && a in s.attempts
    ensures Finalizations(s, steps, a) ==
            if IsExecuting(s, a) && !IsExecuting(Run(s, steps), a) then 1 else 0
    decreases |steps|
  {
    if steps != [] {
      var t := Apply(s, steps[0]);
      StepValid(s, steps[0]);
      StepExtends(s, steps[0]);
      assert Grows(JobAttempts, s, t);
      FinalizedOnce(t, steps[1..], a);
      RunExtends(t, steps[1..]);
      assert Grows(JobAttempts, t, Run(t, steps[1..]));
    }
  }
}
