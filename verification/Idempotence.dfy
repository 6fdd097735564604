/**
 Reconciliation is idempotent: once one replica has handled a row, every further attempt by any
 replica, with whatever delay and identities it draws, finds nothing left to do.
 */
module Idempotence {
  import opened Schema
  import opened Transactions
  import opened Invariants
  import opened Steps
  import opened History
  import opened Progress
  import opened Scans

  /** A lease that is no longer ACTIVE is skipped in every later state. */
  lemma ClosedLeaseIsSkipped(s: State, l: Id, steps: seq<Step>, delayMillis: nat, ids: NewIds)
    requires Valid(s) && l in s.leases && !s.leases[l].status.LeaseActive?
    ensures var u := Run(s, steps); ReconcileExpiredLease(u, l, delayMillis, ids) == (u, Ok(SKIPPED))
  {
    var u := Run(s, steps);
    RunExtends(s, steps);
    assert l in u.leases && u.leases[l] == s.leases[l] by { assert Grows(Leases, s, u); }
  }

  /** An attempt that ended is skipped by the timeout reconciler in every later state. */
  lemma EndedAttemptIsSkipped(s: State, a: Id, steps: seq<Step>, delayMillis: nat, ids: NewIds)
    requires Valid(s) && a in s.attempts && !s.attempts[a].status.Executing()
    ensures var u := Run(s, steps); ReconcileDueTimeout(u, a, delayMillis, ids) == (u, Ok(SKIPPED))
  {
    var u := Run(s, steps);
    RunExtends(s, steps);
    assert a in u.attempts && u.attempts[a] == s.attempts[a] by { assert Grows(JobAttempts, s, u); }
  }

  lemma OnlyLapsedLeaseIsReconciled(s: State, l: Id, delayMillis: nat, ids: NewIds)
    ensures var r := ReconcileExpiredLease(s, l, delayMillis, ids);
            r.0 == s || (Candidate(LeaseScan, s, l) && r.1.Ok?)
  {
  }

  lemma ReconciliationCloses(s: State, l: Id, delayMillis: nat, ids: NewIds, t: State)
    requires Valid(s) && t == Apply(s, ExpiredLeaseStep(l, delayMillis, ids)) && t != s
    ensures l in t.leases && !t.leases[l].status.LeaseActive?
  {
    OnlyLapsedLeaseIsReconciled(s, l, delayMillis, ids);
    ExtendsItself(s);
    LeaseTurn(s, s, l, Turn([], delayMillis, ids));
  }

  /** A lapsed lease is reconciled once: after the first replica's commit every other finds it closed. */
  lemma LeaseReconciledOnce(s: State, l: Id, delayMillis: nat, ids: NewIds, steps: seq<Step>, delayMillis': nat, ids': NewIds)
    requires Valid(s) && Apply(s, ExpiredLeaseStep(l, delayMillis, ids)) != s
    ensures var u := Run(Apply(s, ExpiredLeaseStep(l, delayMillis, ids)), steps);
            ReconcileExpiredLease(u, l, delayMillis', ids') == (u, Ok(SKIPPED))
  {
    var t := Apply(s, ExpiredLeaseStep(l, delayMillis, ids));
    StepValid(s, ExpiredLeaseStep(l, delayMillis, ids));
    assert l in t.leases && !t.leases[l].status.LeaseActive? by { ReconciliationCloses(s, l, delayMillis, ids, t); }
    ClosedLeaseIsSkipped(t, l, steps, delayMillis', ids');
  }

  lemma TimeoutEnds(s: State, a: Id, delayMillis: nat, ids: NewIds)
    requires ReconcileDueTimeout(s, a, delayMillis, ids).0 != s
    ensures var t := ReconcileDueTimeout(s, a, delayMillis, ids).0; a in t.attempts && t.attempts[a].status.AttemptTimedOut?
  {
    var f := FenceOf(s.leases, LeaseOf(s.leases, a));
    assert f.attempt == a && ReconcileDueTimeout(s, a, delayMillis, ids) == FinalizeTimeout(s, f, delayMillis, ids);
  }

  /** A due timeout is recorded once. */
  lemma TimeoutReconciledOnce(s: State, a: Id, delayMillis: nat, ids: NewIds, steps: seq<Step>, delayMillis': nat, ids': NewIds)
    requires Valid(s) && ReconcileDueTimeout(s, a, delayMillis, ids).0 != s
    ensures var u := Run(ReconcileDueTimeout(s, a, delayMillis, ids).0, steps);
            ReconcileDueTimeout(u, a, delayMillis', ids') == (u, Ok(SKIPPED))
  {
    var step := DueTimeoutStep(a, delayMillis, ids);
    StepValid(s, step);
    TimeoutEnds(s, a, delayMillis, ids);
    EndedAttemptIsSkipped(Apply(s, step), a, steps, delayMillis', ids');
  }

  /** A session is marked stale once, whatever thresholds the replicas use. */
  lemma SessionMarkedOnce(s: State, i: Id, staleAfter: int, steps: seq<Step>, staleAfter': int)
    requires Valid(s) && MarkSessionStale(s, i, staleAfter).1
    ensures var u := Run(MarkSessionStale(s, i, staleAfter).0, steps); MarkSessionStale(u, i, staleAfter') == (u, false)
  {
    var step := MarkStaleStep(i, staleAfter);
    var t := Apply(s, step);
    StepValid(s, step);
    RunExtends(t, steps);
    assert Grows(WorkerSessions, t, Run(t, steps));
  }

  /** A job is promoted a second time only after another attempt was made. */
  lemma PromotedOncePerAttempt(s: State, j: Id, event: Id, steps: seq<Step>, event': Id)
    requires Valid(s) && PromoteDueJob(s, j, event).1 == Ok(true)
    ensures var t := PromoteDueJob(s, j, event).0;
            var u := Run(t, steps);
            Used(u.attempts, j) <= Used(t.attempts, j) ==> PromoteDueJob(u, j, event') == (u, Ok(false))
  {
    var step := PromoteStep(j, event);
    var t := Apply(s, step);
    StepValid(s, step);
    StatusChangesAreBounded(t, steps, j);
    RunExtends(t, steps);
    assert Grows(Jobs, t, Run(t, steps));
  }
}
