/** What the drawn delay does to the job: the retry policy meets the finalization of a failed or timed-out attempt. */
module Backoff {
  import opened Base
  import opened Schema
  import opened Transactions
  import opened Invariants
  import opened Steps
  import opened RetryPolicies
  import opened ReportAnswers
  import opened Scenarios

  /** The stored delay of one decision, in whole milliseconds. */
  function StoredMillis(p: Policy, n: int, sample: Option<real>): int
    requires p.Valid()
  {
    WholeMillis(Exact(p, n, sample)) / MILLI
  }

  /** Full jitter with a sample at the bottom of its range. */
  predicate DrawsNothing(p: Policy, sample: Option<real>) {
    p.jitter == 1.0 && sample.Some? && sample.value <= 0.0
  }

  lemma StoredMillisIsZero(p: Policy, n: int, sample: Option<real>)
    requires p.Valid()
    ensures 0 <= StoredMillis(p, n, sample)
    ensures StoredMillis(p, n, sample) == 0 <==> DrawsNothing(p, sample)
  {
    ZeroExactlyAtFullJitter(p, n, sample);
    var x := Exact(p, n, sample);
    if 0.0 < x {
      CeilingOfMillis(x, Ceiling(x / MILLI as real), 1);
    }
  }

  /**
   A retryable failure with budget left retries after exactly the policy's delay, in the rows and in the answer.
   It waits in RETRY_WAIT, except exactly when full jitter draws the bottom of its range: then the job is
   claimable again at once.
   */
  lemma RetryableFailureWaits(s: State, scope: Name, r: FailureReport, p: Policy, sample: Option<real>, delay: nat, ids: NewIds)
    requires p.Valid() && r.fence.attempt in s.attempts && r.fence.job in s.jobs
    requires delay == StoredMillis(p, s.attempts[r.fence.attempt].number, sample)
    requires r.failureClass.ClassRetryable? && s.attempts[r.fence.attempt].number < s.jobs[r.fence.job].spec.maxAttempts
    requires var done := Fail(s, scope, r, delay, ids).1; done.Ok? && !done.value.replayed
    ensures var done := Fail(s, scope, r, delay, ids).1.value;
            && (done.jobStatus.StatusRetryWait? <==> !DrawsNothing(p, sample))
            && (done.jobStatus.StatusQueued? <==> DrawsNothing(p, sample))
    ensures var (t, reply) := Fail(s, scope, r, delay, ids);
            var millis := StoredMillis(p, s.attempts[r.fence.attempt].number, sample);
            && Retries(t, r.fence.job, r.fence.attempt, s.now, millis)
            && reply.value.retryDelayMillis == Some(millis) && reply.value.retryAt == Some(s.now + millis * 1000)
  {
    StoredMillisIsZero(p, s.attempts[r.fence.attempt].number, sample);
    FailureWrites(s, scope, r, delay, ids);
  }

  // ----------------------------------------------------------------- timeouts

  /**
   A recorded timeout with budget left retries after exactly the policy's delay and counts as retry-waiting;
   the job waits unless, exactly, nothing was drawn.
   */
  ghost predicate TimedOutInto(s: State, t: State, j: Id, a: Id, reply: Reply<ReconcileStats>, p: Policy, sample: Option<real>)
    requires p.Valid() && a in s.attempts
  {
    var millis := StoredMillis(p, s.attempts[a].number, sample);
    && reply.Ok? && reply.value.timedOut == 1 && reply.value.retryWaiting == 1
    && 0 <= millis && Retries(t, j, a, s.now, millis)
    && j in t.jobs && (t.jobs[j].status.StatusRetryWait? <==> !DrawsNothing(p, sample))
    && (t.jobs[j].status.StatusQueued? <==> DrawsNothing(p, sample))
  }

  lemma TimeoutStatsCountWaiting(s: State, f: Fence, p: Policy, sample: Option<real>, delay: nat, ids: NewIds)
    requires p.Valid() && f.job in s.jobs && f.attempt in s.attempts && f.lease in s.leases
    requires delay == StoredMillis(p, s.attempts[f.attempt].number, sample)
    requires s.attempts[f.attempt].number < s.jobs[f.job].spec.maxAttempts && FinalizeTimeout(s, f, delay, ids).1.Ok?
    ensures var r := FinalizeTimeout(s, f, delay, ids); TimedOutInto(s, r.0, f.job, f.attempt, r.1, p, sample)
  {
    StoredMillisIsZero(p, s.attempts[f.attempt].number, sample);
    var d := Decide(ClassTimedOut, s.attempts[f.attempt].number, s.jobs[f.job].spec.maxAttempts, delay);
    DecisionWrites(s, f, TimeoutOutcome(s.leases[f.lease], s.now), d.value, ids);
  }

  /** Whenever the timeout reconciler records a timeout with budget left. */
  lemma DueTimeoutWaits(s: State, a: Id, p: Policy, sample: Option<real>, delay: nat, ids: NewIds)
    requires p.Valid() && a in s.attempts && delay == StoredMillis(p, s.attempts[a].number, sample)
    requires s.attempts[a].binding.job in s.jobs && s.attempts[a].number < s.jobs[s.attempts[a].binding.job].spec.maxAttempts
    requires Bindings(s.sessions, s.jobs, s.attempts, s.leases) && ReconcileDueTimeout(s, a, delay, ids).0 != s
    ensures var r := ReconcileDueTimeout(s, a, delay, ids); TimedOutInto(s, r.0, s.attempts[a].binding.job, a, r.1, p, sample)
  {
    var f := FenceOf(s.leases, LeaseOf(s.leases, a));
    assert ReconcileDueTimeout(s, a, delay, ids) == FinalizeTimeout(s, f, delay, ids) && f.attempt == a;
    TimeoutStatsCountWaiting(s, f, p, sample, delay, ids);
  }

  /** Whenever the lease reconciler finds that the deadline came first, with budget left and no cancellation. */
  lemma LapsedTimeoutWaits(s: State, l: Id, p: Policy, sample: Option<real>, delay: nat, ids: NewIds)
    requires p.Valid() && l in s.leases && s.leases[l].attempt in s.attempts && s.leases[l].binding.job in s.jobs
    requires var a, job := s.attempts[s.leases[l].attempt], s.jobs[s.leases[l].binding.job];
             && delay == StoredMillis(p, a.number, sample) && a.number < job.spec.maxAttempts
             && TimedOutBeforeLapse(a, s.leases[l], s.now) && !job.status.StatusCancelRequested?
    requires ReconcileExpiredLease(s, l, delay, ids).0 != s
    ensures var r := ReconcileExpiredLease(s, l, delay, ids);
            TimedOutInto(s, r.0, s.leases[l].binding.job, s.leases[l].attempt, r.1, p, sample) && r.1.value.expiredLeases == 1
  {
    TimeoutStatsCountWaiting(s, FenceOf(s.leases, l), p, sample, delay, ids);
  }

  // --------------------------------------------------- requeued at once, in a run

  /** One second doubling up to a minute, with full jitter. */
  const FULL_JITTER := Policy(1000 * MILLI, 60000 * MILLI, 2.0, 1.0)

  const REPORT := FailureReport(FENCE, 7, ClassRetryable, "E", "failed")

  function BottomDraw(): nat {
    var millis := StoredMillis(FULL_JITTER, 1, Some(0.0));
    if millis < 0 then 0 else millis
  }

  lemma BottomDrawIsZero()
    ensures StoredMillis(FULL_JITTER, 1, Some(0.0)) == BottomDraw() == 0
  {
    StoredMillisIsZero(FULL_JITTER, 1, Some(0.0));
  }

  /** A run in which a retryable failure of the first of two attempts is requeued at once. */
  lemma FailureSkipsRetryWait()
    ensures var s := Run(MIGRATED, OPENING);
            var r := Fail(s, 1, REPORT, BottomDraw(), NewIds(2, 2));
            && Started(s) && r.1.Ok? && r.1.value.attemptStatus.AttemptFailed? && r.1.value.jobStatus.StatusQueued?
            && r.0.jobs[1].status.StatusQueued?
  {
    Opens();
    BottomDrawIsZero();
  }

  lemma FirstTimeout(s: State)
    requires Started(s.(now := 0)) && 10 * SECOND <= s.now
    ensures 1 in s.jobs && 1 in s.attempts && 1 in s.leases
    ensures var r := FinalizeTimeout(s, FENCE, 0, NewIds(2, 2));
            r.1.Ok? && r.1.value.retryWaiting == 1 && 1 in r.0.jobs && r.0.jobs[1].status.StatusQueued?
  {
  }

  lemma DueTimeoutIsRecorded(s: State)
    requires Started(s.(now := 0)) && s.now == 10 * SECOND
    ensures 1 in s.jobs && 1 in s.attempts && 1 in s.leases
    ensures ReconcileDueTimeout(s, 1, 0, NewIds(2, 2)) == FinalizeTimeout(s, FENCE, 0, NewIds(2, 2))
  {
    assert s.leases[1].attempt == 1;
    assert LeaseOf(s.leases, 1) == 1;
  }

  lemma LapseFindsTimeout(s: State)
    requires Started(s.(now := 0)) && s.now == 30 * SECOND
    ensures 1 in s.jobs && 1 in s.attempts && 1 in s.leases
    ensures var r, done := ReconcileExpiredLease(s, 1, 0, NewIds(2, 2)), FinalizeTimeout(s, FENCE, 0, NewIds(2, 2));
            r.0 == done.0 && (done.1.Ok? ==> r.1 == Ok(done.1.value.Add(NO_STATS.(expiredLeases := 1))))
  {
    assert FenceOf(s.leases, 1) == FENCE && Fenced(s, 1, FENCE);
    assert TimedOutBeforeLapse(s.attempts[1], s.leases[1], s.now);
  }

  lemma After(elapsed: nat) returns (s: State)
    ensures s == Run(MIGRATED, OPENING + [TickStep(elapsed)]) && s.now == elapsed && Started(s.(now := 0))
  {
    Opens();
    RunMore(MIGRATED, OPENING, TickStep(elapsed));
    s := Run(MIGRATED, OPENING + [TickStep(elapsed)]);
  }

  /** A run in which a timeout of the first of two attempts is requeued at once, and counted as retry-waiting. */
  lemma TimeoutSkipsRetryWait()
    ensures var s := Run(MIGRATED, OPENING + [TickStep(10 * SECOND)]);
            var r := ReconcileDueTimeout(s, 1, BottomDraw(), NewIds(2, 2));
            r.1.Ok? && r.1.value.retryWaiting == 1 && 1 in r.0.jobs && r.0.jobs[1].status.StatusQueued?
  {
    var s := After(10 * SECOND);
    BottomDrawIsZero();
    FirstTimeout(s);
    DueTimeoutIsRecorded(s);
  }

  /** The same under the lease reconciler, which finds that the deadline came before the lapse. */
  lemma LapseSkipsRetryWait()
    ensures var s := Run(MIGRATED, OPENING + [TickStep(30 * SECOND)]);
            var r := ReconcileExpiredLease(s, 1, BottomDraw(), NewIds(2, 2));
            r.1.Ok? && r.1.value.retryWaiting == 1 && 1 in r.0.jobs && r.0.jobs[1].status.StatusQueued?
  {
    var s := After(30 * SECOND);
    BottomDrawIsZero();
    FirstTimeout(s);
    LapseFindsTimeout(s);
  }
}
