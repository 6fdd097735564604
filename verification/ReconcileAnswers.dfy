/** When the reconcilers act on a row, and what they leave, as conditions on the rows alone. */
module ReconcileAnswers {
  import opened Base
  import opened Schema
  import opened Transactions
  import opened Invariants
  import opened ReportAnswers

  // ------------------------------------------------------------------ timeouts

  /** What a recorded timeout leaves: with budget it retries after exactly the drawn delay. */
  lemma TimeoutWrites(s: State, f: Fence, delayMillis: nat, ids: NewIds)
    requires f.job in s.jobs && f.attempt in s.attempts && f.lease in s.leases && s.leases[f.lease].status.LeaseActive?
    requires FinalizeTimeout(s, f, delayMillis, ids).1.Ok?
    ensures var (t, reply) := FinalizeTimeout(s, f, delayMillis, ids);
            var retried := s.attempts[f.attempt].number < s.jobs[f.job].spec.maxAttempts;
            && Ended(s, t, f, AttemptTimedOut, ClassTimedOut, CODE_TIMEOUT, MESSAGE_TIMEOUT, None,
                     if s.leases[f.lease].expiresAt <= s.now then LeaseExpired else LeaseReleased)
            && (retried ==> Retries(t, f.job, f.attempt, s.now, delayMillis))
            && (retried && delayMillis == 0 ==> Readvertised(s, t, f.job, ids.event))
            && (!retried ==> Buried(t, f.job, f.attempt, s.now, ids.dlq, ReasonAttemptsExhausted))
            && reply.value == ReconcileStats(0, 1, 0, 0, if retried then 1 else 0, if retried then 0 else 1, 0)
  {
    var d := Decide(ClassTimedOut, s.attempts[f.attempt].number, s.jobs[f.job].spec.maxAttempts, delayMillis);
    DecisionWrites(s, f, TimeoutOutcome(s.leases[f.lease], s.now), d.value, ids);
  }

  /** The only lease of the attempt. */
  predicate LeaseFor(s: State, l: Id, a: Id) {
    l in s.leases && s.leases[l].attempt == a
  }

  lemma OnlyLease(s: State, l: Id, a: Id)
    requires Valid(s) && LeaseFor(s, l, a)
    ensures HasLease(s.leases, a) && LeaseOf(s.leases, a) == l
    ensures Bound(s, s.leases[l].binding.scope, FenceOf(s.leases, l))
  {
    assert HasLease(s.leases, a);
    assert Holds(BindingLaw, s);
    assert SameAttempt(s.leases, l, LeaseOf(s.leases, a));
  }

  /** The timeout reconciler acts exactly on a RUNNING job's attempt past its deadline under a live lease. */
  lemma DueTimeoutAnswers(s: State, a: Id, l: Id, delayMillis: nat, ids: NewIds)
    requires Valid(s) && LeaseFor(s, l, a)
    ensures var r := ReconcileDueTimeout(s, a, delayMillis, ids);
            var f := FenceOf(s.leases, l);
            var due := Live(s, l) && Overdue(s, a) && JobIs(s, f.job, {StatusRunning});
            && f.job in s.jobs && f.attempt in s.attempts
            && r == if due then FinalizeTimeout(s, f, delayMillis, ids) else (s, Ok(SKIPPED))
  {
    var f := FenceOf(s.leases, l);
    OnlyLease(s, l, a);
    BoundIsFenced(s, s.leases[l].binding.scope, f);
    JobTellsAttempt(s, s.leases[l].binding.scope, f);
  }

  // ------------------------------------------------------------------- lapses

  /** What an abandonment leaves: with budget the job is advertised again at once. */
  lemma AbandonmentWrites(s: State, f: Fence, delayMillis: nat, ids: NewIds)
    requires f.job in s.jobs && f.attempt in s.attempts && f.lease in s.leases
    requires var d := Decide(ClassAbandoned, s.attempts[f.attempt].number, s.jobs[f.job].spec.maxAttempts, delayMillis);
             d.Some? && FinalizeAttempt(s, f, ABANDONED, d.value, ids).1.Ok?
    ensures var d := Decide(ClassAbandoned, s.attempts[f.attempt].number, s.jobs[f.job].spec.maxAttempts, delayMillis);
            var t := FinalizeAttempt(s, f, ABANDONED, d.value, ids).0;
            var retried := s.attempts[f.attempt].number < s.jobs[f.job].spec.maxAttempts;
            && Ended(s, t, f, AttemptAbandoned, ClassAbandoned, CODE_ABANDONED, MESSAGE_ABANDONED, None, LeaseExpired)
            && (retried ==> Retries(t, f.job, f.attempt, s.now, 0) && Readvertised(s, t, f.job, ids.event))
            && (!retried ==> Buried(t, f.job, f.attempt, s.now, ids.dlq, ReasonAttemptsExhausted))
  {
    var d := Decide(ClassAbandoned, s.attempts[f.attempt].number, s.jobs[f.job].spec.maxAttempts, delayMillis);
    DecisionWrites(s, f, ABANDONED, d.value, ids);
  }

  /** The deadline came no later than the lapse. */
  predicate DeadlineFirst(s: State, a: Id, l: Id) {
    && a in s.attempts && l in s.leases && s.attempts[a].timeoutAt.Some?
    && s.attempts[a].timeoutAt.value <= s.leases[l].expiresAt
  }

  datatype Lapse = NotUp | Canceled | TimedOut | Abandoned

  /**
   An ACTIVE lease whose time is up ends its attempt: a job whose cancellation was requested is canceled, otherwise
   the attempt timed out if its deadline came no later than the lapse, otherwise it was abandoned.
   */
  function LapseOf(s: State, l: Id): Lapse
    requires l in s.leases
  {
    if s.leases[l].status != LeaseActive || s.now < s.leases[l].expiresAt then NotUp
    else if JobIs(s, s.leases[l].binding.job, {StatusCancelRequested}) then Canceled
    else if DeadlineFirst(s, s.leases[l].attempt, l) then TimedOut
    else Abandoned
  }

  lemma LeaseFence(s: State, l: Id)
    requires Valid(s) && l in s.leases
    ensures var f := FenceOf(s.leases, l);
            && f.job in s.jobs && f.attempt in s.attempts && f.lease in s.leases && Fenced(s, s.leases[l].binding.scope, f)
            && (s.leases[l].status.LeaseActive? ==>
                  s.attempts[f.attempt].status.Executing() && StatusesAgree(s.jobs[f.job].status, s.attempts[f.attempt].status))
  {
    OnlyLease(s, l, s.leases[l].attempt);
    BoundIsFenced(s, s.leases[l].binding.scope, FenceOf(s.leases, l));
    JobTellsAttempt(s, s.leases[l].binding.scope, FenceOf(s.leases, l));
  }

  /** The lease reconciler does exactly what the lapse calls for. */
  lemma ExpiredLeaseAnswers(s: State, l: Id, delayMillis: nat, ids: NewIds)
    requires Valid(s) && l in s.leases
    ensures var f := FenceOf(s.leases, l); f.job in s.jobs && f.attempt in s.attempts && f.lease in s.leases
    ensures var t := ReconcileExpiredLease(s, l, delayMillis, ids).0;
            var f := FenceOf(s.leases, l);
            var d := Decide(ClassAbandoned, s.attempts[f.attempt].number, s.jobs[f.job].spec.maxAttempts, delayMillis);
            d.Some? && t == match LapseOf(s, l)
                            case NotUp => s
                            case Canceled => FinalizeCancellation(s, f, None, LeaseExpired).0
                            case TimedOut => FinalizeTimeout(s, f, delayMillis, ids).0
                            case Abandoned => FinalizeAttempt(s, f, ABANDONED, d.value, ids).0
  {
    LeaseFence(s, l);
  }

  /** And it counts what it did. */
  lemma ExpiredLeaseCounts(s: State, l: Id, delayMillis: nat, ids: NewIds)
    requires Valid(s) && l in s.leases && ReconcileExpiredLease(s, l, delayMillis, ids).1.Ok?
    ensures var f := FenceOf(s.leases, l); f.job in s.jobs && f.attempt in s.attempts
    ensures var f := FenceOf(s.leases, l);
            var retried: nat := if s.attempts[f.attempt].number < s.jobs[f.job].spec.maxAttempts then 1 else 0;
            ReconcileExpiredLease(s, l, delayMillis, ids).1.value == match LapseOf(s, l)
                            case NotUp => ReconcileStats(0, 0, 0, 0, 0, 0, 1)
                            case Canceled => ReconcileStats(1, 0, 1, 0, 0, 0, 0)
                            case TimedOut => ReconcileStats(1, 1, 0, 0, retried, 1 - retried, 0)
                            case Abandoned => ReconcileStats(1, 0, 0, retried, 0, 1 - retried, 0)
  {
    LeaseFence(s, l);
  }
}
