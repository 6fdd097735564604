/** Transactions that end an attempt take valid states to valid states. */
module Endings {
  import opened Base
  import opened Schema
  import opened Transactions
  import opened Invariants
  import opened Effects

  /** The fence names a lease, its attempt and its job, and the attempt is executing. */
  predicate Executes(s: State, f: Fence) {
    && f.lease in s.leases && s.leases[f.lease].attempt == f.attempt
    && f.attempt in s.attempts && s.attempts[f.attempt].binding.job == f.job
    && s.attempts[f.attempt].status.Executing()
    && f.job in s.jobs
  }

  /** In a valid state the lease row alone decides whether a fence is accepted. */
  lemma FenceIsTheLeaseRow(s: State, scope: Name, f: Fence)
    requires Bindings(s.sessions, s.jobs, s.attempts, s.leases)
    ensures Fenced(s, scope, f) <==> f.lease in s.leases && LeaseMatches(s.leases[f.lease], scope, f)
    ensures Fenced(s, scope, f) ==>
              && s.attempts[f.attempt].binding == s.leases[f.lease].binding
              && SessionMatches(s, scope, f.worker, f.session)
              && s.jobs[f.job].scope == scope && s.jobs[f.job].spec.queue == s.leases[f.lease].binding.queue
  {
  }

  lemma ExecutingStatuses(s: State, f: Fence)
    requires Valid(s) && Executes(s, f)
    ensures s.jobs[f.job].status.Held()
    ensures StatusesAgree(s.jobs[f.job].status, s.attempts[f.attempt].status)
    ensures s.leases[f.lease].status.LeaseActive?
  {
    assert Holds(AuthorityLaw, s);
  }

  lemma ExecutingNumber(s: State, f: Fence)
    requires Valid(s) && Executes(s, f)
    ensures s.attempts[f.attempt].number == Used(s.attempts, f.job) <= s.jobs[f.job].spec.maxAttempts
  {
    assert Holds(NumberLaw, s) && Holds(BudgetLaw, s);
  }

  /** What an executing attempt says about its job, its number and its lease. */
  lemma ExecutingFacts(s: State, f: Fence)
    requires Valid(s) && Executes(s, f)
    ensures s.jobs[f.job].status.Held()
    ensures StatusesAgree(s.jobs[f.job].status, s.attempts[f.attempt].status)
    ensures s.leases[f.lease].status.LeaseActive?
    ensures s.attempts[f.attempt].number == Used(s.attempts, f.job) <= s.jobs[f.job].spec.maxAttempts
    ensures JobRow(s.jobs[f.job], s.now)
    ensures AttemptRow(s.attempts[f.attempt], s.now)
    ensures LeaseRow(s.leases[f.lease], s.now, s.leaseDuration)
  {
    ExecutingStatuses(s, f);
    ExecutingNumber(s, f);
    assert Holds(JobRowLaw, s) && Holds(AttemptRowLaw, s) && Holds(LeaseRowLaw, s);
  }

  lemma ExecutingAlone(s: State, f: Fence)
    requires Valid(s) && Executes(s, f)
    ensures forall b :: ExecutingAttempt(s.attempts, b, f.job) ==> b == f.attempt
    ensures forall l :: l in s.leases && s.leases[l].attempt == f.attempt ==> l == f.lease
  {
    assert Holds(NumberLaw, s) && Holds(BindingLaw, s);
    forall b | ExecutingAttempt(s.attempts, b, f.job) ensures b == f.attempt {
      OneExecuting(s.attempts, b, f.attempt, f.job);
    }
    forall l | l in s.leases && s.leases[l].attempt == f.attempt ensures l == f.lease {
      assert SameAttempt(s.leases, l, f.lease);
    }
  }

  // ---------------------------------------------------- ending an attempt

  /** The rows that success, cancellation, retry, requeue and dead-lettering may write. */
  ghost predicate Ends(s: State, f: Fence, job: Job, attempt: Attempt, lease: Lease)
    requires Executes(s, f)
  {
    && job.scope == s.jobs[f.job].scope && job.spec == s.jobs[f.job].spec && job.replayedFrom == s.jobs[f.job].replayedFrom
    && !job.status.Held()
    && attempt.binding == s.attempts[f.attempt].binding && attempt.number == s.attempts[f.attempt].number
    && !attempt.status.Executing() && EndsAs(attempt, job)
    && (attempt.retryDelayMillis.Some? || job.status.Waiting() ==> attempt.number < job.spec.maxAttempts)
    && lease == s.leases[f.lease].(status := lease.status, releasedAt := lease.releasedAt) && !lease.status.LeaseActive?
    && (lease.status.LeaseCompleted? <==> attempt.status.AttemptSucceeded?)
    && JobRow(job, s.now) && AttemptRow(attempt, s.now) && LeaseRow(lease, s.now, s.leaseDuration)
    && (|| attempt.outcomeId == s.attempts[f.attempt].outcomeId
        || (attempt.outcomeId.Some? && !OutcomeTaken(s.attempts, f.attempt, attempt.outcomeId.value)))
  }

  lemma SettledEnded(s: State, f: Fence, job: Job, attempt: Attempt, lease: Lease)
    requires Valid(s) && Executes(s, f) && Ends(s, f, job, attempt, lease)
    ensures Settled(s.jobs[f.job := job], s.attempts[f.attempt := attempt])
  {
    ExecutingStatuses(s, f);
    ExecutingNumber(s, f);
    assert Holds(SettledLaw, s);
    SettledClosed(s.jobs, s.attempts, f.job, job, f.attempt, attempt);
  }

  /** Ending an attempt keeps every law that does not mention events, dead letters or results. */
  lemma EndHolds(s: State, f: Fence, job: Job, attempt: Attempt, lease: Lease, t: State, law: Law)
    requires Valid(s) && Executes(s, f) && Ends(s, f, job, attempt, lease)
    requires t == Commit(s, f, job, attempt, lease, t.events, t.dlq, t.results)
    requires !law.EventRowLaw? && !law.NotificationLaw? && !law.DeadLetterLaw? && !law.ResultLaw?
    ensures Holds(law, t)
  {
    assert Holds(law, s);
    match law
    case JobRowLaw => JobRowUpdated(s.jobs, s.now, f.job, job);
    case AttemptRowLaw => AttemptRowUpdated(s.attempts, s.now, f.attempt, attempt);
    case LeaseRowLaw => LeaseRowUpdated(s.leases, s.now, s.leaseDuration, f.lease, lease);
    case BindingLaw =>
      BindingsUpdated(s.sessions, s.jobs, s.attempts, s.leases, f.job, job, f.attempt, attempt, f.lease, lease);
    case AuthorityLaw =>
      ExecutingAlone(s, f);
      AuthorityClosed(s.jobs, s.attempts, s.leases, f.job, job, f.attempt, attempt, f.lease, lease);
    case NumberLaw => NumbersUpdated(s.attempts, f.attempt, attempt);
    case BudgetLaw =>
      ExecutingNumber(s, f);
      BudgetUpdated(s.jobs, s.attempts, f.job, job, f.attempt, attempt);
    case SettledLaw => SettledEnded(s, f, job, attempt, lease);
    case CapacityLaw => CapacityUpdated(s.queues, s.sessions, s.leases, f.lease, lease);
    case IdentityLaw => IdentitiesUpdated(s.attempts, s.leases, f.attempt, attempt, f.lease, lease);
    case SourceLaw => SourcesOfJob(s.queues, s.jobs, s.submissions, s.replays, f.job, job);
    case SubmissionLaw =>
      ExecutingStatuses(s, f);
      SubmissionsOfJob(s.jobs, s.submissions, s.replays, f.job, job);
    case _ =>
  }

  /** Ending an attempt in RETRY_WAIT or CANCELED: no event, no dead letter, no result. */
  lemma EndQuietly(s: State, f: Fence, job: Job, attempt: Attempt, lease: Lease)
    requires Valid(s) && Executes(s, f) && Ends(s, f, job, attempt, lease)
    requires job.generation == s.jobs[f.job].generation && !job.status.StatusDeadLettered?
    ensures Valid(Commit(s, f, job, attempt, lease, s.events, s.dlq, s.results))
  {
    var t := Commit(s, f, job, attempt, lease, s.events, s.dlq, s.results);
    ExecutingStatuses(s, f);
    forall law ensures Holds(law, t) {
      match law
      case EventRowLaw => assert Holds(law, s);
      case NotificationLaw => assert Holds(law, s); NotificationsOfJob(s.jobs, s.events, f.job, job);
      case DeadLetterLaw =>
        assert Holds(law, s);
        DeadLettersUntouched(s.jobs, s.attempts, s.dlq, f.job, job, f.attempt, attempt);
      case ResultLaw =>
        assert Holds(law, s);
        ResultsUntouched(s.jobs, s.attempts, s.results, f.job, job, f.attempt, attempt);
      case _ => EndHolds(s, f, job, attempt, lease, t, law);
    }
  }

  lemma EndInQueue(s: State, f: Fence, job: Job, attempt: Attempt, lease: Lease, e: Id)
    requires Valid(s) && Executes(s, f) && Ends(s, f, job, attempt, lease)
    requires job.generation == s.jobs[f.job].generation + 1 && !job.status.StatusDeadLettered?
    requires e !in s.events
    ensures Valid(Commit(s, f, job, attempt, lease,
                         s.events[e := NewEvent(f.job, job.spec.queue, job.generation, s.now)], s.dlq, s.results))
  {
    var event := NewEvent(f.job, job.spec.queue, job.generation, s.now);
    var t := Commit(s, f, job, attempt, lease, s.events[e := event], s.dlq, s.results);
    ExecutingStatuses(s, f);
    forall law ensures Holds(law, t) {
      match law
      case EventRowLaw => assert Holds(law, s); EventRowUpdated(s.events, s.now, e, event);
      case NotificationLaw => assert Holds(law, s); NotificationsAdded(s.jobs, s.events, f.job, job, e, event);
      case DeadLetterLaw =>
        assert Holds(law, s);
        DeadLettersUntouched(s.jobs, s.attempts, s.dlq, f.job, job, f.attempt, attempt);
      case ResultLaw =>
        assert Holds(law, s);
        ResultsUntouched(s.jobs, s.attempts, s.results, f.job, job, f.attempt, attempt);
      case _ => EndHolds(s, f, job, attempt, lease, t, law);
    }
  }

  lemma EndInDeadLetter(s: State, f: Fence, job: Job, attempt: Attempt, lease: Lease, d: Id, entry: DlqEntry)
    requires Valid(s) && Executes(s, f) && Ends(s, f, job, attempt, lease)
    requires job.generation == s.jobs[f.job].generation && job.status.StatusDeadLettered? && Final(attempt)
    requires d !in s.dlq && entry == DlqEntry(job.scope, job.spec.queue, f.job, f.attempt, ReasonOf(attempt), s.now)
    requires entry.reason.ReasonAttemptsExhausted? ==> attempt.number == job.spec.maxAttempts
    ensures Valid(Commit(s, f, job, attempt, lease, s.events, s.dlq[d := entry], s.results))
  {
    var t := Commit(s, f, job, attempt, lease, s.events, s.dlq[d := entry], s.results);
    ExecutingStatuses(s, f);
    forall law ensures Holds(law, t) {
      match law
      case EventRowLaw => assert Holds(law, s);
      case NotificationLaw => assert Holds(law, s); NotificationsOfJob(s.jobs, s.events, f.job, job);
      case DeadLetterLaw =>
        assert Holds(law, s);
        DeadLettersAdded(s.jobs, s.attempts, s.dlq, f.job, job, f.attempt, attempt, d, entry);
      case ResultLaw =>
        assert Holds(law, s);
        ResultsUntouched(s.jobs, s.attempts, s.results, f.job, job, f.attempt, attempt);
      case _ => EndHolds(s, f, job, attempt, lease, t, law);
    }
  }

  lemma EndInSuccess(s: State, f: Fence, job: Job, attempt: Attempt, lease: Lease, body: Option<Document>,
                     results: map<Id, Result>)
    requires Valid(s) && Executes(s, f) && Ends(s, f, job, attempt, lease)
    requires job.generation == s.jobs[f.job].generation && job.status.StatusSucceeded? && attempt.status.AttemptSucceeded?
    requires results == if body.Some? then s.results[f.job := Result(f.attempt, job.scope, body.value)] else s.results
    ensures Valid(Commit(s, f, job, attempt, lease, s.events, s.dlq, results))
  {
    var t := Commit(s, f, job, attempt, lease, s.events, s.dlq, results);
    ExecutingStatuses(s, f);
    forall law ensures Holds(law, t) {
      match law
      case EventRowLaw => assert Holds(law, s);
      case NotificationLaw => assert Holds(law, s); NotificationsOfJob(s.jobs, s.events, f.job, job);
      case DeadLetterLaw =>
        assert Holds(law, s);
        DeadLettersUntouched(s.jobs, s.attempts, s.dlq, f.job, job, f.attempt, attempt);
      case ResultLaw =>
        assert Holds(law, s);
        ResultsUntouched(s.jobs, s.attempts, s.results, f.job, job, f.attempt, attempt);
        if body.Some? {
          ResultAdded(t.jobs, t.attempts, s.results, f.job, Result(f.attempt, job.scope, body.value));
        }
      case _ => EndHolds(s, f, job, attempt, lease, t, law);
    }
  }

  // ------------------------------------------------------- finalization

  /** The outcomes that failure reports and reconciliation record for an executing attempt. */
  predicate LegalOutcome(a: Attempt, l: Lease, now: Time, o: AttemptOutcome) {
    && o.leaseStatus == (if l.expiresAt <= now then LeaseExpired else LeaseReleased)
    && (match o.status
        case AttemptFailed =>
          o.failureClass.ReportableByHandler() && o.outcomeId.Some? && a.status.AttemptRunning? && !TimedOut(a, now)
        case AttemptTimedOut =>
          o.failureClass.ClassTimedOut? && o.outcomeId.None? && a.status.AttemptRunning? && TimedOut(a, now)
        case AttemptAbandoned => o.failureClass.ClassAbandoned? && o.outcomeId.None?
        case _ => false)
  }

  /** Retries stay within budget, permanent failures never retry, and exhaustion means the last attempt. */
  predicate LegalDecision(failure: FailureClass, number: nat, maxAttempts: nat, d: Decision) {
    match d
    case Retry(delay) =>
      number < maxAttempts && !failure.ClassPermanent? && (failure.ClassAbandoned? ==> delay == 0)
    case DeadLetter(reason) =>
      if failure.ClassPermanent? then reason.ReasonPermanentFailure?
      else reason.ReasonAttemptsExhausted? && number == maxAttempts
  }

  predicate Legal(s: State, f: Fence, o: AttemptOutcome, d: Decision)
    requires Executes(s, f)
  {
    && LegalOutcome(s.attempts[f.attempt], s.leases[f.lease], s.now, o)
    && LegalDecision(o.failureClass, s.attempts[f.attempt].number, s.jobs[f.job].spec.maxAttempts, d)
  }

  /** Passing the attempt number as the attempts used makes every decision legal. */
  lemma DecideIsLegal(failure: FailureClass, number: nat, maxAttempts: nat, delay: nat)
    requires number <= maxAttempts
    ensures Decide(failure, number, maxAttempts, delay).None? <==> failure.ClassCanceled?
    ensures !failure.ClassCanceled? ==>
              LegalDecision(failure, number, maxAttempts, Decide(failure, number, maxAttempts, delay).value)
    ensures forall millis :: Decide(failure, number, maxAttempts, delay) == Some(Retry(millis)) ==>
              millis == if failure.ClassAbandoned? then 0 else delay
  {
  }

  lemma FinalRows(s: State, f: Fence, o: AttemptOutcome, d: Decision)
    requires Executes(s, f) && s.jobs[f.job].status.Executing() && s.leases[f.lease].status.LeaseActive?
    requires JobRow(s.jobs[f.job], s.now) && AttemptRow(s.attempts[f.attempt], s.now)
    requires LeaseRow(s.leases[f.lease], s.now, s.leaseDuration)
    requires Legal(s, f, o, d)
    requires o.outcomeId.Some? ==> !OutcomeTaken(s.attempts, f.attempt, o.outcomeId.value)
    ensures Ends(s, f, FinalJob(s.jobs[f.job], d, s.now), Finished(s.attempts[f.attempt], o, d, s.now),
                 Closed(s.leases[f.lease], o.leaseStatus, s.now))
  {
  }

  lemma FinalizeAttemptValid(s: State, f: Fence, o: AttemptOutcome, d: Decision, ids: NewIds)
    requires Valid(s) && Executes(s, f) && s.jobs[f.job].status.Executing()
    requires Legal(s, f, o, d)
    requires o.outcomeId.Some? ==> !OutcomeTaken(s.attempts, f.attempt, o.outcomeId.value)
    ensures Valid(FinalizeAttempt(s, f, o, d, ids).0)
  {
    var job, now := FinalJob(s.jobs[f.job], d, s.now), s.now;
    var attempt, lease := Finished(s.attempts[f.attempt], o, d, now), Closed(s.leases[f.lease], o.leaseStatus, now);
    ExecutingFacts(s, f);
    FinalRows(s, f, o, d);
    if FinalizeAttempt(s, f, o, d, ids).1.Ok? {
      match d
      case DeadLetter(reason) =>
        EndInDeadLetter(s, f, job, attempt, lease, ids.dlq,
                        DlqEntry(job.scope, job.spec.queue, f.job, f.attempt, reason, now));
      case Retry(delay) =>
        if delay > 0 {
          EndQuietly(s, f, job, attempt, lease);
        } else {
          EndInQueue(s, f, job, attempt, lease, ids.event);
        }
    }
  }

  lemma FencedExecutes(s: State, scope: Name, f: Fence)
    requires Valid(s) && Fenced(s, scope, f)
    ensures s.attempts[f.attempt].status.Executing() ==> Executes(s, f)
    ensures s.jobs[f.job].scope == scope
  {
    assert Holds(BindingLaw, s);
    FenceIsTheLeaseRow(s, scope, f);
  }

  lemma CanceledRows(s: State, f: Fence, outcomeId: Option<Id>, leaseStatus: LeaseStatus)
    requires Executes(s, f) && s.jobs[f.job].status.StatusCancelRequested?
    requires leaseStatus == if s.leases[f.lease].expiresAt <= s.now then LeaseExpired else LeaseReleased
    requires JobRow(s.jobs[f.job], s.now) && AttemptRow(s.attempts[f.attempt], s.now)
    requires LeaseRow(s.leases[f.lease], s.now, s.leaseDuration) && s.leases[f.lease].status.LeaseActive?
    requires outcomeId.Some? ==> !OutcomeTaken(s.attempts, f.attempt, outcomeId.value)
    ensures Ends(s, f, s.jobs[f.job].(status := StatusCanceled, updatedAt := s.now),
                 CanceledAttempt(s.attempts[f.attempt], outcomeId, s.now), Closed(s.leases[f.lease], leaseStatus, s.now))
  {
  }

  lemma FinalizeCancellationValid(s: State, f: Fence, outcomeId: Option<Id>, leaseStatus: LeaseStatus)
    requires Valid(s) && Executes(s, f) && s.jobs[f.job].status.StatusCancelRequested?
    requires leaseStatus == if s.leases[f.lease].expiresAt <= s.now then LeaseExpired else LeaseReleased
    requires outcomeId.Some? ==> !OutcomeTaken(s.attempts, f.attempt, outcomeId.value)
    ensures Valid(FinalizeCancellation(s, f, outcomeId, leaseStatus).0)
  {
    ExecutingFacts(s, f);
    CanceledRows(s, f, outcomeId, leaseStatus);
    EndQuietly(s, f, s.jobs[f.job].(status := StatusCanceled, updatedAt := s.now),
               CanceledAttempt(s.attempts[f.attempt], outcomeId, s.now), Closed(s.leases[f.lease], leaseStatus, s.now));
  }

  lemma SucceedValid(s: State, scope: Name, f: Fence, body: Option<Document>)
    requires Valid(s)
    ensures Valid(Succeed(s, scope, f, body).0)
  {
    if Fenced(s, scope, f) {
      var job, a, l := s.jobs[f.job], s.attempts[f.attempt], s.leases[f.lease];
      if job.status.StatusRunning? && a.status.AttemptRunning? && LeaseUsable(l, s.now) && !TimedOut(a, s.now) {
        FencedExecutes(s, scope, f);
        ExecutingFacts(s, f);
        EndInSuccess(s, f, job.(status := StatusSucceeded, updatedAt := s.now),
                     a.(status := AttemptSucceeded, finishedAt := Some(s.now)), Closed(l, LeaseCompleted, s.now), body,
                     if body.Some? then s.results[f.job := Result(f.attempt, scope, body.value)] else s.results);
      }
    }
  }

  lemma FailValid(s: State, scope: Name, r: FailureReport, delayMillis: nat, ids: NewIds)
    requires Valid(s)
    ensures Valid(Fail(s, scope, r, delayMillis, ids).0)
  {
    var f := r.fence;
    if Fenced(s, scope, f) && r.failureClass.ReportableByHandler() && s.attempts[f.attempt].status.AttemptRunning? {
      FencedExecutes(s, scope, f);
      ExecutingFacts(s, f);
      DecideIsLegal(r.failureClass, s.attempts[f.attempt].number, s.jobs[f.job].spec.maxAttempts, delayMillis);
      if s.jobs[f.job].status.StatusRunning? && !OutcomeTaken(s.attempts, f.attempt, r.outcomeId)
         && LeaseUsable(s.leases[f.lease], s.now) && !TimedOut(s.attempts[f.attempt], s.now)
      {
        FinalizeAttemptValid(s, f, ReportedOutcome(r),
                             Decide(r.failureClass, s.attempts[f.attempt].number, s.jobs[f.job].spec.maxAttempts,
                                    delayMillis).value, ids);
      }
    }
  }

  lemma AcknowledgeCancellationValid(s: State, scope: Name, f: Fence, outcomeId: Id)
    requires Valid(s)
    ensures Valid(AcknowledgeCancellation(s, scope, f, outcomeId).0)
  {
    if Fenced(s, scope, f) && s.attempts[f.attempt].status.Executing() && s.jobs[f.job].status.StatusCancelRequested?
       && !OutcomeTaken(s.attempts, f.attempt, outcomeId) && LeaseUsable(s.leases[f.lease], s.now)
    {
      FencedExecutes(s, scope, f);
      FinalizeCancellationValid(s, f, Some(outcomeId), LeaseReleased);
    }
  }

  lemma FinalizeTimeoutValid(s: State, f: Fence, delayMillis: nat, ids: NewIds)
    requires Valid(s) && Executes(s, f)
    requires s.jobs[f.job].status.StatusRunning? && s.attempts[f.attempt].status.AttemptRunning?
    requires TimedOut(s.attempts[f.attempt], s.now)
    ensures Valid(FinalizeTimeout(s, f, delayMillis, ids).0)
  {
    ExecutingFacts(s, f);
    DecideIsLegal(ClassTimedOut, s.attempts[f.attempt].number, s.jobs[f.job].spec.maxAttempts, delayMillis);
    FinalizeAttemptValid(s, f, TimeoutOutcome(s.leases[f.lease], s.now),
                         Decide(ClassTimedOut, s.attempts[f.attempt].number, s.jobs[f.job].spec.maxAttempts,
                                delayMillis).value, ids);
  }

  lemma ReconcileDueTimeoutValid(s: State, attempt: Id, delayMillis: nat, ids: NewIds)
    requires Valid(s)
    ensures Valid(ReconcileDueTimeout(s, attempt, delayMillis, ids).0)
  {
    if HasLease(s.leases, attempt) {
      var l := LeaseOf(s.leases, attempt);
      var f := FenceOf(s.leases, l);
      if Fenced(s, s.leases[l].binding.scope, f) {
        FencedExecutes(s, s.leases[l].binding.scope, f);
        if s.jobs[f.job].status.StatusRunning? && s.attempts[f.attempt].status.AttemptRunning?
           && TimedOut(s.attempts[f.attempt], s.now)
        {
          FinalizeTimeoutValid(s, f, delayMillis, ids);
        }
      }
    }
  }

  /** A timeout column is only ever set on an attempt that started, so the lapse verdict fits its attempt. */
  lemma ReconcileExpiredLeaseValid(s: State, l: Id, delayMillis: nat, ids: NewIds)
    requires Valid(s)
    ensures Valid(ReconcileExpiredLease(s, l, delayMillis, ids).0)
  {
    if l in s.leases {
      var f := FenceOf(s.leases, l);
      if Fenced(s, s.leases[l].binding.scope, f) && s.attempts[f.attempt].status.Executing() {
        var job, a := s.jobs[f.job], s.attempts[f.attempt];
        FencedExecutes(s, s.leases[l].binding.scope, f);
        ExecutingFacts(s, f);
        if s.now < s.leases[l].expiresAt {
        } else if job.status.StatusCancelRequested? {
          FinalizeCancellationValid(s, f, None, LeaseExpired);
        } else if a.status.AttemptRunning? && TimedOutBeforeLapse(a, s.leases[l], s.now) {
          FinalizeTimeoutValid(s, f, delayMillis, ids);
        } else {
          DecideIsLegal(ClassAbandoned, a.number, job.spec.maxAttempts, delayMillis);
          FinalizeAttemptValid(s, f, ABANDONED, Decide(ClassAbandoned, a.number, job.spec.maxAttempts, delayMillis).value, ids);
        }
      }
    }
  }
}
