/**
 What a worker is answered, and what is written, as conditions on the rows alone. Each answer is given
 exactly when its condition holds; in a valid state the lease row, the session's health, the two instants
 and the job's status decide everything.
 */
module ReportAnswers {
  import opened Base
  import opened Schema
  import opened Transactions
  import opened Invariants
  import opened Endings

  // --------------------------------------------------------------- conditions

  /** No identity of the fence is missing. */
  predicate Named(f: Fence) {
    0 !in [f.job, f.attempt, f.lease, f.worker, f.session]
  }

  /** The lease row is bound to exactly this job, attempt, worker, session and scope. */
  predicate Bound(s: State, scope: Name, f: Fence) {
    f.lease in s.leases
    && s.leases[f.lease].attempt == f.attempt
    && s.leases[f.lease].binding == Binding(f.job, scope, s.leases[f.lease].binding.queue, f.worker, f.session)
  }

  predicate Healthy(s: State, session: Id) {
    session in s.sessions && s.sessions[session].status == SessionHealthy
  }

  predicate Live(s: State, lease: Id) {
    lease in s.leases && s.leases[lease].status == LeaseActive && s.now < s.leases[lease].expiresAt
  }

  predicate Overdue(s: State, attempt: Id) {
    attempt in s.attempts && s.attempts[attempt].timeoutAt.Some? && s.attempts[attempt].timeoutAt.value <= s.now
  }

  predicate JobIs(s: State, j: Id, statuses: set<JobStatus>) {
    j in s.jobs && s.jobs[j].status in statuses
  }

  /** The fence is held by a healthy session under a live lease. */
  predicate Held(s: State, scope: Name, f: Fence) {
    Bound(s, scope, f) && Healthy(s, f.session) && Live(s, f.lease)
  }

  lemma BoundIsFenced(s: State, scope: Name, f: Fence)
    requires Valid(s)
    ensures f.Complete() <==> Named(f)
    ensures Fenced(s, scope, f) <==> Bound(s, scope, f)
    ensures Bound(s, scope, f) ==> f.job in s.jobs && f.attempt in s.attempts && f.session in s.sessions
  {
    assert Holds(BindingLaw, s);
    FenceIsTheLeaseRow(s, scope, f);
  }

  /** A COMPLETED lease is a success that all three rows record. */
  lemma CompletedIsSucceeded(s: State, scope: Name, f: Fence)
    requires Valid(s) && Bound(s, scope, f) && f.job in s.jobs && f.attempt in s.attempts
    ensures s.leases[f.lease].status.LeaseCompleted? <==> s.attempts[f.attempt].status.AttemptSucceeded?
    ensures s.attempts[f.attempt].status.AttemptSucceeded? ==> s.jobs[f.job].status.StatusSucceeded?
  {
    assert Holds(AuthorityLaw, s);
    assert s.attempts[f.attempt].binding.job == f.job by { assert Holds(BindingLaw, s); }
    if s.attempts[f.attempt].status.AttemptSucceeded? {
      assert Final(s.attempts[f.attempt]) by { assert Holds(AttemptRowLaw, s); }
      assert Holds(SettledLaw, s);
    }
  }

  /** Under an ACTIVE lease the attempt executes, and the job's status tells which of the two it is. */
  lemma JobTellsAttempt(s: State, scope: Name, f: Fence)
    requires Valid(s) && Bound(s, scope, f)
    ensures f.job in s.jobs && f.attempt in s.attempts
    ensures s.leases[f.lease].status.LeaseActive? ==>
              && s.attempts[f.attempt].status.Executing()
              && StatusesAgree(s.jobs[f.job].status, s.attempts[f.attempt].status)
  {
    BoundIsFenced(s, scope, f);
    assert s.attempts[f.attempt].binding.job == f.job by { assert Holds(BindingLaw, s); }
    assert Holds(AuthorityLaw, s);
  }

  // ------------------------------------------------------------------- renewal

  ghost predicate CarriedByAnother(s: State, lease: Id, id: Id) {
    exists m :: m in s.leases && m != lease && s.leases[m].lastRenewalId == Some(id)
  }

  /** The identity may take the lease from the expected version to the next. */
  ghost predicate NextRenewal(s: State, lease: Id, id: Id, expected: int) {
    && lease in s.leases && s.leases[lease].lastRenewalId != Some(id) && !CarriedByAnother(s, lease, id)
    && s.leases[lease].renewalVersion == expected
  }

  /** The identity is the one that made the current version, out of the expected one. */
  predicate SameRenewal(s: State, lease: Id, id: Id, expected: int) {
    lease in s.leases && s.leases[lease].lastRenewalId == Some(id) && s.leases[lease].renewalVersion == expected + 1
  }

  ghost predicate RenewalAnswer(s: State, scope: Name, f: Fence, id: Id, expected: int, reply: Reply<RenewalResult>) {
    var named := Named(f) && id != 0 && 0 <= expected;
    var known := named && Bound(s, scope, f) && Healthy(s, f.session);
    var live := known && Live(s, f.lease);
    var timely := live && !Overdue(s, f.attempt);
    var running := timely && JobIs(s, f.job, {StatusLeased, StatusRunning});
    && (reply == Err(ErrValidation) <==> !named)
    && (reply == Err(ErrFenceRejected) <==> named && !known)
    && (reply == Err(ErrLeaseExpired) <==> known && !live)
    && (reply == Err(ErrAttemptTimedOut) <==> live && !timely)
    && (reply == Err(ErrStateConflict) <==> timely && !running)
    && (reply == Err(ErrRenewalConflict) <==>
          running && !NextRenewal(s, f.lease, id, expected) && !SameRenewal(s, f.lease, id, expected))
    && (reply.Ok? && !reply.value.replayed <==> running && NextRenewal(s, f.lease, id, expected))
    && (reply.Ok? && reply.value.replayed <==> running && SameRenewal(s, f.lease, id, expected))
  }

  /** When a renewal is granted, repeated, or refused with which error. */
  lemma RenewalAnswers(s: State, scope: Name, f: Fence, id: Id, expected: int)
    requires Valid(s)
    ensures RenewalAnswer(s, scope, f, id, expected, RenewLease(s, scope, f, id, expected).1)
  {
    BoundIsFenced(s, scope, f);
    if Bound(s, scope, f) {
      JobTellsAttempt(s, scope, f);
    }
    assert CarriedByAnother(s, f.lease, id) <==> RenewalTaken(s.leases, f.lease, id);
  }

  /** A granted renewal opens a full new window one version on and writes nothing else. */
  lemma RenewalWrites(s: State, scope: Name, f: Fence, id: Id, expected: int)
    requires RenewLease(s, scope, f, id, expected).1.Ok? && f.lease in s.leases
    ensures var (t, reply) := RenewLease(s, scope, f, id, expected);
            var l := s.leases[f.lease];
            && f.lease in t.leases
            && reply.value.lease == f.lease && reply.value.renewalVersion == t.leases[f.lease].renewalVersion == expected + 1
            && reply.value.expiresAt == t.leases[f.lease].expiresAt
            && reply.value.remaining == (if s.now <= reply.value.expiresAt then reply.value.expiresAt - s.now else 0)
            && (reply.value.replayed ==> t == s)
            && (!reply.value.replayed ==>
                  && t == s.(leases := t.leases) && t.leases.Keys == s.leases.Keys
                  && t.leases[f.lease] == Lease(l.binding, l.attempt, l.claimId, l.status, l.acquiredAt, s.now,
                                                s.now + s.leaseDuration, l.releasedAt, l.renewalVersion + 1, Some(id))
                  && forall m :: m in s.leases && m != f.lease ==> t.leases[m] == s.leases[m])
  {
  }

  // --------------------------------------------------------------------- start

  ghost predicate StartAnswer(s: State, scope: Name, f: Fence, reply: Reply<StartResult>) {
    var known := Named(f) && Bound(s, scope, f) && Healthy(s, f.session);
    var live := known && Live(s, f.lease);
    && (reply == Err(ErrValidation) <==> !Named(f))
    && (reply == Err(ErrFenceRejected) <==> Named(f) && !known)
    && (reply == Err(ErrLeaseExpired) <==> known && !live)
    && (reply == Err(ErrCancellationRequested) <==> live && JobIs(s, f.job, {StatusCancelRequested}))
    && (reply.Ok? && !reply.value.replayed <==> live && JobIs(s, f.job, {StatusLeased}))
    && (reply.Ok? && reply.value.replayed <==> live && JobIs(s, f.job, {StatusRunning}))
  }

  /** A start is accepted exactly on a LEASED job and repeated exactly on a RUNNING one; under a live lease there is no other refusal. */
  lemma StartAnswers(s: State, scope: Name, f: Fence)
    requires Valid(s)
    ensures StartAnswer(s, scope, f, Start(s, scope, f).1)
  {
    BoundIsFenced(s, scope, f);
    if Bound(s, scope, f) {
      JobTellsAttempt(s, scope, f);
      assert Holds(AttemptRowLaw, s);
      if s.leases[f.lease].status.LeaseActive? {
        FencedExecutes(s, scope, f);
        ExecutingStatuses(s, f);
      }
    }
  }

  lemma StartWrites(s: State, scope: Name, f: Fence)
    requires var reply := Start(s, scope, f).1; reply.Ok? && !reply.value.replayed
    ensures f.attempt in s.attempts && f.job in s.jobs
    ensures var (t, reply) := Start(s, scope, f);
            var deadline := s.now + s.jobs[f.job].spec.timeoutSeconds * SECOND;
            && reply.value == StartResult(f.attempt, s.now, deadline, s.jobs[f.job].spec.timeoutSeconds * SECOND, false)
            && t == s.(attempts := s.attempts[f.attempt :=
                         s.attempts[f.attempt].(status := AttemptRunning, startedAt := Some(s.now), timeoutAt := Some(deadline))],
                       jobs := s.jobs[f.job := s.jobs[f.job].(status := StatusRunning, updatedAt := s.now)])
  {
  }

  // ------------------------------------------------------------------- success

  ghost predicate SuccessAnswer(s: State, scope: Name, f: Fence, t: State, reply: Reply<()>) {
    var known := Named(f) && Bound(s, scope, f);
    var done := known && s.leases[f.lease].status == LeaseCompleted;
    var open := known && !done && Healthy(s, f.session);
    var timely := open && !Overdue(s, f.attempt);
    var live := timely && Live(s, f.lease);
    var commits := live && JobIs(s, f.job, {StatusRunning});
    && (reply == Err(ErrValidation) <==> !Named(f))
    && (reply == Err(ErrFenceRejected) <==> Named(f) && !done && !open)
    && (reply == Err(ErrAttemptTimedOut) <==> open && !timely)
    && (reply == Err(ErrLeaseExpired) <==> timely && !live)
    && (reply == Err(ErrStateConflict) <==> live && !commits)
    && (reply.Ok? <==> done || commits)
    && (t != s <==> commits)
  }

  /**
   A success commits exactly for the bound fence of a healthy session, on a RUNNING job, under a lease that is
   ACTIVE and unexpired, strictly before the attempt's deadline; on a COMPLETED lease it is repeated.
   */
  lemma SuccessAnswers(s: State, scope: Name, f: Fence, body: Option<Document>)
    requires Valid(s)
    ensures SuccessAnswer(s, scope, f, Succeed(s, scope, f, body).0, Succeed(s, scope, f, body).1)
  {
    BoundIsFenced(s, scope, f);
    SuccessChanges(s, scope, f, body);
    if Bound(s, scope, f) {
      JobTellsAttempt(s, scope, f);
      CompletedIsSucceeded(s, scope, f);
    }
  }

  /** A repeated success writes nothing; a first one always does. */
  lemma SuccessChanges(s: State, scope: Name, f: Fence, body: Option<Document>)
    requires Valid(s)
    ensures var r := Succeed(s, scope, f, body);
            r.0 != s <==> r.1.Ok? && f.lease in s.leases && s.leases[f.lease].status.LeaseActive?
  {
    if Fenced(s, scope, f) {
      BoundIsFenced(s, scope, f);
      CompletedIsSucceeded(s, scope, f);
      assert s.jobs[f.job].(status := StatusSucceeded).status != StatusRunning;
    }
  }

  /** What a committed success leaves: three finished rows stamped with now, and exactly the reported document. */
  lemma SuccessWrites(s: State, scope: Name, f: Fence, body: Option<Document>)
    requires Succeed(s, scope, f, body).0 != s
    ensures f.job in s.jobs && f.attempt in s.attempts && f.lease in s.leases
    ensures var t := Succeed(s, scope, f, body).0;
            && t.jobs == s.jobs[f.job := s.jobs[f.job].(status := StatusSucceeded, updatedAt := s.now)]
            && t.attempts == s.attempts[f.attempt := s.attempts[f.attempt].(status := AttemptSucceeded, finishedAt := Some(s.now))]
            && t.leases == s.leases[f.lease := s.leases[f.lease].(status := LeaseCompleted, releasedAt := Some(s.now))]
            && t.results == (if body.None? then s.results else s.results[f.job := Result(f.attempt, scope, body.value)])
            && t == s.(jobs := t.jobs, attempts := t.attempts, leases := t.leases, results := t.results)
  {
  }

  // ------------------------------------------------------------------- failure

  /** The identity ended this attempt. */
  predicate EndedBy(s: State, attempt: Id, id: Id) {
    attempt in s.attempts && s.attempts[attempt].outcomeId == Some(id)
  }

  ghost predicate EndedAnother(s: State, attempt: Id, id: Id) {
    exists b :: b != attempt && EndedBy(s, b, id)
  }

  /** An absent column stands for the empty text. */
  predicate Says(column: Option<string>, text: string) {
    column == Some(text) || (column == None && text == "")
  }

  /** The report that ended this attempt, word for word. */
  predicate RepeatedBy(s: State, r: FailureReport) {
    && EndedBy(s, r.fence.attempt, r.outcomeId) && s.attempts[r.fence.attempt].failureClass == Some(r.failureClass)
    && Says(s.attempts[r.fence.attempt].errorCode, r.errorCode)
    && Says(s.attempts[r.fence.attempt].errorMessage, r.errorMessage)
  }

  ghost predicate FailureAnswer(s: State, scope: Name, r: FailureReport, ids: NewIds, t: State, reply: Reply<OutcomeResult>) {
    var f := r.fence;
    var named := Named(f) && r.outcomeId != 0 && r.failureClass in {ClassRetryable, ClassPermanent};
    var known := named && Bound(s, scope, f);
    var first := known && !EndedBy(s, f.attempt, r.outcomeId) && !EndedAnother(s, f.attempt, r.outcomeId);
    var open := first && Healthy(s, f.session);
    var timely := open && !Overdue(s, f.attempt);
    var live := timely && Live(s, f.lease);
    var accepted := live && JobIs(s, f.job, {StatusRunning});
    && (reply == Err(ErrValidation) <==> !named)
    && (reply == Err(ErrFenceRejected) <==> (named && !known) || (first && !open))
    && (reply == Err(ErrOutcomeConflict) <==> known && !first && !RepeatedBy(s, r))
    && (reply.Ok? && reply.value.replayed <==> known && RepeatedBy(s, r))
    && (reply == Err(ErrAttemptTimedOut) <==> open && !timely)
    && (reply == Err(ErrLeaseExpired) <==> timely && !live)
    && (reply == Err(ErrStateConflict) <==> live && !accepted)
    && (t != s ==> accepted)
    && (accepted && ids.event !in s.events && ids.dlq !in s.dlq ==> t != s && reply.Ok? && !reply.value.replayed)
  }

  /** When a failure report is accepted, or refused with which error. */
  lemma FailureAnswers(s: State, scope: Name, r: FailureReport, delayMillis: nat, ids: NewIds)
    requires Valid(s)
    ensures FailureAnswer(s, scope, r, ids, Fail(s, scope, r, delayMillis, ids).0, Fail(s, scope, r, delayMillis, ids).1)
  {
    BoundIsFenced(s, scope, r.fence);
    assert EndedAnother(s, r.fence.attempt, r.outcomeId) <==> OutcomeTaken(s.attempts, r.fence.attempt, r.outcomeId) by {
      if b :| b in s.attempts && b != r.fence.attempt && s.attempts[b].outcomeId == Some(r.outcomeId) {
        assert EndedBy(s, b, r.outcomeId);
      }
    }
    if Bound(s, scope, r.fence) {
      JobTellsAttempt(s, scope, r.fence);
    }
  }

  /** The attempt was given up for another one, that many milliseconds from now; zero means at once. */
  predicate Retries(t: State, j: Id, attempt: Id, now: Time, delay: nat) {
    && j in t.jobs && attempt in t.attempts
    && t.attempts[attempt].retryDelayMillis == Some(delay)
    && t.attempts[attempt].retryAt == Some(now + delay * 1000)
    && t.jobs[j].availableAt == now + delay * 1000
    && t.jobs[j].status == if delay == 0 then StatusQueued else StatusRetryWait
  }

  /** The attempt was the job's last; the new entry says why. */
  predicate Buried(t: State, j: Id, attempt: Id, now: Time, entry: Id, reason: DLQReason) {
    && j in t.jobs && attempt in t.attempts
    && t.jobs[j].status == StatusDeadLettered
    && t.attempts[attempt].retryDelayMillis == None && t.attempts[attempt].retryAt == None
    && entry in t.dlq && t.dlq[entry] == DlqEntry(t.jobs[j].scope, t.jobs[j].spec.queue, j, attempt, reason, now)
  }

  /** A requeued job is advertised at once, on a new generation. */
  predicate Readvertised(s: State, t: State, j: Id, event: Id) {
    && j in s.jobs && j in t.jobs && t.jobs[j].generation == s.jobs[j].generation + 1
    && t.jobs[j].lastNotificationAt == Some(s.now) && event in t.events && event !in s.events
    && t.events[event] == Event(j, t.jobs[j].generation, t.jobs[j].spec.queue, EventPending, 0, s.now, None, None, None, s.now)
  }

  /** The rows that ended, and how: status and class, code and message, identity and time, and the lease's fate. */
  predicate Ended(s: State, t: State, f: Fence, status: AttemptStatus, failure: FailureClass, code: string, message: string,
                  id: Option<Id>, lease: LeaseStatus)
  {
    && f.attempt in s.attempts && f.lease in s.leases && f.attempt in t.attempts && f.lease in t.leases
    && t.attempts[f.attempt].status == status && t.attempts[f.attempt].finishedAt == Some(s.now)
    && t.attempts[f.attempt].failureClass == Some(failure)
    && t.attempts[f.attempt].errorCode == (if code == "" then None else Some(code))
    && t.attempts[f.attempt].errorMessage == (if message == "" then None else Some(message))
    && t.attempts[f.attempt].outcomeId == (if id.Some? then id else s.attempts[f.attempt].outcomeId)
    && t.attempts[f.attempt].number == s.attempts[f.attempt].number
    && t.leases[f.lease] == s.leases[f.lease].(status := lease, releasedAt := Some(s.now))
  }

  lemma DecisionWrites(s: State, f: Fence, o: AttemptOutcome, d: Decision, ids: NewIds)
    requires f.job in s.jobs && f.attempt in s.attempts && f.lease in s.leases && FinalizeAttempt(s, f, o, d, ids).1.Ok?
    ensures var t := FinalizeAttempt(s, f, o, d, ids).0;
            && Ended(s, t, f, o.status, o.failureClass, o.errorCode, o.errorMessage, o.outcomeId, o.leaseStatus)
            && (d.Retry? ==> Retries(t, f.job, f.attempt, s.now, d.delayMillis) && t.dlq == s.dlq)
            && (d == Retry(0) ==> Readvertised(s, t, f.job, ids.event))
            && (d.Retry? && 0 < d.delayMillis ==> t.events == s.events)
            && (d.DeadLetter? ==> Buried(t, f.job, f.attempt, s.now, ids.dlq, d.reason) && t.events == s.events)
    ensures var reply := FinalizeAttempt(s, f, o, d, ids).1.value;
            && reply.job == f.job && reply.attemptStatus == o.status && !reply.replayed
            && (d.Retry? ==> reply.retryDelayMillis == Some(d.delayMillis) && reply.retryAt == Some(s.now + d.delayMillis * 1000)
                             && reply.deadLetterReason == None
                             && reply.jobStatus == if d.delayMillis == 0 then StatusQueued else StatusRetryWait)
            && (d.DeadLetter? ==> reply.retryDelayMillis == None && reply.retryAt == None
                                  && reply.deadLetterReason == Some(d.reason) && reply.jobStatus == StatusDeadLettered)
  {
  }

  /**
   What an accepted failure leaves: a retryable one with budget retries after exactly the drawn delay, in the rows
   and in the answer; a permanent one, or the last attempt's, is buried with its reason.
   */
  lemma FailureWrites(s: State, scope: Name, r: FailureReport, delayMillis: nat, ids: NewIds)
    requires var reply := Fail(s, scope, r, delayMillis, ids).1; reply.Ok? && !reply.value.replayed
    ensures r.fence.attempt in s.attempts && r.fence.job in s.jobs
    ensures var (t, reply) := Fail(s, scope, r, delayMillis, ids);
            var retried := r.failureClass == ClassRetryable
                           && s.attempts[r.fence.attempt].number < s.jobs[r.fence.job].spec.maxAttempts;
            && Ended(s, t, r.fence, AttemptFailed, r.failureClass, r.errorCode, r.errorMessage, Some(r.outcomeId), LeaseReleased)
            && reply.value.attemptStatus == AttemptFailed
            && (retried ==> && Retries(t, r.fence.job, r.fence.attempt, s.now, delayMillis)
                            && reply.value.retryDelayMillis == Some(delayMillis)
                            && reply.value.retryAt == Some(s.now + delayMillis * 1000))
            && (retried && delayMillis == 0 ==> Readvertised(s, t, r.fence.job, ids.event))
            && (!retried ==> Buried(t, r.fence.job, r.fence.attempt, s.now, ids.dlq,
                                    if r.failureClass == ClassPermanent then ReasonPermanentFailure else ReasonAttemptsExhausted))
  {
    var f := r.fence;
    var d := Decide(r.failureClass, s.attempts[f.attempt].number, s.jobs[f.job].spec.maxAttempts, delayMillis);
    DecisionWrites(s, f, ReportedOutcome(r), d.value, ids);
  }

  // ----------------------------------------------------------- acknowledgement

  ghost predicate AcknowledgementAnswer(s: State, scope: Name, f: Fence, id: Id, t: State, reply: Reply<OutcomeResult>) {
    var named := Named(f) && id != 0;
    var known := named && Bound(s, scope, f);
    var repeated := known && EndedBy(s, f.attempt, id);
    var first := known && !repeated && !EndedAnother(s, f.attempt, id);
    var open := first && Healthy(s, f.session);
    var live := open && Live(s, f.lease);
    var accepted := live && JobIs(s, f.job, {StatusCancelRequested});
    && (reply == Err(ErrValidation) <==> !named)
    && (reply == Err(ErrFenceRejected) <==> (named && !known) || (first && !open))
    && (reply == Err(ErrOutcomeConflict) <==>
          known && !first && (repeated ==> s.attempts[f.attempt].status != AttemptCanceled))
    && (reply == Err(ErrLeaseExpired) <==> open && !live)
    && (reply == Err(ErrStateConflict) <==> live && !accepted)
    && (reply.Ok? && !reply.value.replayed <==> accepted)
    && (reply.Ok? && reply.value.replayed <==> repeated && s.attempts[f.attempt].status == AttemptCanceled)
    && (t != s <==> accepted)
  }

  /** When an acknowledgement ends the attempt, is repeated, or is refused with which error. */
  lemma AcknowledgementAnswers(s: State, scope: Name, f: Fence, id: Id)
    requires Valid(s)
    ensures AcknowledgementAnswer(s, scope, f, id, AcknowledgeCancellation(s, scope, f, id).0, AcknowledgeCancellation(s, scope, f, id).1)
  {
    BoundIsFenced(s, scope, f);
    assert EndedAnother(s, f.attempt, id) <==> OutcomeTaken(s.attempts, f.attempt, id) by {
      if b :| b in s.attempts && b != f.attempt && s.attempts[b].outcomeId == Some(id) {
        assert EndedBy(s, b, id);
      }
    }
    if Bound(s, scope, f) {
      JobTellsAttempt(s, scope, f);
      if s.jobs[f.job].status.StatusCancelRequested? {
        CancellationChanges(s, f, id);
      }
    }
  }

  lemma CancellationChanges(s: State, f: Fence, id: Id)
    requires f.job in s.jobs && f.attempt in s.attempts && f.lease in s.leases && s.jobs[f.job].status.StatusCancelRequested?
    ensures FinalizeCancellation(s, f, Some(id), LeaseReleased).0 != s
  {
    assert FinalizeCancellation(s, f, Some(id), LeaseReleased).0.jobs[f.job].status == StatusCanceled;
  }

  /** What a finalized cancellation leaves, acknowledged or lapsed. */
  lemma CancellationWrites(s: State, f: Fence, id: Option<Id>, lease: LeaseStatus)
    requires f.job in s.jobs && f.attempt in s.attempts && f.lease in s.leases
    ensures var (t, reply) := FinalizeCancellation(s, f, id, lease);
            && Ended(s, t, f, AttemptCanceled, ClassCanceled, CODE_CANCELED, MESSAGE_CANCELED, id, lease)
            && t.jobs == s.jobs[f.job := s.jobs[f.job].(status := StatusCanceled, updatedAt := s.now)]
            && t.events == s.events && t.dlq == s.dlq && t.results == s.results
            && reply == OutcomeResult(f.job, StatusCanceled, AttemptCanceled, None, None, None, false)
  {
  }
}
