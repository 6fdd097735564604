/** Repeating a report, a claim, a submission or a replay after any run: same answer, no effect. */
module Replays {
  import opened Base
  import opened Schema
  import opened Transactions
  import opened Invariants
  import opened Endings
  import opened Movements
  import opened Steps
  import opened History
  import opened ReportAnswers

  // -------------------------------------------------------- reported outcomes

  /** The attempt under the fence ended with this outcome identity. */
  predicate Recorded(s: State, scope: Name, f: Fence, outcomeId: Id) {
    && Fenced(s, scope, f)
    && !s.attempts[f.attempt].status.Executing()
    && s.attempts[f.attempt].outcomeId == Some(outcomeId)
  }

  lemma RecordedStays(s: State, t: State, scope: Name, f: Fence, outcomeId: Id)
    requires Extends(s, t) && Recorded(s, scope, f, outcomeId)
    ensures Recorded(t, scope, f, outcomeId) && t.attempts[f.attempt] == s.attempts[f.attempt]
  {
    assert Grows(Leases, s, t) && Grows(JobAttempts, s, t) && Grows(WorkerSessions, s, t) && Grows(Jobs, s, t);
  }

  lemma NoOutcomeWhileExecuting(s: State, a: Id)
    requires Valid(s) && a in s.attempts && s.attempts[a].outcomeId.Some?
    ensures !s.attempts[a].status.Executing()
  {
    assert Holds(AttemptRowLaw, s);
  }

  /** Accepting a failure report stores exactly the outcome that its replay reads back. */
  lemma FailRecords(s: State, scope: Name, r: FailureReport, delayMillis: nat, ids: NewIds)
    requires Valid(s) && Fail(s, scope, r, delayMillis, ids).1.Ok?
    ensures var done := Fail(s, scope, r, delayMillis, ids);
            && Recorded(done.0, scope, r.fence, r.outcomeId)
            && ReplayedOutcome(done.0.attempts[r.fence.attempt], r) == Ok(done.1.value.(replayed := true))
  {
    var f := r.fence;
    if s.attempts[f.attempt].outcomeId == Some(r.outcomeId) {
      NoOutcomeWhileExecuting(s, f.attempt);
    } else {
      FencedExecutes(s, scope, f);
      ExecutingNumber(s, f);
    }
  }

  /** After any continuation, repeating an accepted failure report returns the stored outcome and changes nothing. */
  lemma FailureReplayIsStable(s: State, scope: Name, r: FailureReport, delayMillis: nat, ids: NewIds,
                              steps: seq<Step>, delayMillis': nat, ids': NewIds)
    requires Valid(s) && Fail(s, scope, r, delayMillis, ids).1.Ok?
    ensures var done := Fail(s, scope, r, delayMillis, ids);
            var u := Run(done.0, steps);
            Fail(u, scope, r, delayMillis', ids') == (u, Ok(done.1.value.(replayed := true)))
  {
    var t := Fail(s, scope, r, delayMillis, ids).0;
    FailRecords(s, scope, r, delayMillis, ids);
    FailValid(s, scope, r, delayMillis, ids);
    RunExtends(t, steps);
    RecordedStays(t, Run(t, steps), scope, r.fence, r.outcomeId);
  }

  /** The same identity with a different class, code or message is refused, however much later. */
  lemma ChangedReportConflicts(s: State, scope: Name, r: FailureReport, delayMillis: nat, ids: NewIds,
                               steps: seq<Step>, r': FailureReport, delayMillis': nat, ids': NewIds)
    requires Valid(s) && Fail(s, scope, r, delayMillis, ids).1.Ok?
    requires r'.fence == r.fence && r'.outcomeId == r.outcomeId && r'.failureClass.ReportableByHandler()
    requires r' != r
    ensures var u := Run(Fail(s, scope, r, delayMillis, ids).0, steps);
            Fail(u, scope, r', delayMillis', ids') == (u, Err(ErrOutcomeConflict))
  {
    var t := Fail(s, scope, r, delayMillis, ids).0;
    FailRecords(s, scope, r, delayMillis, ids);
    FailValid(s, scope, r, delayMillis, ids);
    RunExtends(t, steps);
    RecordedStays(t, Run(t, steps), scope, r.fence, r.outcomeId);
  }

  lemma AcknowledgementRecords(s: State, scope: Name, f: Fence, outcomeId: Id)
    requires AcknowledgeCancellation(s, scope, f, outcomeId).1.Ok?
    ensures var done := AcknowledgeCancellation(s, scope, f, outcomeId);
            && Recorded(done.0, scope, f, outcomeId) && done.0.attempts[f.attempt].status.AttemptCanceled?
            && done.1.value.(replayed := true) == OutcomeResult(f.job, StatusCanceled, AttemptCanceled, None, None, None, true)
  {
    var t := AcknowledgeCancellation(s, scope, f, outcomeId).0;
    assert Fenced(s, scope, f);
    if s.attempts[f.attempt].outcomeId != Some(outcomeId) {
      assert t == FinalizeCancellation(s, f, Some(outcomeId), LeaseReleased).0;
      assert t.attempts[f.attempt] == CanceledAttempt(s.attempts[f.attempt], Some(outcomeId), s.now);
    }
  }

  lemma AcknowledgementReplayIsStable(s: State, scope: Name, f: Fence, outcomeId: Id, steps: seq<Step>)
    requires Valid(s) && AcknowledgeCancellation(s, scope, f, outcomeId).1.Ok?
    ensures var done := AcknowledgeCancellation(s, scope, f, outcomeId);
            var u := Run(done.0, steps);
            AcknowledgeCancellation(u, scope, f, outcomeId) == (u, Ok(done.1.value.(replayed := true)))
  {
    var t := AcknowledgeCancellation(s, scope, f, outcomeId).0;
    AcknowledgementRecords(s, scope, f, outcomeId);
    AcknowledgeCancellationValid(s, scope, f, outcomeId);
    RunExtends(t, steps);
    RecordedStays(t, Run(t, steps), scope, f, outcomeId);
  }

  /** An identity that ended its attempt by failure is refused as an acknowledgement, however much later. */
  lemma AcknowledgedFailureConflicts(s: State, scope: Name, r: FailureReport, delayMillis: nat, ids: NewIds, steps: seq<Step>)
    requires Valid(s) && Fail(s, scope, r, delayMillis, ids).1.Ok?
    ensures var u := Run(Fail(s, scope, r, delayMillis, ids).0, steps);
            AcknowledgeCancellation(u, scope, r.fence, r.outcomeId) == (u, Err(ErrOutcomeConflict))
  {
    var t := Fail(s, scope, r, delayMillis, ids).0;
    FailRecords(s, scope, r, delayMillis, ids);
    FailValid(s, scope, r, delayMillis, ids);
    assert !t.attempts[r.fence.attempt].status.AttemptCanceled? by { assert Holds(AttemptRowLaw, t); }
    RunExtends(t, steps);
    RecordedStays(t, Run(t, steps), scope, r.fence, r.outcomeId);
  }

  /** An identity that acknowledged a cancellation is refused as a failure report, whatever it reports. */
  lemma FailedAcknowledgementConflicts(s: State, scope: Name, r: FailureReport, steps: seq<Step>, delayMillis: nat, ids: NewIds)
    requires Valid(s) && AcknowledgeCancellation(s, scope, r.fence, r.outcomeId).1.Ok?
    requires r.failureClass.ReportableByHandler()
    ensures var u := Run(AcknowledgeCancellation(s, scope, r.fence, r.outcomeId).0, steps);
            Fail(u, scope, r, delayMillis, ids) == (u, Err(ErrOutcomeConflict))
  {
    var t := AcknowledgeCancellation(s, scope, r.fence, r.outcomeId).0;
    AcknowledgementRecords(s, scope, r.fence, r.outcomeId);
    AcknowledgeCancellationValid(s, scope, r.fence, r.outcomeId);
    assert t.attempts[r.fence.attempt].failureClass == Some(ClassCanceled) by { assert Holds(AttemptRowLaw, t); }
    RunExtends(t, steps);
    RecordedStays(t, Run(t, steps), scope, r.fence, r.outcomeId);
  }

  /** A committed success and its document are final: any later report under the fence repeats and writes nothing. */
  lemma ResultIsFinal(s: State, scope: Name, f: Fence, body: Option<Document>, steps: seq<Step>, body': Option<Document>)
    requires Valid(s) && Succeed(s, scope, f, body).0 != s
    ensures var u := Run(Succeed(s, scope, f, body).0, steps);
            && f.job in u.jobs && u.jobs[f.job].status.StatusSucceeded?
            && (body.Some? ==> f.job in u.results && u.results[f.job] == Result(f.attempt, scope, body.value))
            && Succeed(u, scope, f, body') == (u, Ok(()))
  {
    var t := Apply(s, SucceedStep(scope, f, body));
    SuccessWrites(s, scope, f, body);
    StepValid(s, SucceedStep(scope, f, body));
    SucceededRows(s, scope, f, body);
    RunExtends(t, steps);
    SucceededStays(t, Run(t, steps), scope, f);
    assert Grows(JobResults, t, Run(t, steps));
  }

  predicate SucceededUnder(s: State, scope: Name, f: Fence) {
    && f.Complete() && Fenced(s, scope, f) && s.jobs[f.job].status.StatusSucceeded?
    && s.attempts[f.attempt].status.AttemptSucceeded? && s.leases[f.lease].status.LeaseCompleted?
  }

  lemma SucceededRows(s: State, scope: Name, f: Fence, body: Option<Document>)
    requires Succeed(s, scope, f, body).0 != s
    ensures SucceededUnder(Succeed(s, scope, f, body).0, scope, f)
  {
  }

  lemma SucceededStays(s: State, t: State, scope: Name, f: Fence)
    requires Extends(s, t) && SucceededUnder(s, scope, f)
    ensures SucceededUnder(t, scope, f)
  {
    assert Grows(Jobs, s, t) && Grows(JobAttempts, s, t) && Grows(Leases, s, t) && Grows(WorkerSessions, s, t);
  }

  /** An outcome identity that ended one attempt is refused for every other attempt from then on. */
  lemma ForeignOutcomeConflicts(s: State, owner: Id, steps: seq<Step>, scope: Name, r: FailureReport,
                                delayMillis: nat, ids: NewIds)
    requires Valid(s) && owner in s.attempts && s.attempts[owner].outcomeId == Some(r.outcomeId)
    requires r.fence.attempt != owner
    ensures var u := Run(s, steps);
            && Fail(u, scope, r, delayMillis, ids).0 == u
            && AcknowledgeCancellation(u, scope, r.fence, r.outcomeId).0 == u
            && (r.fence.Complete() && r.outcomeId != NIL && Fenced(u, scope, r.fence) ==>
                  && AcknowledgeCancellation(u, scope, r.fence, r.outcomeId).1 == Err(ErrOutcomeConflict)
                  && (r.failureClass.ReportableByHandler() ==>
                        Fail(u, scope, r, delayMillis, ids).1 == Err(ErrOutcomeConflict)))
  {
    var u := Run(s, steps);
    NoOutcomeWhileExecuting(s, owner);
    RunExtends(s, steps);
    assert Grows(JobAttempts, s, u);
    assert owner in u.attempts && owner != r.fence.attempt && u.attempts[owner].outcomeId == Some(r.outcomeId);
    assert OutcomeTaken(u.attempts, r.fence.attempt, r.outcomeId);
    if r.fence.attempt in u.attempts && u.attempts[r.fence.attempt].outcomeId == Some(r.outcomeId) {
      assert Holds(IdentityLaw, u);
      assert SameOutcome(u.attempts, owner, r.fence.attempt);
    }
  }

  // -------------------------------------------------------------------- claims

  predicate ClaimHeldBy(s: State, scope: Name, req: ClaimRequest, l: Id) {
    && l in s.leases && s.leases[l].claimId == req.claimId
    && s.leases[l].binding.scope == scope && s.leases[l].binding.queue == req.queue
    && s.leases[l].binding.worker == req.worker && s.leases[l].binding.session == req.session
    && req.queue in s.queues
  }

  lemma ClaimHeldStays(s: State, t: State, scope: Name, req: ClaimRequest, l: Id)
    requires Extends(s, t) && ClaimHeldBy(s, scope, req, l)
    ensures ClaimHeldBy(t, scope, req, l)
  {
    assert Grows(Leases, s, t) && Grows(Settings, s, t);
  }

  /** What a consumed claim identity answers, by who presents it. */
  function ConsumedClaim(s: State, scope: Name, req: ClaimRequest, l: Id, scope': Name, req': ClaimRequest): Reply<ClaimResult>
    requires l in s.leases && s.leases[l].attempt in s.attempts && s.leases[l].binding.job in s.jobs
  {
    if !req'.Complete() then Err(ErrValidation)
    else if scope' != scope || req'.queue != req.queue then Err(ErrClaimConflict)
    else if !SessionMatches(s, scope, req'.worker, req'.session) || !s.sessions[req'.session].status.SessionHealthy? then
      Err(ErrSessionUnavailable)
    else if req'.worker != req.worker || req'.session != req.session then Ok(DuplicateNotification)
    else Ok(Claimed(AssignmentOf(s, l, RemainingUntil(s.leases[l].expiresAt, s.now)), true))
  }

  lemma HeldClaimAnswers(s: State, scope: Name, req: ClaimRequest, l: Id, scope': Name, req': ClaimRequest,
                         locked: set<Id>, attempt: Id, lease: Id)
    requires Valid(s) && ClaimHeldBy(s, scope, req, l) && req'.claimId == req.claimId
    ensures s.leases[l].attempt in s.attempts && s.leases[l].binding.job in s.jobs
    ensures Claim(s, scope', req', locked, attempt, lease) == (s, ConsumedClaim(s, scope, req, l, scope', req'))
  {
    assert ClaimedBy(s.leases, req'.claimId);
    assert l == LeaseOfClaim(s.leases, req'.claimId) by {
      assert Holds(IdentityLaw, s);
      assert SameClaim(s.leases, l, LeaseOfClaim(s.leases, req'.claimId));
    }
    assert BindingHolds(s.leases[l].binding, s.sessions, s.jobs) && s.leases[l].attempt in s.attempts by {
      assert Holds(BindingLaw, s);
    }
  }

  lemma GrantedClaimIsHeld(s: State, scope: Name, req: ClaimRequest, locked: set<Id>, attempt: Id, lease: Id)
    requires var r := Claim(s, scope, req, locked, attempt, lease).1; r.Ok? && r.value.Claimed? && !r.value.replayed
    ensures ClaimHeldBy(Claim(s, scope, req, locked, attempt, lease).0, scope, req, lease)
  {
  }

  /** A fresh claim takes the best job it may run: highest priority, then longest available, then oldest, then lowest id. */
  lemma ClaimTakesTheBestJob(s: State, scope: Name, req: ClaimRequest, locked: set<Id>, attempt: Id, lease: Id, i: Id)
    requires var r := Claim(s, scope, req, locked, attempt, lease).1; r.Ok? && r.value.Claimed? && !r.value.replayed
    ensures var j := Claim(s, scope, req, locked, attempt, lease).1.value.assignment.job;
            var reg := s.sessions[req.session].reg;
            && j !in locked && Eligible(s, scope, req.queue, reg, j)
            && (i !in locked && i != j && Eligible(s, scope, req.queue, reg, i) ==>
                  var a, b := s.jobs[j], s.jobs[i];
                  && b.spec.priority <= a.spec.priority
                  && (b.spec.priority == a.spec.priority ==> a.availableAt <= b.availableAt)
                  && (b.spec.priority == a.spec.priority && a.availableAt == b.availableAt ==> a.createdAt <= b.createdAt)
                  && (b.spec.priority == a.spec.priority && a.availableAt == b.availableAt && a.createdAt == b.createdAt ==> j < i))
  {
    var c := Candidates(s, scope, req.queue, s.sessions[req.session].reg, locked);
    if i in c && i != First(s.jobs, c) {
      assert Before(s.jobs, First(s.jobs, c), i);
    }
  }

  /**
   A claim identity creates one lease ever: after any continuation the same session is handed
   the same assignment, another session learns it is a duplicate, and no second lease appears.
   */
  lemma ClaimConsumedOnce(s: State, scope: Name, req: ClaimRequest, locked: set<Id>, attempt: Id, lease: Id,
                          steps: seq<Step>, scope': Name, req': ClaimRequest, locked': set<Id>, attempt': Id, lease': Id)
    requires Valid(s)
    requires var r := Claim(s, scope, req, locked, attempt, lease).1; r.Ok? && r.value.Claimed? && !r.value.replayed
    requires req'.claimId == req.claimId
    ensures var u := Run(Claim(s, scope, req, locked, attempt, lease).0, steps);
            && lease in u.leases && u.leases[lease].attempt in u.attempts && u.leases[lease].binding.job in u.jobs
            && Claim(u, scope', req', locked', attempt', lease') == (u, ConsumedClaim(u, scope, req, lease, scope', req'))
  {
    var t := Claim(s, scope, req, locked, attempt, lease).0;
    GrantedClaimIsHeld(s, scope, req, locked, attempt, lease);
    ClaimValid(s, scope, req, locked, attempt, lease);
    RunExtends(t, steps);
    ClaimHeldStays(t, Run(t, steps), scope, req, lease);
    HeldClaimAnswers(Run(t, steps), scope, req, lease, scope', req', locked', attempt', lease');
  }

  /** The replayed assignment names the same job, attempt and lease for as long as it is replayed. */
  lemma ReplayedAssignmentIsStable(s: State, l: Id, steps: seq<Step>, remaining: int)
    requires Valid(s) && l in s.leases
    ensures var u := Run(s, steps);
            && s.leases[l].attempt in s.attempts && s.leases[l].binding.job in s.jobs
            && l in u.leases && u.leases[l].attempt in u.attempts && u.leases[l].binding.job in u.jobs
            && AssignmentOf(u, l, remaining) == AssignmentOf(s, l, remaining).(leaseExpiresAt := u.leases[l].expiresAt)
  {
    var u := Run(s, steps);
    RunExtends(s, steps);
    assert BindingHolds(s.leases[l].binding, s.sessions, s.jobs) && s.leases[l].attempt in s.attempts by {
      assert Holds(BindingLaw, s);
    }
    assert Grows(Leases, s, u) && Grows(JobAttempts, s, u) && Grows(Jobs, s, u);
  }

  // --------------------------------------------------------------------- starts

  /** The attempt runs or has run, with these times on its row. */
  predicate StartedAs(s: State, a: Id, startedAt: Time, timeoutAt: Time) {
    && a in s.attempts && !s.attempts[a].status.AttemptLeased?
    && s.attempts[a].startedAt == Some(startedAt) && s.attempts[a].timeoutAt == Some(timeoutAt)
  }

  lemma StartStamps(s: State, scope: Name, f: Fence)
    requires Start(s, scope, f).1.Ok?
    ensures var r := Start(s, scope, f); StartedAs(r.0, f.attempt, r.1.value.startedAt, r.1.value.timeoutAt)
    ensures var r := Start(s, scope, f).1.value;
            !r.replayed ==> f.job in s.jobs && r.timeoutAt == s.now + s.jobs[f.job].spec.timeoutSeconds * SECOND
  {
  }

  lemma StartRepeats(s: State, scope: Name, f: Fence, startedAt: Time, timeoutAt: Time)
    requires StartedAs(s, f.attempt, startedAt, timeoutAt) && Start(s, scope, f).1.Ok?
    ensures var r := Start(s, scope, f);
            && r.0 == s && r.1.value.replayed && r.1.value.startedAt == startedAt && r.1.value.timeoutAt == timeoutAt
            && r.1.value.attempt == f.attempt
            && r.1.value.remaining == if s.now < timeoutAt then timeoutAt - s.now else 0
  {
  }

  /** The execution deadline is stamped once: any later successful Start repeats the original one. */
  lemma StartReplayKeepsDeadline(s: State, scope: Name, f: Fence, steps: seq<Step>, scope': Name)
    requires Valid(s) && Start(s, scope, f).1.Ok?
    ensures var first := Start(s, scope, f);
            var u := Run(first.0, steps);
            var again := Start(u, scope', f);
            again.1.Ok? ==>
              && again.0 == u && again.1.value.replayed
              && again.1.value.startedAt == first.1.value.startedAt && again.1.value.timeoutAt == first.1.value.timeoutAt
  {
    var first := Start(s, scope, f);
    var u := Run(first.0, steps);
    StartStamps(s, scope, f);
    StartValid(s, scope, f);
    RunExtends(first.0, steps);
    assert StartedAs(u, f.attempt, first.1.value.startedAt, first.1.value.timeoutAt) by {
      assert Grows(JobAttempts, first.0, u);
    }
    if Start(u, scope', f).1.Ok? {
      StartRepeats(u, scope', f, first.1.value.startedAt, first.1.value.timeoutAt);
    }
  }

  // --------------------------------------------------- submissions and replays

  /** An idempotency key creates one job ever; a different fingerprint conflicts, the same one returns that job. */
  lemma SubmissionConsumedOnce(s: State, scope: Name, key: Name, req: SubmitRequest, j: Id, event: Id,
                               steps: seq<Step>, req': SubmitRequest, j': Id, event': Id)
    requires Valid(s)
    requires var r := Submit(s, scope, key, req, j, event).1; r.Ok? && !r.value.replayed
    ensures var u := Run(Submit(s, scope, key, req, j, event).0, steps);
            && j in u.jobs && u.jobs[j].scope == scope && u.jobs[j].spec == req.spec
            && Submit(u, scope, key, req', j', event') ==
               (u, if !req'.Valid() then Err(ErrValidation)
                   else if req'.spec.queue !in u.queues then Err(ErrUnknownQueue)
                   else if j' in u.jobs then Err(ErrDatabase)
                   else if req'.fingerprint != req.fingerprint then Err(ErrIdempotencyConflict)
                   else Ok(JobResult(j, u.jobs[j], true)))
  {
    var t := Submit(s, scope, key, req, j, event).0;
    var u := Run(t, steps);
    SubmitValid(s, scope, key, req, j, event);
    RunExtends(t, steps);
    assert Grows(IdempotencyRecords, t, u) && Grows(Jobs, t, u);
    assert SubmissionKey(scope, key) in t.submissions;
  }

  /** A replay identity creates one replacement ever, and the dead-lettered original never changes. */
  lemma ReplacementConsumedOnce(s: State, scope: Name, original: Id, key: Name, j: Id, event: Id,
                                steps: seq<Step>, j': Id, event': Id)
    requires Valid(s)
    requires var r := Replay(s, scope, original, key, j, event).1; r.Ok? && !r.value.replayed
    ensures var u := Run(Replay(s, scope, original, key, j, event).0, steps);
            && original in u.jobs && u.jobs[original] == s.jobs[original]
            && j in u.jobs && u.jobs[j].spec == s.jobs[original].spec && u.jobs[j].replayedFrom == Some(original)
            && Replay(u, scope, original, key, j', event') ==
               (u, if j' in u.jobs then Err(ErrDatabase) else Ok(JobResult(j, u.jobs[j], true)))
  {
    var t := Replay(s, scope, original, key, j, event).0;
    var u := Run(t, steps);
    ReplayValid(s, scope, original, key, j, event);
    RunExtends(t, steps);
    assert Grows(ReplayRecords, t, u) && Grows(Jobs, t, u) && Grows(DlqEntries, t, u);
    assert ReplayKey(scope, original, key) in t.replays;
    assert HasEntry(u.dlq, original) by {
      var d :| d in s.dlq && s.dlq[d].job == original;
      assert d in u.dlq && u.dlq[d].job == original;
    }
  }
}
