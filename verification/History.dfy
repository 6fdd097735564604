/**
 What never changes back. Extends(s, t) collects everything that later states keep
 from earlier ones; every step and therefore every run extends the state it starts from.
 */
module History {
  import opened Base
  import opened Schema
  import opened Transactions
  import opened Invariants
  import opened Steps

  predicate JobGrows(a: Job, b: Job) {
    && b.scope == a.scope && b.spec == a.spec && b.replayedFrom == a.replayedFrom && b.createdAt == a.createdAt
    && a.generation <= b.generation
    && (a.status.Terminal() ==> b == a)
    && (a.status.StatusCancelRequested? ==> b.status.StatusCancelRequested? || b.status.StatusCanceled?)
    && (a.cancelRequestedAt.Some? ==> b.cancelRequestedAt == a.cancelRequestedAt)
    && (a.status.Scheduled() && b.generation == a.generation ==> b == a || b.status.StatusCanceled?)
  }

  predicate AttemptGrows(a: Attempt, b: Attempt) {
    && b.binding == a.binding && b.number == a.number
    && (!a.status.Executing() ==> b == a)
    && (!a.status.AttemptLeased? ==> !b.status.AttemptLeased?)
    && (a.startedAt.Some? ==> b.startedAt == a.startedAt)
    && (a.timeoutAt.Some? ==> b.timeoutAt == a.timeoutAt)
  }

  /** Expiry only moves forward, one version at a time, and never once it has passed. */
  predicate LeaseGrows(a: Lease, now: Time, b: Lease) {
    && b.binding == a.binding && b.attempt == a.attempt && b.claimId == a.claimId && b.acquiredAt == a.acquiredAt
    && (!a.status.LeaseActive? ==> b == a)
    && a.renewalVersion <= b.renewalVersion && a.expiresAt <= b.expiresAt
    && (a.renewalVersion == b.renewalVersion ==> b.expiresAt == a.expiresAt && b.lastRenewalId == a.lastRenewalId)
    && (a.expiresAt <= now ==> b.renewalVersion == a.renewalVersion)
  }

  predicate SessionGrows(a: Session, b: Session) {
    && b.worker == a.worker && b.scope == a.scope && b.reg == a.reg && b.registeredAt == a.registeredAt
    && a.lastHeartbeatAt <= b.lastHeartbeatAt
    && (!a.status.Current() ==> b == a)
    && (b.status.SessionHealthy? ==> a.status.SessionHealthy?)
  }

  predicate EventGrows(a: Event, b: Event) {
    && b.job == a.job && b.generation == a.generation && b.queue == a.queue && b.createdAt == a.createdAt
    && a.attempts <= b.attempts
    && (a.status.EventPublished? ==> b == a)
  }

  ghost predicate JobsGrow(m: map<Id, Job>, n: map<Id, Job>) {
    forall k :: k in m ==> k in n && JobGrows(m[k], n[k])
  }

  ghost predicate AttemptsGrow(m: map<Id, Attempt>, n: map<Id, Attempt>) {
    forall k :: k in m ==> k in n && AttemptGrows(m[k], n[k])
  }

  ghost predicate LeasesGrow(m: map<Id, Lease>, now: Time, n: map<Id, Lease>) {
    forall k :: k in m ==> k in n && LeaseGrows(m[k], now, n[k])
  }

  ghost predicate SessionsGrow(m: map<Id, Session>, n: map<Id, Session>) {
    forall k :: k in m ==> k in n && SessionGrows(m[k], n[k])
  }

  ghost predicate EventsGrow(m: map<Id, Event>, n: map<Id, Event>) {
    forall k :: k in m ==> k in n && EventGrows(m[k], n[k])
  }

  datatype Table =
    | Settings
    | Workers
    | WorkerSessions
    | Jobs
    | JobAttempts
    | Leases
    | OutboxEvents
    | DlqEntries
    | JobResults
    | IdempotencyRecords
    | ReplayRecords

  ghost predicate Grows(table: Table, s: State, t: State) {
    match table
    case Settings => s.now <= t.now && t.leaseDuration == s.leaseDuration && t.queues == s.queues
    case Workers => Submap(s.workers, t.workers)
    case WorkerSessions => SessionsGrow(s.sessions, t.sessions)
    case Jobs => JobsGrow(s.jobs, t.jobs)
    case JobAttempts => AttemptsGrow(s.attempts, t.attempts)
    case Leases => LeasesGrow(s.leases, s.now, t.leases)
    case OutboxEvents => EventsGrow(s.events, t.events)
    case DlqEntries => Submap(s.dlq, t.dlq)
    case JobResults => Submap(s.results, t.results)
    case IdempotencyRecords => Submap(s.submissions, t.submissions)
    case ReplayRecords => Submap(s.replays, t.replays)
  }

  ghost predicate Extends(s: State, t: State) {
    forall table :: Grows(table, s, t)
  }

  lemma ExtendsItself(s: State)
    ensures Extends(s, s)
  {
  }

  lemma ExtendsTransitive(s: State, t: State, u: State)
    requires Extends(s, t) && Extends(t, u)
    ensures Extends(s, u)
  {
    forall table ensures Grows(table, s, u) {
      assert Grows(table, s, t) && Grows(table, t, u);
      if table.Leases? {
        assert Grows(Settings, s, t);
      }
    }
  }

  // -------------------------------------------------------------- every step

  /** A commit extends the state when the rows it writes grow and its inserts are fresh. */
  lemma CommitExtends(s: State, f: Fence, job: Job, attempt: Attempt, lease: Lease,
                      events: map<Id, Event>, dlq: map<Id, DlqEntry>, results: map<Id, Result>)
    requires f.job in s.jobs && JobGrows(s.jobs[f.job], job)
    requires f.attempt in s.attempts && AttemptGrows(s.attempts[f.attempt], attempt)
    requires f.lease in s.leases && LeaseGrows(s.leases[f.lease], s.now, lease)
    requires EventsGrow(s.events, events) && Submap(s.dlq, dlq) && Submap(s.results, results)
    ensures Extends(s, Commit(s, f, job, attempt, lease, events, dlq, results))
  {
  }

  lemma FinalizeExtends(s: State, f: Fence, o: AttemptOutcome, d: Decision, ids: NewIds)
    requires f.job in s.jobs && s.jobs[f.job].status.Executing()
    requires f.attempt in s.attempts && s.attempts[f.attempt].status.Executing() && !o.status.AttemptLeased?
    requires f.lease in s.leases && s.leases[f.lease].status.LeaseActive?
    ensures Extends(s, FinalizeAttempt(s, f, o, d, ids).0)
  {
    if FinalizeAttempt(s, f, o, d, ids).1.Ok? {
      var job := FinalJob(s.jobs[f.job], d, s.now);
      var events := if d == Retry(0) then s.events[ids.event := NewEvent(f.job, job.spec.queue, job.generation, s.now)] else s.events;
      var dlq := if d.DeadLetter?
      then s.dlq[ids.dlq := DlqEntry(job.scope, job.spec.queue, f.job, f.attempt, d.reason, s.now)] else s.dlq;
      CommitExtends(s, f, job, Finished(s.attempts[f.attempt], o, d, s.now),
                    Closed(s.leases[f.lease], o.leaseStatus, s.now), events, dlq, s.results);
    }
  }

  lemma CancellationExtends(s: State, f: Fence, outcomeId: Option<Id>, leaseStatus: LeaseStatus)
    requires f.job in s.jobs && s.jobs[f.job].status.StatusCancelRequested?
    requires f.attempt in s.attempts && s.attempts[f.attempt].status.Executing()
    requires f.lease in s.leases && s.leases[f.lease].status.LeaseActive?
    ensures Extends(s, FinalizeCancellation(s, f, outcomeId, leaseStatus).0)
  {
  }

  /** A result is written once: a running job has none yet. */
  lemma SucceedExtends(s: State, scope: Name, f: Fence, body: Option<Document>)
    requires Valid(s)
    ensures Extends(s, Succeed(s, scope, f, body).0)
  {
    ExtendsItself(s);
    if Fenced(s, scope, f) && s.jobs[f.job].status.StatusRunning? && s.attempts[f.attempt].status.AttemptRunning?
       && s.leases[f.lease].status.LeaseActive?
    {
      assert f.job !in s.results by { assert Holds(ResultLaw, s); }
      CommitExtends(s, f, s.jobs[f.job].(status := StatusSucceeded, updatedAt := s.now),
                    s.attempts[f.attempt].(status := AttemptSucceeded, finishedAt := Some(s.now)),
                    Closed(s.leases[f.lease], LeaseCompleted, s.now), s.events, s.dlq,
                    if body.Some? then s.results[f.job := Result(f.attempt, scope, body.value)] else s.results);
    }
  }

  lemma FailExtends(s: State, scope: Name, r: FailureReport, delayMillis: nat, ids: NewIds)
    ensures Extends(s, Fail(s, scope, r, delayMillis, ids).0)
  {
    var f := r.fence;
    ExtendsItself(s);
    if Fenced(s, scope, f) && s.jobs[f.job].status.StatusRunning? && s.attempts[f.attempt].status.AttemptRunning?
       && s.leases[f.lease].status.LeaseActive?
    {
      var d := Decide(r.failureClass, s.attempts[f.attempt].number, s.jobs[f.job].spec.maxAttempts, delayMillis);
      if d.Some? {
        FinalizeExtends(s, f, ReportedOutcome(r), d.value, ids);
      }
    }
  }

  lemma AcknowledgeExtends(s: State, scope: Name, f: Fence, outcomeId: Id)
    ensures Extends(s, AcknowledgeCancellation(s, scope, f, outcomeId).0)
  {
    ExtendsItself(s);
    if Fenced(s, scope, f) && s.jobs[f.job].status.StatusCancelRequested? && s.attempts[f.attempt].status.Executing()
       && s.leases[f.lease].status.LeaseActive?
    {
      CancellationExtends(s, f, Some(outcomeId), LeaseReleased);
    }
  }

  lemma DueTimeoutExtends(s: State, attempt: Id, delayMillis: nat, ids: NewIds)
    ensures Extends(s, ReconcileDueTimeout(s, attempt, delayMillis, ids).0)
  {
    ExtendsItself(s);
    if HasLease(s.leases, attempt) {
      var f := FenceOf(s.leases, LeaseOf(s.leases, attempt));
      if f.job in s.jobs && f.attempt in s.attempts && s.jobs[f.job].status.StatusRunning?
         && s.attempts[f.attempt].status.AttemptRunning? && s.leases[f.lease].status.LeaseActive?
      {
        FinalizeExtends(s, f, TimeoutOutcome(s.leases[f.lease], s.now),
                        Decide(ClassTimedOut, s.attempts[f.attempt].number, s.jobs[f.job].spec.maxAttempts, delayMillis).value, ids);
      }
    }
  }

  lemma ExpiredLeaseExtends(s: State, l: Id, delayMillis: nat, ids: NewIds)
    ensures Extends(s, ReconcileExpiredLease(s, l, delayMillis, ids).0)
  {
    ExtendsItself(s);
    if l in s.leases && s.leases[l].status.LeaseActive? {
      var f := FenceOf(s.leases, l);
      if f.job in s.jobs && f.attempt in s.attempts && s.attempts[f.attempt].status.Executing() {
        if s.jobs[f.job].status.StatusCancelRequested? {
          CancellationExtends(s, f, None, LeaseExpired);
        } else if s.jobs[f.job].status.Executing() {
          var n, max := s.attempts[f.attempt].number, s.jobs[f.job].spec.maxAttempts;
          FinalizeExtends(s, f, TimeoutOutcome(s.leases[l], s.now), Decide(ClassTimedOut, n, max, delayMillis).value, ids);
          FinalizeExtends(s, f, ABANDONED, Decide(ClassAbandoned, n, max, delayMillis).value, ids);
        }
      }
    }
  }

  lemma RenewExtends(s: State, scope: Name, f: Fence, renewalId: Id, expected: int)
    requires Valid(s)
    ensures Extends(s, RenewLease(s, scope, f, renewalId, expected).0)
  {
    var r := RenewLease(s, scope, f, renewalId, expected);
    ExtendsItself(s);
    if r.1.Ok? && !r.1.value.replayed {
      var l := s.leases[f.lease];
      var renewed := l.(renewedAt := s.now, expiresAt := s.now + s.leaseDuration,
                        renewalVersion := l.renewalVersion + 1, lastRenewalId := Some(renewalId));
      assert LeaseGrows(l, s.now, renewed) by { assert Holds(LeaseRowLaw, s); }
      var t := s.(leases := s.leases[f.lease := renewed]);
      forall table ensures Grows(table, s, t) {
        assert Grows(table, s, s);
      }
    }
  }

  lemma StartExtends(s: State, scope: Name, f: Fence)
    requires Valid(s)
    ensures Extends(s, Start(s, scope, f).0)
  {
    var r := Start(s, scope, f);
    ExtendsItself(s);
    if r.1.Ok? && !r.1.value.replayed {
      var job := s.jobs[f.job].(status := StatusRunning, updatedAt := s.now);
      var attempt := s.attempts[f.attempt].(status := AttemptRunning, startedAt := Some(s.now),
                                            timeoutAt := Some(s.now + job.spec.timeoutSeconds * SECOND));
      assert AttemptGrows(s.attempts[f.attempt], attempt) by { assert Holds(AttemptRowLaw, s); }
      SameUpdate(s.leases, f.lease);
      CommitExtends(s, f, job, attempt, s.leases[f.lease], s.events, s.dlq, s.results);
    }
  }

  lemma GrantExtends(s: State, req: ClaimRequest, j: Id, attempt: Id, lease: Id)
    requires j in s.jobs && s.jobs[j].status.StatusQueued? && attempt !in s.attempts && lease !in s.leases
    ensures Extends(s, Grant(s, req, j, attempt, lease))
  {
    ExtendsItself(s);
    var t := Grant(s, req, j, attempt, lease);
    forall table ensures Grows(table, s, t) {
      assert Grows(table, s, s);
    }
  }

  lemma ClaimExtends(s: State, scope: Name, req: ClaimRequest, locked: set<Id>, attempt: Id, lease: Id)
    ensures Extends(s, Claim(s, scope, req, locked, attempt, lease).0)
  {
    var r := Claim(s, scope, req, locked, attempt, lease);
    ExtendsItself(s);
    if r.1.Ok? && r.1.value.Claimed? && !r.1.value.replayed {
      GrantExtends(s, req, First(s.jobs, Candidates(s, scope, req.queue, s.sessions[req.session].reg, locked)), attempt, lease);
    }
  }

  lemma RequestCancelExtends(s: State, scope: Name, j: Id)
    requires Valid(s)
    ensures Extends(s, RequestCancel(s, scope, j).0)
  {
    ExtendsItself(s);
    var t := RequestCancel(s, scope, j).0;
    forall table ensures Grows(table, s, t) {
      assert Grows(table, s, s);
      assert Holds(JobRowLaw, s);
    }
  }

  lemma SubmitExtends(s: State, scope: Name, key: Name, req: SubmitRequest, j: Id, event: Id)
    ensures Extends(s, Submit(s, scope, key, req, j, event).0)
  {
    ExtendsItself(s);
    var t := Submit(s, scope, key, req, j, event).0;
    forall table ensures Grows(table, s, t) {
      assert Grows(table, s, s);
    }
  }

  lemma ReplayExtends(s: State, scope: Name, original: Id, key: Name, j: Id, event: Id)
    ensures Extends(s, Replay(s, scope, original, key, j, event).0)
  {
    ExtendsItself(s);
    var t := Replay(s, scope, original, key, j, event).0;
    forall table ensures Grows(table, s, t) {
      assert Grows(table, s, s);
    }
  }

  lemma PromoteExtends(s: State, j: Id, event: Id)
    ensures Extends(s, PromoteDueJob(s, j, event).0)
  {
    ExtendsItself(s);
    var t := PromoteDueJob(s, j, event).0;
    forall table ensures Grows(table, s, t) {
      assert Grows(table, s, s);
    }
  }

  lemma RenotifyExtends(s: State, j: Id, after: int, event: Id)
    ensures Extends(s, RenotifyStrandedJob(s, j, after, event).0)
  {
    ExtendsItself(s);
    var t := RenotifyStrandedJob(s, j, after, event).0;
    forall table ensures Grows(table, s, t) {
      assert Grows(table, s, s);
    }
  }

  lemma OutboxExtends(s: State, step: Step)
    requires step.ClaimEventsStep? || step.MarkPublishedStep? || step.RecordFailureStep? || step.TickStep?
    ensures Extends(s, Apply(s, step))
  {
    ExtendsItself(s);
    var t := Apply(s, step);
    forall table ensures Grows(table, s, t) {
      assert Grows(table, s, s);
    }
  }

  lemma SessionExtends(s: State, step: Step)
    requires Valid(s)
    requires step.RegisterStep? || step.HeartbeatStep? || step.MarkStaleStep?
    ensures Extends(s, Apply(s, step))
  {
    ExtendsItself(s);
    var t := Apply(s, step);
    forall table ensures Grows(table, s, t) {
      assert Grows(table, s, s);
    }
  }

  lemma WorkerStepExtends(s: State, step: Step)
    requires Valid(s) && WorkerSide(step)
    ensures Extends(s, Apply(s, step))
  {
    match step
    case SucceedStep(scope, fence, body) => SucceedExtends(s, scope, fence, body);
    case FailStep(scope, report, delayMillis, ids) => FailExtends(s, scope, report, delayMillis, ids);
    case AcknowledgeStep(scope, fence, outcomeId) => AcknowledgeExtends(s, scope, fence, outcomeId);
    case DueTimeoutStep(attempt, delayMillis, ids) => DueTimeoutExtends(s, attempt, delayMillis, ids);
    case ExpiredLeaseStep(lease, delayMillis, ids) => ExpiredLeaseExtends(s, lease, delayMillis, ids);
    case ClaimStep(scope, req, locked, newAttempt, newLease) => ClaimExtends(s, scope, req, locked, newAttempt, newLease);
    case StartStep(scope, fence) => StartExtends(s, scope, fence);
    case RenewStep(scope, fence, renewalId, expected) => RenewExtends(s, scope, fence, renewalId, expected);
    case RegisterStep(_, _, _) => SessionExtends(s, step);
    case HeartbeatStep(_, _, _) => SessionExtends(s, step);
    case MarkStaleStep(_, _) => SessionExtends(s, step);
  }

  lemma StepExtends(s: State, step: Step)
    requires Valid(s)
    ensures Extends(s, Apply(s, step))
  {
    if WorkerSide(step) {
      WorkerStepExtends(s, step);
    } else {
      match step
      case ClaimEventsStep(_, _) => OutboxExtends(s, step);
      case MarkPublishedStep(_) => OutboxExtends(s, step);
      case RecordFailureStep(_, _, _) => OutboxExtends(s, step);
      case TickStep(_) => OutboxExtends(s, step);
      case CancelStep(scope, job) => RequestCancelExtends(s, scope, job);
      case SubmitStep(scope, key, submission, newJob, newEvent) => SubmitExtends(s, scope, key, submission, newJob, newEvent);
      case ReplayStep(scope, original, key, newJob, newEvent) => ReplayExtends(s, scope, original, key, newJob, newEvent);
      case PromoteStep(job, newEvent) => PromoteExtends(s, job, newEvent);
      case RenotifyStep(job, after, newEvent) => RenotifyExtends(s, job, after, newEvent);
    }
  }

  /** Every continuation extends the state it starts from. */
  lemma {:induction false} RunExtends(s: State, steps: seq<Step>)
    requires Valid(s)
    ensures Extends(s, Run(s, steps)) && Valid(Run(s, steps))
    decreases |steps|
  {
    if steps == [] {
      ExtendsItself(s);
    } else {
      var t := Apply(s, steps[0]);
      StepExtends(s, steps[0]);
      StepValid(s, steps[0]);
      RunExtends(t, steps[1..]);
      ExtendsTransitive(s, t, Run(s, steps));
    }
  }
}
