/** The transactions that do not end an attempt take valid states to valid states. */
module Movements {
  import opened Base
  import opened Schema
  import opened Transactions
  import opened Invariants
  import opened Effects
  import opened Endings

  // -------------------------------------------------------------- moving a job

  /** A job between attempts is requeued, re-advertised or canceled; a held one can only be asked to cancel. */
  predicate Moves(job: Job, job': Job) {
    && job'.scope == job.scope && job'.spec == job.spec && job'.replayedFrom == job.replayedFrom
    && (|| (job.status.Waiting() && (job'.status.StatusQueued? || job'.status.StatusCanceled?))
        || (job.status.Executing() && job'.status.StatusCancelRequested?))
  }

  lemma MoveHolds(s: State, j: Id, job: Job, t: State, law: Law)
    requires Valid(s) && j in s.jobs && Moves(s.jobs[j], job) && JobRow(job, s.now)
    requires t == s.(jobs := s.jobs[j := job], events := t.events)
    requires !law.EventRowLaw? && !law.NotificationLaw?
    ensures Holds(law, t)
  {
    assert Holds(law, s);
    match law
    case JobRowLaw => JobRowUpdated(s.jobs, s.now, j, job);
    case BindingLaw => BindingsOfJobs(s.sessions, s.jobs, s.attempts, s.leases, j, job);
    case AuthorityLaw =>
      if job.status.StatusCancelRequested? {
        AuthorityRequested(s.jobs, s.attempts, s.leases, j, job);
      } else {
        AuthorityOfFreeJob(s.jobs, s.attempts, s.leases, j, job);
      }
    case BudgetLaw => BudgetOfJob(s.jobs, s.attempts, j, job);
    case SettledLaw => SettledMoved(s.jobs, s.attempts, j, job);
    case ResultLaw => ResultsOfJob(s.jobs, s.attempts, s.results, j, job);
    case DeadLetterLaw => DeadLettersOfJob(s.jobs, s.attempts, s.dlq, j, job);
    case SourceLaw => SourcesOfJob(s.queues, s.jobs, s.submissions, s.replays, j, job);
    case SubmissionLaw => SubmissionsOfJob(s.jobs, s.submissions, s.replays, j, job);
    case _ =>
  }

  lemma RequestCancelValid(s: State, scope: Name, j: Id)
    requires Valid(s)
    ensures Valid(RequestCancel(s, scope, j).0)
  {
    var t := RequestCancel(s, scope, j).0;
    var r := RequestCancel(s, scope, j).1;
    if r.Ok? && !r.value.alreadyRequested {
      assert Holds(JobRowLaw, s);
      forall law ensures Holds(law, t) {
        match law
        case EventRowLaw => assert Holds(law, s);
        case NotificationLaw => assert Holds(law, s); NotificationsOfJob(s.jobs, s.events, j, t.jobs[j]);
        case _ => MoveHolds(s, j, t.jobs[j], t, law);
      }
    }
  }

  /** A move that advertises the job: a new generation, or the same one with nothing pending. */
  lemma AdvertiseValid(s: State, j: Id, job: Job, e: Id)
    requires Valid(s) && j in s.jobs && Moves(s.jobs[j], job) && JobRow(job, s.now) && e !in s.events && 1 <= job.generation
    requires job.generation == s.jobs[j].generation + 1
             || (job.generation == s.jobs[j].generation && !HasPending(s.events, j, job.generation))
    ensures Valid(s.(jobs := s.jobs[j := job],
                     events := s.events[e := NewEvent(j, job.spec.queue, job.generation, s.now)]))
  {
    var event := NewEvent(j, job.spec.queue, job.generation, s.now);
    var t := s.(jobs := s.jobs[j := job], events := s.events[e := event]);
    forall law ensures Holds(law, t) {
      match law
      case EventRowLaw => assert Holds(law, s); EventRowUpdated(s.events, s.now, e, event);
      case NotificationLaw => assert Holds(law, s); NotificationsAdded(s.jobs, s.events, j, job, e, event);
      case _ => MoveHolds(s, j, job, t, law);
    }
  }

  lemma PromoteDueJobValid(s: State, j: Id, event: Id)
    requires Valid(s)
    ensures Valid(PromoteDueJob(s, j, event).0)
  {
    if PromoteDueJob(s, j, event).1 == Ok(true) {
      assert Holds(JobRowLaw, s);
      AdvertiseValid(s, j, s.jobs[j].(status := StatusQueued, updatedAt := s.now,
                                      generation := s.jobs[j].generation + 1, lastNotificationAt := Some(s.now)), event);
    }
  }

  lemma RenotifyStrandedJobValid(s: State, j: Id, after: int, event: Id)
    requires Valid(s)
    ensures Valid(RenotifyStrandedJob(s, j, after, event).0)
  {
    if RenotifyStrandedJob(s, j, after, event).1 == Ok(true) {
      assert Holds(JobRowLaw, s);
      AdvertiseValid(s, j, s.jobs[j].(lastNotificationAt := Some(s.now)), event);
    }
  }

  // ------------------------------------------------------------- adding a job

  lemma FreshJob(s: State, j: Id)
    requires Valid(s) && j !in s.jobs
    ensures forall a :: a in s.attempts ==> s.attempts[a].binding.job != j
    ensures forall k :: k in s.submissions ==> s.submissions[k].job != j
    ensures forall k :: k in s.replays ==> s.replays[k] != j
  {
    assert Holds(BindingLaw, s) && Holds(SubmissionLaw, s);
  }

  lemma InsertHolds(s: State, j: Id, job: Job, e: Id, t: State, law: Law)
    requires Valid(s) && j !in s.jobs && JobRow(job, s.now)
    requires (job.status.StatusPending? && job.generation == 0) || (job.status.StatusQueued? && job.generation == 1 && e !in s.events)
    requires t == InsertJob(s, j, job, e).(submissions := t.submissions, replays := t.replays)
    requires !law.SourceLaw? && !law.SubmissionLaw?
    ensures Holds(law, t)
  {
    var event := NewEvent(j, job.spec.queue, 1, s.now);
    assert Holds(law, s);
    match law
    case JobRowLaw => JobRowUpdated(s.jobs, s.now, j, job);
    case EventRowLaw => EventRowUpdated(s.events, s.now, e, event);
    case BindingLaw => BindingsOfJobs(s.sessions, s.jobs, s.attempts, s.leases, j, job);
    case AuthorityLaw => AuthorityOfFreeJob(s.jobs, s.attempts, s.leases, j, job);
    case BudgetLaw =>
      FreshJob(s, j);
      NoAttempts(s.attempts, j);
      BudgetOfJob(s.jobs, s.attempts, j, job);
    case SettledLaw =>
      FreshJob(s, j);
      SettledMoved(s.jobs, s.attempts, j, job);
    case ResultLaw => ResultsOfJob(s.jobs, s.attempts, s.results, j, job);
    case NotificationLaw =>
      if job.status.StatusQueued? {
        NotificationsAdded(s.jobs, s.events, j, job, e, event);
      } else {
        NotificationsOfJob(s.jobs, s.events, j, job);
      }
    case DeadLetterLaw => DeadLettersOfJob(s.jobs, s.attempts, s.dlq, j, job);
    case _ =>
  }

  lemma SubmittedSources(s: State, k: SubmissionKey, x: Submission, job: Job)
    requires Valid(s) && k !in s.submissions && x.job !in s.jobs
    requires job.scope == k.scope && job.replayedFrom.None? && job.spec.queue in s.queues
    ensures Sources(s.queues, s.jobs[x.job := job], s.submissions[k := x], s.replays)
    ensures Submissions(s.jobs[x.job := job], s.submissions[k := x], s.replays)
  {
    var jobs', submissions' := s.jobs[x.job := job], s.submissions[k := x];
    FreshJob(s, x.job);
    assert Sources(s.queues, jobs', submissions', s.replays) by {
      assert Holds(SourceLaw, s);
      assert k in submissions' && submissions'[k].job == x.job;
      SourcesAdded(s.queues, s.jobs, s.submissions, s.replays, x.job, job, submissions', s.replays);
    }
    assert Submissions(jobs', submissions', s.replays) by {
      assert Holds(SubmissionLaw, s);
      SubmissionsOfJob(s.jobs, s.submissions, s.replays, x.job, job);
      SubmissionAdded(jobs', s.submissions, s.replays, k, x);
    }
  }

  lemma SpecFacts(s: State, j: Id)
    requires Valid(s) && j in s.jobs
    ensures 1 <= s.jobs[j].spec.maxAttempts && 1 <= s.jobs[j].spec.timeoutSeconds && s.jobs[j].spec.queue in s.queues
  {
    assert Holds(JobRowLaw, s) && Holds(SourceLaw, s);
  }

  lemma ReplayedSource(s: State, k: ReplayKey, j: Id, job: Job)
    requires Valid(s) && k !in s.replays && job.spec.queue in s.queues
    ensures Sources(s.queues, s.jobs[j := job], s.submissions, s.replays[k := j])
  {
    var replays' := s.replays[k := j];
    assert Holds(SourceLaw, s);
    assert k in replays' && replays'[k] == j;
    SourcesAdded(s.queues, s.jobs, s.submissions, s.replays, j, job, s.submissions, replays');
  }

  lemma ReplayedSubmission(s: State, k: ReplayKey, j: Id, job: Job)
    requires Valid(s) && k !in s.replays && j !in s.jobs && ReplayedAs(s.jobs[j := job], k, j)
    ensures Submissions(s.jobs[j := job], s.submissions, s.replays[k := j])
  {
    FreshJob(s, j);
    assert Holds(SubmissionLaw, s);
    SubmissionsOfJob(s.jobs, s.submissions, s.replays, j, job);
    ReplayAdded(s.jobs[j := job], s.submissions, s.replays, k, j);
  }

  lemma SubmittedHolds(s: State, k: SubmissionKey, x: Submission, job: Job, event: Id, t: State, law: Law)
    requires Valid(s) && k !in s.submissions && x.job !in s.jobs && JobRow(job, s.now)
    requires job.scope == k.scope && job.replayedFrom.None? && job.spec.queue in s.queues
    requires (job.status.StatusPending? && job.generation == 0) || (job.status.StatusQueued? && job.generation == 1 && event !in s.events)
    requires t == InsertJob(s, x.job, job, event).(submissions := s.submissions[k := x])
    ensures Holds(law, t)
  {
    if law.SourceLaw? || law.SubmissionLaw? {
      SubmittedSources(s, k, x, job);
    } else {
      InsertHolds(s, x.job, job, event, t, law);
    }
  }

  lemma SubmitValid(s: State, scope: Name, key: Name, req: SubmitRequest, j: Id, event: Id)
    requires Valid(s)
    ensures Valid(Submit(s, scope, key, req, j, event).0)
  {
    var r := Submit(s, scope, key, req, j, event);
    if r.1.Ok? && !r.1.value.replayed {
      var job, k, x := SubmittedJob(scope, req, s.now), SubmissionKey(scope, key), Submission(req.fingerprint, j);
      var t := InsertJob(s, j, job, event).(submissions := s.submissions[k := x]);
      forall law ensures Holds(law, t) {
        SubmittedHolds(s, k, x, job, event, t, law);
      }
    }
  }

  lemma ReplayValid(s: State, scope: Name, original: Id, key: Name, j: Id, event: Id)
    requires Valid(s)
    ensures Valid(Replay(s, scope, original, key, j, event).0)
  {
    var r := Replay(s, scope, original, key, j, event);
    if r.1.Ok? && !r.1.value.replayed {
      var job, k, t := Replacement(scope, original, s.jobs[original].spec, s.now), ReplayKey(scope, original, key), r.0;
      SpecFacts(s, original);
      forall law ensures Holds(law, t) {
        match law
        case SourceLaw => ReplayedSource(s, k, j, job);
        case SubmissionLaw => ReplayedSubmission(s, k, j, job);
        case _ => InsertHolds(s, j, job, event, t, law);
      }
    }
  }

  // -------------------------------------------------------- claim and start

  /** What the claim checks before it inserts anything. */
  predicate Grantable(s: State, req: ClaimRequest, j: Id, attempt: Id, lease: Id) {
    && j in s.jobs && s.jobs[j].status.StatusQueued?
    && attempt !in s.attempts && lease !in s.leases
    && s.jobs[j].spec.queue in s.queues && SessionMatches(s, s.jobs[j].scope, req.worker, req.session)
  }

  ghost predicate Granting(s: State, req: ClaimRequest, j: Id)
    requires j in s.jobs && s.jobs[j].spec.queue in s.queues && req.session in s.sessions
  {
    && !ClaimedBy(s.leases, req.claimId)
    && |ActiveInQueue(s.leases, s.jobs[j].spec.queue)| < s.queues[s.jobs[j].spec.queue].maxConcurrency
    && |ActiveOfWorker(s.leases, req.worker)| < s.sessions[req.session].reg.concurrencyLimit
  }

  /** The laws about who holds the granted job. */
  lemma GrantHeld(s: State, req: ClaimRequest, j: Id, a: Id, l: Id, law: Law)
    requires Valid(s) && Grantable(s, req, j, a, l) && Granting(s, req, j)
    requires law.BindingLaw? || law.AuthorityLaw? || law.NumberLaw? || law.CapacityLaw?
    ensures Holds(law, Grant(s, req, j, a, l))
  {
    var t := Grant(s, req, j, a, l);
    var job, attempt, lease := t.jobs[j], t.attempts[a], t.leases[l];
    assert Holds(law, s);
    match law
    case BindingLaw => BindingsGranted(s.sessions, s.jobs, s.attempts, s.leases, j, job, a, attempt, l, lease);
    case AuthorityLaw => AuthorityGranted(s.jobs, s.attempts, s.leases, j, job, a, attempt, l, lease);
    case NumberLaw =>
      NoneExecuting(s, j);
      NumbersAfterInsert(s.attempts, a, attempt);
    case CapacityLaw => CapacityGranted(s.queues, s.sessions, s.leases, l, lease);
  }

  /** The claim spends one attempt of a queued job's budget. */
  lemma GrantSpends(s: State, req: ClaimRequest, j: Id, a: Id, l: Id)
    requires Valid(s) && Grantable(s, req, j, a, l)
    ensures var t := Grant(s, req, j, a, l); Budget(t.jobs, t.attempts) && Settled(t.jobs, t.attempts)
  {
    var t := Grant(s, req, j, a, l);
    assert Budget(t.jobs, t.attempts) by {
      assert Holds(BudgetLaw, s);
      BudgetAfterInsert(s.jobs, s.attempts, j, t.jobs[j], a, t.attempts[a]);
    }
    assert Settled(t.jobs, t.attempts) by {
      assert Holds(SettledLaw, s);
      SettledGranted(s.jobs, s.attempts, j, t.jobs[j], a, t.attempts[a]);
    }
  }

  lemma GrantHolds(s: State, req: ClaimRequest, j: Id, a: Id, l: Id, law: Law)
    requires Valid(s) && Grantable(s, req, j, a, l) && Granting(s, req, j)
    ensures Holds(law, Grant(s, req, j, a, l))
  {
    var t := Grant(s, req, j, a, l);
    var job, attempt, lease := t.jobs[j], t.attempts[a], t.leases[l];
    if law.BindingLaw? || law.AuthorityLaw? || law.NumberLaw? || law.CapacityLaw? {
      GrantHeld(s, req, j, a, l, law);
    } else {
      assert Holds(law, s);
      match law
      case JobRowLaw => JobRowUpdated(s.jobs, s.now, j, job);
      case AttemptRowLaw => AttemptRowUpdated(s.attempts, s.now, a, attempt);
      case LeaseRowLaw =>
        assert Holds(LeaseDurationLaw, s);
        LeaseRowUpdated(s.leases, s.now, s.leaseDuration, l, lease);
      case BudgetLaw => GrantSpends(s, req, j, a, l);
      case SettledLaw => GrantSpends(s, req, j, a, l);
      case ResultLaw => ResultsGranted(s.jobs, s.attempts, s.results, j, job, a, attempt);
      case NotificationLaw => NotificationsOfJob(s.jobs, s.events, j, job);
      case DeadLetterLaw => DeadLettersUntouched(s.jobs, s.attempts, s.dlq, j, job, a, attempt);
      case IdentityLaw => IdentitiesGranted(s.attempts, s.leases, a, attempt, l, lease);
      case SourceLaw => SourcesOfJob(s.queues, s.jobs, s.submissions, s.replays, j, job);
      case SubmissionLaw => SubmissionsOfJob(s.jobs, s.submissions, s.replays, j, job);
      case _ =>
    }
  }

  lemma NoneExecuting(s: State, j: Id)
    requires Valid(s) && j in s.jobs && !s.jobs[j].status.Held()
    ensures forall a :: !ExecutingAttempt(s.attempts, a, j)
  {
    assert Holds(AuthorityLaw, s);
  }

  lemma ClaimValid(s: State, scope: Name, req: ClaimRequest, locked: set<Id>, attempt: Id, lease: Id)
    requires Valid(s)
    ensures Valid(Claim(s, scope, req, locked, attempt, lease).0)
  {
    var r := Claim(s, scope, req, locked, attempt, lease).1;
    if r.Ok? && r.value.Claimed? && !r.value.replayed {
      var j := First(s.jobs, Candidates(s, scope, req.queue, s.sessions[req.session].reg, locked));
      forall law ensures Holds(law, Grant(s, req, j, attempt, lease)) {
        GrantHolds(s, req, j, attempt, lease, law);
      }
    }
  }

  lemma StartHeld(s: State, f: Fence, job: Job, attempt: Attempt, law: Law)
    requires Valid(s) && Executes(s, f)
    requires job == s.jobs[f.job].(status := StatusRunning, updatedAt := s.now)
    requires attempt.binding == s.attempts[f.attempt].binding && attempt.number == s.attempts[f.attempt].number
    requires attempt.status.AttemptRunning? && AttemptRow(attempt, s.now)
    requires attempt.outcomeId == s.attempts[f.attempt].outcomeId
    requires s.jobs[f.job].status.StatusLeased?
    requires law.BindingLaw? || law.AuthorityLaw? || law.SettledLaw?
    ensures Holds(law, s.(attempts := s.attempts[f.attempt := attempt], jobs := s.jobs[f.job := job]))
  {
    SameUpdate(s.leases, f.lease);
    var lease := s.leases[f.lease];
    assert Holds(law, s);
    match law
    case BindingLaw =>
      BindingsUpdated(s.sessions, s.jobs, s.attempts, s.leases, f.job, job, f.attempt, attempt, f.lease, lease);
    case AuthorityLaw =>
      ExecutingAlone(s, f);
      AuthorityMoved(s.jobs, s.attempts, s.leases, f.job, job, f.attempt, attempt);
    case SettledLaw =>
      SettledMoved(s.jobs, s.attempts, f.job, job);
      SettledExecuting(s.jobs[f.job := job], s.attempts, f.attempt, attempt);
  }

  lemma StartHolds(s: State, f: Fence, job: Job, attempt: Attempt, law: Law)
    requires Valid(s) && Executes(s, f)
    requires job == s.jobs[f.job].(status := StatusRunning, updatedAt := s.now)
    requires attempt.binding == s.attempts[f.attempt].binding && attempt.number == s.attempts[f.attempt].number
    requires attempt.status.AttemptRunning? && AttemptRow(attempt, s.now)
    requires attempt.outcomeId == s.attempts[f.attempt].outcomeId
    requires s.jobs[f.job].status.StatusLeased?
    ensures Holds(law, s.(attempts := s.attempts[f.attempt := attempt], jobs := s.jobs[f.job := job]))
  {
    SameUpdate(s.leases, f.lease);
    var lease := s.leases[f.lease];
    assert Holds(law, s);
    match law
    case JobRowLaw => JobRowUpdated(s.jobs, s.now, f.job, job);
    case AttemptRowLaw => AttemptRowUpdated(s.attempts, s.now, f.attempt, attempt);
    case NumberLaw => NumbersUpdated(s.attempts, f.attempt, attempt);
    case BudgetLaw => BudgetUpdated(s.jobs, s.attempts, f.job, job, f.attempt, attempt);
    case BindingLaw => StartHeld(s, f, job, attempt, law);
    case AuthorityLaw => StartHeld(s, f, job, attempt, law);
    case SettledLaw => StartHeld(s, f, job, attempt, law);
    case ResultLaw => ResultsUntouched(s.jobs, s.attempts, s.results, f.job, job, f.attempt, attempt);
    case NotificationLaw => NotificationsOfJob(s.jobs, s.events, f.job, job);
    case DeadLetterLaw => DeadLettersUntouched(s.jobs, s.attempts, s.dlq, f.job, job, f.attempt, attempt);
    case IdentityLaw => IdentitiesUpdated(s.attempts, s.leases, f.attempt, attempt, f.lease, lease);
    case SourceLaw => SourcesOfJob(s.queues, s.jobs, s.submissions, s.replays, f.job, job);
    case SubmissionLaw => SubmissionsOfJob(s.jobs, s.submissions, s.replays, f.job, job);
    case _ =>
  }

  lemma StartValid(s: State, scope: Name, f: Fence)
    requires Valid(s)
    ensures Valid(Start(s, scope, f).0)
  {
    var r := Start(s, scope, f);
    if r.1.Ok? && !r.1.value.replayed {
      var job := s.jobs[f.job].(status := StatusRunning, updatedAt := s.now);
      var attempt := s.attempts[f.attempt].(status := AttemptRunning, startedAt := Some(s.now),
                                            timeoutAt := Some(s.now + job.spec.timeoutSeconds * SECOND));
      var t := s.(attempts := s.attempts[f.attempt := attempt], jobs := s.jobs[f.job := job]);
      FencedExecutes(s, scope, f);
      ExecutingFacts(s, f);
      forall law ensures Holds(law, t) {
        StartHolds(s, f, job, attempt, law);
      }
    }
  }

  lemma RenewHolds(s: State, f: Fence, lease: Lease, law: Law)
    requires Valid(s) && f.lease in s.leases && LeaseRow(lease, s.now, s.leaseDuration)
    requires lease == s.leases[f.lease].(renewedAt := lease.renewedAt, expiresAt := lease.expiresAt,
                                         renewalVersion := lease.renewalVersion, lastRenewalId := lease.lastRenewalId)
    requires lease.lastRenewalId.Some? && !RenewalTaken(s.leases, f.lease, lease.lastRenewalId.value)
    requires f.job in s.jobs && f.attempt in s.attempts
    ensures Holds(law, s.(leases := s.leases[f.lease := lease]))
  {
    assert Holds(law, s);
    match law
    case LeaseRowLaw => LeaseRowUpdated(s.leases, s.now, s.leaseDuration, f.lease, lease);
    case BindingLaw =>
      SameUpdate(s.jobs, f.job);
      SameUpdate(s.attempts, f.attempt);
      BindingsUpdated(s.sessions, s.jobs, s.attempts, s.leases, f.job, s.jobs[f.job],
                      f.attempt, s.attempts[f.attempt], f.lease, lease);
    case AuthorityLaw => AuthorityRenewed(s.jobs, s.attempts, s.leases, f.lease, lease);
    case CapacityLaw => CapacityUpdated(s.queues, s.sessions, s.leases, f.lease, lease);
    case IdentityLaw =>
      SameUpdate(s.attempts, f.attempt);
      IdentitiesUpdated(s.attempts, s.leases, f.attempt, s.attempts[f.attempt], f.lease, lease);
    case _ =>
  }

  lemma RenewLeaseValid(s: State, scope: Name, f: Fence, renewalId: Id, expected: int)
    requires Valid(s)
    ensures Valid(RenewLease(s, scope, f, renewalId, expected).0)
  {
    var r := RenewLease(s, scope, f, renewalId, expected);
    if r.1.Ok? && !r.1.value.replayed {
      var l := s.leases[f.lease];
      var lease := l.(renewedAt := s.now, expiresAt := s.now + s.leaseDuration,
                      renewalVersion := l.renewalVersion + 1, lastRenewalId := Some(renewalId));
      var t := s.(leases := s.leases[f.lease := lease]);
      assert Holds(LeaseRowLaw, s);
      forall law ensures Holds(law, t) {
        RenewHolds(s, f, lease, law);
      }
    }
  }

  // ---------------------------------------------------------------- sessions

  lemma SessionHolds(s: State, i: Id, row: Session, law: Law)
    requires Valid(s) && i in s.sessions && SessionRow(row, s.now)
    requires row.worker == s.sessions[i].worker && row.scope == s.sessions[i].scope && row.reg == s.sessions[i].reg
    requires row.status.Current() ==> s.sessions[i].status.Current()
    ensures Holds(law, s.(sessions := s.sessions[i := row]))
  {
    assert Holds(law, s);
    match law
    case SessionRowLaw => SessionRowUpdated(s.sessions, s.now, i, row);
    case SessionLaw => SessionsUpdated(s.workers, s.sessions, i, row);
    case BindingLaw => BindingsOfSessions(s.sessions, s.sessions[i := row], s.jobs, s.attempts, s.leases);
    case CapacityLaw => CapacityOfSessions(s.queues, s.sessions, s.sessions[i := row], s.leases);
    case _ =>
  }

  lemma HeartbeatValid(s: State, scope: Name, worker: Id, session: Id)
    requires Valid(s)
    ensures Valid(Heartbeat(s, scope, worker, session).0)
  {
    var r := Heartbeat(s, scope, worker, session);
    if r.1.Ok? {
      assert Holds(SessionRowLaw, s);
      forall law ensures Holds(law, r.0) {
        SessionHolds(s, session, r.0.sessions[session], law);
      }
    }
  }

  lemma MarkSessionStaleValid(s: State, session: Id, staleAfter: int)
    requires Valid(s)
    ensures Valid(MarkSessionStale(s, session, staleAfter).0)
  {
    var r := MarkSessionStale(s, session, staleAfter);
    if r.1 {
      assert Holds(SessionRowLaw, s);
      forall law ensures Holds(law, r.0) {
        SessionHolds(s, session, r.0.sessions[session], law);
      }
    }
  }

  lemma RegisterValid(s: State, scope: Name, reg: Registration, newWorker: Id)
    requires Valid(s)
    ensures Valid(Register(s, scope, reg, newWorker).0)
  {
    var r := Register(s, scope, reg, newWorker);
    if r.1.Ok? && reg.session !in s.sessions {
      var key, row := WorkerKey(scope, reg.name), r.1.value;
      forall law ensures Holds(law, r.0) {
        assert Holds(law, s);
        match law
        case SessionRowLaw => SessionRowsRegistered(s.sessions, s.now, row.worker, reg.session, row);
        case SessionLaw => SessionsRegistered(s.workers, s.sessions, key, reg.session, row, s.now);
        case BindingLaw => BindingsOfSessions(s.sessions, r.0.sessions, s.jobs, s.attempts, s.leases);
        case CapacityLaw => CapacityOfSessions(s.queues, s.sessions, r.0.sessions, s.leases);
        case _ =>
      }
    }
  }

  // ----------------------------------------------------------- outbox and clock

  lemma EventsHold(s: State, events: map<Id, Event>, law: Law)
    requires Valid(s) && events.Keys == s.events.Keys
    requires forall e :: e in events ==>
               && EventRow(events[e], s.now)
               && events[e].job == s.events[e].job && events[e].generation == s.events[e].generation
               && events[e].queue == s.events[e].queue
               && (events[e].status.EventPending? ==> s.events[e].status.EventPending?)
    ensures Holds(law, s.(events := events))
  {
    assert Holds(law, s);
    if law.NotificationLaw? {
      NotificationsOfEvents(s.jobs, s.events, events);
    }
  }

  lemma ClaimDueValid(s: State, picked: set<Id>, claimTimeout: nat)
    requires Valid(s)
    ensures Valid(ClaimDue(s, picked, claimTimeout).0)
  {
    var t := ClaimDue(s, picked, claimTimeout).0;
    assert Holds(EventRowLaw, s);
    forall law ensures Holds(law, t) {
      EventsHold(s, t.events, law);
    }
  }

  lemma MarkPublishedValid(s: State, e: Id)
    requires Valid(s)
    ensures Valid(MarkPublished(s, e).0)
  {
    var r := MarkPublished(s, e);
    if r.1 {
      assert Holds(EventRowLaw, s);
      forall law ensures Holds(law, r.0) {
        EventsHold(s, r.0.events, law);
      }
    }
  }

  lemma RecordFailureValid(s: State, e: Id, cause: string, retryAfter: nat)
    requires Valid(s)
    ensures Valid(RecordFailure(s, e, cause, retryAfter))
  {
    var t := RecordFailure(s, e, cause, retryAfter);
    if e in s.events && s.events[e].status.EventPending? {
      assert Holds(EventRowLaw, s);
      forall law ensures Holds(law, t) {
        EventsHold(s, t.events, law);
      }
    }
  }

  lemma TickValid(s: State, d: nat)
    requires Valid(s)
    ensures Valid(s.(now := s.now + d))
  {
    var t := s.(now := s.now + d);
    forall law ensures Holds(law, t) {
      assert Holds(law, s);
      RowsAfterTick(s, t.now);
    }
  }
}
