/** What clients, the scheduler, the session registry and the publisher are answered, and what is written, over the rows alone. */
module RequestAnswers {
  import opened Base
  import opened Schema
  import opened Transactions
  import opened Invariants

  /** A pending event that any publisher may claim at once. */
  predicate Announces(e: Event, j: Id, generation: nat, queue: Name, now: Time) {
    e == Event(j, generation, queue, EventPending, 0, now, None, None, None, now)
  }

  // -------------------------------------------------------------- cancellation

  ghost predicate CancelAnswer(s: State, scope: Name, j: Id, t: State, reply: Reply<CancelResult>) {
    if j !in s.jobs || s.jobs[j].scope != scope then t == s && reply == Err(ErrJobNotFound)
    else
      var job := s.jobs[j];
      && (job.status in {StatusSucceeded, StatusDeadLettered} ==> t == s && reply == Err(ErrJobNotCancelable))
      && (job.status in {StatusCancelRequested, StatusCanceled} ==>
            t == s && reply == Ok(CancelResult(j, job.status, job.cancelRequestedAt, true)))
      && (job.status in {StatusLeased, StatusRunning} ==>
            && t == s.(jobs := s.jobs[j := job.(status := StatusCancelRequested, cancelRequestedAt := Some(s.now), updatedAt := s.now)])
            && reply == Ok(CancelResult(j, StatusCancelRequested, Some(s.now), false)))
      && (job.status in {StatusPending, StatusQueued, StatusRetryWait} ==>
            && t == s.(jobs := s.jobs[j := job.(status := StatusCanceled, cancelRequestedAt := Some(s.now), updatedAt := s.now)])
            && reply == Ok(CancelResult(j, StatusCanceled, Some(s.now), false)))
  }

  /** An executing job waits for its worker, a waiting one is canceled at once, a canceled one repeats, a finished one refuses. */
  lemma CancelAnswers(s: State, scope: Name, j: Id)
    ensures CancelAnswer(s, scope, j, RequestCancel(s, scope, j).0, RequestCancel(s, scope, j).1)
  {
  }

  // ---------------------------------------------------------------- submission

  predicate InBounds(spec: JobSpec) {
    1 <= spec.maxAttempts <= 100 && 1 <= spec.timeoutSeconds <= 86400 && 0 <= spec.priority <= 100
  }

  ghost predicate SubmitRefusals(s: State, scope: Name, key: Name, req: SubmitRequest, j: Id, event: Id, reply: Reply<JobResult>) {
    var known := InBounds(req.spec) && req.spec.queue in s.queues;
    var used := SubmissionKey(scope, key) in s.submissions;
    var later := req.scheduledAt.Some? && s.now < req.scheduledAt.value;
    && (reply == Err(ErrValidation) <==> !InBounds(req.spec))
    && (reply == Err(ErrUnknownQueue) <==> InBounds(req.spec) && req.spec.queue !in s.queues)
    && (reply == Err(ErrIdempotencyConflict) <==>
          known && j !in s.jobs && used && s.submissions[SubmissionKey(scope, key)].fingerprint != req.fingerprint)
    && (reply == Err(ErrDatabase) <==> known && (j in s.jobs || (!used && !later && event in s.events)))
    && (reply.Ok? && !reply.value.replayed <==> known && j !in s.jobs && !used && (later || event !in s.events))
  }

  lemma SubmitAnswers(s: State, scope: Name, key: Name, req: SubmitRequest, j: Id, event: Id)
    requires Valid(s)
    ensures SubmitRefusals(s, scope, key, req, j, event, Submit(s, scope, key, req, j, event).1)
  {
    assert Holds(SubmissionLaw, s);
  }

  /** A future schedule waits for its time unannounced; anything else is queued now and announced with the same commit. */
  lemma SubmitWrites(s: State, scope: Name, key: Name, req: SubmitRequest, j: Id, event: Id)
    requires var reply := Submit(s, scope, key, req, j, event).1; reply.Ok? && !reply.value.replayed
    ensures var (t, reply) := Submit(s, scope, key, req, j, event);
            var later := req.scheduledAt.Some? && s.now < req.scheduledAt.value;
            && t == s.(jobs := t.jobs, events := t.events, submissions := t.submissions)
            && t.submissions == s.submissions[SubmissionKey(scope, key) := Submission(req.fingerprint, j)]
            && j in t.jobs && t.jobs == s.jobs[j := t.jobs[j]] && reply.value == JobResult(j, t.jobs[j], false)
            && (later ==>
                  && t.jobs[j] == Job(scope, req.spec, StatusPending, req.scheduledAt, req.scheduledAt.value, None, None, 0, None, s.now, s.now)
                  && t.events == s.events)
            && (!later ==>
                  && t.jobs[j] == Job(scope, req.spec, StatusQueued, req.scheduledAt, s.now, None, None, 1, Some(s.now), s.now, s.now)
                  && event in t.events && t.events == s.events[event := t.events[event]]
                  && Announces(t.events[event], j, 1, req.spec.queue, s.now))
  {
  }

  // -------------------------------------------------------------------- replay

  ghost predicate ReplayRefusals(s: State, scope: Name, original: Id, key: Name, j: Id, event: Id, reply: Reply<JobResult>) {
    var found := original in s.jobs && s.jobs[original].scope == scope;
    var dead := found && s.jobs[original].status == StatusDeadLettered;
    var used := ReplayKey(scope, original, key) in s.replays;
    && (reply == Err(ErrJobNotFound) <==> !found)
    && (reply == Err(ErrNotDeadLettered) <==> found && !dead)
    && (reply == Err(ErrDatabase) <==> dead && (j in s.jobs || (!used && event in s.events)))
    && (reply.Ok? && reply.value.replayed <==> dead && j !in s.jobs && used)
    && (reply.Ok? && !reply.value.replayed <==> dead && j !in s.jobs && !used && event !in s.events)
  }

  /** Exactly a dead-lettered job of the scope can be replayed; in a valid state the status alone tells. */
  lemma ReplayAnswers(s: State, scope: Name, original: Id, key: Name, j: Id, event: Id)
    requires Valid(s)
    ensures ReplayRefusals(s, scope, original, key, j, event, Replay(s, scope, original, key, j, event).1)
  {
    if original in s.jobs && s.jobs[original].status.StatusDeadLettered? {
      assert HasEntry(s.dlq, original) by { assert Holds(DeadLetterLaw, s); }
    }
    var k := ReplayKey(scope, original, key);
    if k in s.replays {
      assert ReplayedAs(s.jobs, k, s.replays[k]) by { assert Holds(SubmissionLaw, s); }
    }
  }

  lemma ReplayWrites(s: State, scope: Name, original: Id, key: Name, j: Id, event: Id)
    requires var reply := Replay(s, scope, original, key, j, event).1; reply.Ok? && !reply.value.replayed
    ensures original in s.jobs
    ensures var (t, reply) := Replay(s, scope, original, key, j, event);
            && t == s.(jobs := t.jobs, events := t.events, replays := s.replays[ReplayKey(scope, original, key) := j])
            && j in t.jobs && t.jobs == s.jobs[j := t.jobs[j]] && reply.value == JobResult(j, t.jobs[j], false)
            && t.jobs[j] == Job(scope, s.jobs[original].spec, StatusQueued, None, s.now, None, Some(original), 1, Some(s.now), s.now, s.now)
            && event in t.events && t.events == s.events[event := t.events[event]]
            && Announces(t.events[event], j, 1, s.jobs[original].spec.queue, s.now)
  {
  }

  // ----------------------------------------------------------------- scheduler

  predicate Ripe(s: State, j: Id) {
    j in s.jobs && s.jobs[j].status in {StatusPending, StatusRetryWait} && s.jobs[j].availableAt <= s.now
  }

  /** The scheduler queues exactly the jobs whose time has come, and announces a new generation of each. */
  lemma PromotionAnswers(s: State, j: Id, event: Id)
    ensures var (t, reply) := PromoteDueJob(s, j, event);
            && (reply == Ok(true) <==> Ripe(s, j) && event !in s.events)
            && (reply == Err(ErrDatabase) <==> Ripe(s, j) && event in s.events)
            && (reply == Ok(false) <==> !Ripe(s, j))
            && (reply != Ok(true) ==> t == s)
            && (reply == Ok(true) ==>
                  var job := s.jobs[j];
                  && t == s.(jobs := s.jobs[j := job.(status := StatusQueued, updatedAt := s.now, generation := job.generation + 1,
                                                      lastNotificationAt := Some(s.now))], events := t.events)
                  && event in t.events && t.events == s.events[event := t.events[event]]
                  && Announces(t.events[event], j, job.generation + 1, job.spec.queue, s.now))
  {
  }

  /** Queued, last announced longer ago than that, and nobody is about to publish the current generation. */
  ghost predicate Stranded(s: State, j: Id, after: int) {
    && j in s.jobs && s.jobs[j].status == StatusQueued
    && s.jobs[j].lastNotificationAt.Some? && s.jobs[j].lastNotificationAt.value + after < s.now
    && forall e :: e in s.events && s.events[e].job == j && s.events[e].generation == s.jobs[j].generation ==>
         s.events[e].status != EventPending
  }

  lemma StrandedMeans(s: State, j: Id)
    requires j in s.jobs
    ensures HasPending(s.events, j, s.jobs[j].generation) <==>
            exists e :: e in s.events && s.events[e].job == j && s.events[e].generation == s.jobs[j].generation
                        && s.events[e].status == EventPending
  {
    if e :| e in s.events && s.events[e].job == j && s.events[e].generation == s.jobs[j].generation
            && s.events[e].status == EventPending {
      assert PendingEvent(s.events, e, j, s.jobs[j].generation);
    }
    if e :| PendingEvent(s.events, e, j, s.jobs[j].generation) {
      assert e in s.events && s.events[e].status == EventPending;
    }
  }

  /** Exactly a stranded job is announced again, on the same generation. */
  lemma RenotificationAnswers(s: State, j: Id, after: int, event: Id)
    requires Valid(s)
    ensures var (t, reply) := RenotifyStrandedJob(s, j, after, event);
            && (reply == Ok(true) <==> Stranded(s, j, after) && event !in s.events)
            && (reply == Err(ErrDatabase) <==> Stranded(s, j, after) && event in s.events)
            && (reply == Ok(false) <==> !Stranded(s, j, after))
            && (reply != Ok(true) ==> t == s)
            && (reply == Ok(true) ==>
                  && t == s.(jobs := s.jobs[j := s.jobs[j].(lastNotificationAt := Some(s.now))], events := t.events)
                  && event in t.events && t.events == s.events[event := t.events[event]]
                  && Announces(t.events[event], j, s.jobs[j].generation, s.jobs[j].spec.queue, s.now))
  {
    if j in s.jobs {
      StrandedMeans(s, j);
      assert JobRow(s.jobs[j], s.now) by { assert Holds(JobRowLaw, s); }
    }
  }

  // ------------------------------------------------------------------ sessions

  ghost predicate RegistrationAnswer(s: State, scope: Name, reg: Registration, newWorker: Id, t: State, reply: Reply<Session>) {
    var key := WorkerKey(scope, reg.name);
    var worker := if key in s.workers then s.workers[key] else newWorker;
    var formed := reg.session != 0 && 1 <= reg.concurrencyLimit <= 256 && |reg.capabilities| <= 64 && 1 <= |reg.jobTypes| <= 64;
    var clash := key !in s.workers && newWorker in s.workers.Values;
    var known := formed && !clash && reg.session in s.sessions;
    var same := known && s.sessions[reg.session].worker == worker && s.sessions[reg.session].reg == reg;
    && (reply == Err(ErrValidation) <==> !formed)
    && (reply == Err(ErrDatabase) <==> formed && clash)
    && (reply == Err(ErrSessionConflict) <==> known && !same)
    && (reply == Err(ErrSessionUnavailable) <==> same && s.sessions[reg.session].status != SessionHealthy)
    && (same && s.sessions[reg.session].status == SessionHealthy ==> reply == Ok(s.sessions[reg.session]))
    && (reply.Err? || known ==> t == s)
    && (formed && !clash && !known ==>
          && reply == Ok(Session(worker, scope, reg, SessionHealthy, s.now, s.now, None))
          && t == s.(workers := s.workers[key := worker], sessions := t.sessions)
          && t.sessions.Keys == s.sessions.Keys + {reg.session} && t.sessions[reg.session] == reply.value
          && forall i :: i in s.sessions ==>
               t.sessions[i] == if s.sessions[i].worker == worker && s.sessions[i].status in {SessionStarting, SessionHealthy, SessionDraining}
                                then s.sessions[i].(status := SessionOffline, endedAt := Some(s.now)) else s.sessions[i])
  }

  /** A new boot ends the worker's current one and starts healthy; the same boot repeats; a different one under its identity conflicts. */
  lemma RegistrationAnswers(s: State, scope: Name, reg: Registration, newWorker: Id)
    ensures RegistrationAnswer(s, scope, reg, newWorker, Register(s, scope, reg, newWorker).0, Register(s, scope, reg, newWorker).1)
  {
  }

  /** Exactly a current session silent for longer than the threshold is marked, and it ends. */
  lemma StaleAnswers(s: State, session: Id, staleAfter: int)
    ensures var (t, marked) := MarkSessionStale(s, session, staleAfter);
            && (marked <==>
                  && session in s.sessions && s.sessions[session].status in {SessionStarting, SessionHealthy, SessionDraining}
                  && s.sessions[session].lastHeartbeatAt + staleAfter < s.now)
            && t == if marked then
                      s.(sessions := s.sessions[session := s.sessions[session].(status := SessionUnhealthy, endedAt := Some(s.now))])
                    else s
  {
  }

  // -------------------------------------------------------------------- outbox

  predicate Waiting(s: State, e: Id) {
    e in s.events && s.events[e].status == EventPending
  }

  /** Exactly a pending event is marked published, with its time and without an old error. */
  lemma PublishedAnswers(s: State, e: Id)
    ensures var (t, marked) := MarkPublished(s, e);
            && (marked <==> Waiting(s, e))
            && t == if !marked then s
                    else s.(events := s.events[e := s.events[e].(status := EventPublished, publishedAt := Some(s.now), lastError := None)])
  {
  }

  /** A failure is stored on a pending event, bounded, with the time of the next try. */
  lemma FailureRecorded(s: State, e: Id, cause: string, retryAfter: nat)
    ensures var t := RecordFailure(s, e, cause, retryAfter);
            if !Waiting(s, e) then t == s
            else
              && e in t.events && t.events[e].lastError.Some? && t.events[e].lastError.value <= cause
              && |t.events[e].lastError.value| == (if |cause| < 1000 then |cause| else 1000)
              && t.events[e] == s.events[e].(lastError := t.events[e].lastError, availableAt := s.now + retryAfter)
              && t == s.(events := s.events[e := t.events[e]])
  {
  }

  /** A claim takes exactly the picked events that are pending and due, counts it and hides them for the timeout. */
  lemma ClaimedAnswers(s: State, picked: set<Id>, claimTimeout: nat)
    ensures var (t, taken) := ClaimDue(s, picked, claimTimeout);
            && (forall e :: e in taken <==> e in picked && Waiting(s, e) && s.events[e].availableAt <= s.now)
            && t == s.(events := t.events) && t.events.Keys == s.events.Keys
            && forall e :: e in s.events ==>
                 t.events[e] == if e in taken then s.events[e].(attempts := s.events[e].attempts + 1, claimedAt := Some(s.now),
                                                                availableAt := s.now + claimTimeout) else s.events[e]
  {
  }
}
