/** What a claim is answered, what it writes, and which answers allow the notification to be deleted, over the rows alone. */
module ClaimAnswers {
  import opened Base
  import opened Schema
  import opened Transactions
  import opened ReportAnswers

  // --------------------------------------------------------------- conditions

  predicate Claimable(s: State, scope: Name, queue: Name, j: Id) {
    && j in s.jobs && s.jobs[j].scope == scope && s.jobs[j].spec.queue == queue
    && s.jobs[j].status == StatusQueued && s.jobs[j].availableAt <= s.now
  }

  ghost predicate AnyClaimable(s: State, scope: Name, queue: Name) {
    exists j :: Claimable(s, scope, queue, j)
  }

  /** The session has every capability the job asks for and handles its type. */
  predicate Suits(spec: JobSpec, reg: Registration) {
    (forall c :: c in spec.capabilities ==> c in reg.capabilities) && spec.jobType in reg.jobTypes
  }

  ghost predicate AnyOffered(s: State, scope: Name, queue: Name, reg: Registration, locked: set<Id>) {
    exists j :: Claimable(s, scope, queue, j) && j !in locked && Suits(s.jobs[j].spec, reg)
  }

  predicate QueueFull(s: State, queue: Name)
    requires queue in s.queues
  {
    s.queues[queue].maxConcurrency <= |set l | l in s.leases && s.leases[l].status == LeaseActive && s.leases[l].binding.queue == queue|
  }

  /** The worker holds, over all its sessions, what this session may. */
  predicate WorkerFull(s: State, session: Id)
    requires session in s.sessions
  {
    s.sessions[session].reg.concurrencyLimit
    <= |set l | l in s.leases && s.leases[l].status == LeaseActive && s.leases[l].binding.worker == s.sessions[session].worker|
  }

  ghost predicate Consumed(s: State, claimId: Id) {
    exists l :: l in s.leases && s.leases[l].claimId == claimId
  }

  /** The request is complete and comes from a healthy session of that worker and scope for a configured queue. */
  predicate Admitted(s: State, scope: Name, req: ClaimRequest) {
    && 0 !in [req.worker, req.session, req.claimId] && req.queue in s.queues && Healthy(s, req.session)
    && s.sessions[req.session].worker == req.worker && s.sessions[req.session].scope == scope
  }

  /** The session serves the queue's group, and neither limit is reached. */
  predicate HasRoom(s: State, req: ClaimRequest)
    requires req.queue in s.queues && req.session in s.sessions
  {
    && s.sessions[req.session].reg.workerGroup == s.queues[req.queue].workerGroup
    && !QueueFull(s, req.queue) && !WorkerFull(s, req.session)
  }

  // ------------------------------------------------------------------- answers

  ghost predicate Refusals(s: State, scope: Name, req: ClaimRequest, reply: Reply<ClaimResult>) {
    var named := 0 !in [req.worker, req.session, req.claimId];
    && (reply == Err(ErrValidation) <==> !named)
    && (reply == Err(ErrUnknownQueue) <==> named && req.queue !in s.queues)
    && (reply == Err(ErrSessionUnavailable) <==> named && req.queue in s.queues && !Admitted(s, scope, req))
  }

  /** Refusals of an identity never used before. */
  lemma ClaimRefusals(s: State, scope: Name, req: ClaimRequest, locked: set<Id>, attempt: Id, lease: Id)
    requires !Consumed(s, req.claimId)
    ensures Refusals(s, scope, req, Claim(s, scope, req, locked, attempt, lease).1)
  {
    assert !ClaimedBy(s.leases, req.claimId);
  }

  lemma SameCandidates(s: State, scope: Name, queue: Name, reg: Registration, locked: set<Id>)
    ensures (exists j :: Due(s, scope, queue, j)) <==> AnyClaimable(s, scope, queue)
    ensures Candidates(s, scope, queue, reg, locked) != {} <==> AnyOffered(s, scope, queue, reg, locked)
  {
    if j :| Due(s, scope, queue, j) {
      assert Claimable(s, scope, queue, j);
    }
    if j :| Claimable(s, scope, queue, j) {
      assert Due(s, scope, queue, j);
    }
    if j :| j in Candidates(s, scope, queue, reg, locked) {
      assert Claimable(s, scope, queue, j) && Suits(s.jobs[j].spec, reg);
    }
    if j :| Claimable(s, scope, queue, j) && j !in locked && Suits(s.jobs[j].spec, reg) {
      assert j in Candidates(s, scope, queue, reg, locked);
    }
  }

  ghost predicate FreshAnswer(s: State, scope: Name, req: ClaimRequest, locked: set<Id>, attempt: Id, lease: Id,
                              reply: Reply<ClaimResult>)
    requires Admitted(s, scope, req)
  {
    var reg := s.sessions[req.session].reg;
    var grouped := reg.workerGroup == s.queues[req.queue].workerGroup;
    var room := HasRoom(s, req);
    var offered := AnyOffered(s, scope, req.queue, reg, locked);
    && (reply == Ok(CapacityExhausted) <==> grouped && !room)
    && (reply == Ok(QueueEmpty) <==> room && !AnyClaimable(s, scope, req.queue))
    && (reply == Ok(NoEligibleJob) <==> !grouped || (room && AnyClaimable(s, scope, req.queue) && !offered))
    && (reply.Ok? && reply.value.Claimed? <==> room && offered && attempt !in s.attempts && lease !in s.leases)
    && (reply == Err(ErrDatabase) <==> room && offered && (attempt in s.attempts || lease in s.leases))
    && (reply.Ok? ==> reply.value != DuplicateNotification && (reply.value.Claimed? ==> !reply.value.replayed))
  }

  /** What an admitted claim under a fresh identity is answered, and exactly when. */
  lemma FreshClaimAnswers(s: State, scope: Name, req: ClaimRequest, locked: set<Id>, attempt: Id, lease: Id)
    requires !Consumed(s, req.claimId) && Admitted(s, scope, req)
    ensures FreshAnswer(s, scope, req, locked, attempt, lease, Claim(s, scope, req, locked, attempt, lease).1)
  {
    var reg := s.sessions[req.session].reg;
    assert !ClaimedBy(s.leases, req.claimId);
    SameCandidates(s, scope, req.queue, reg, locked);
    assert ActiveInQueue(s.leases, req.queue) ==
           set l | l in s.leases && s.leases[l].status == LeaseActive && s.leases[l].binding.queue == req.queue;
    assert ActiveOfWorker(s.leases, req.worker) ==
           set l | l in s.leases && s.leases[l].status == LeaseActive && s.leases[l].binding.worker == req.worker;
  }

  // -------------------------------------------------------------------- writes

  /** What a granted claim leaves: a leased job, its next attempt, a fresh lease of full length, and their description. */
  lemma ClaimWrites(s: State, scope: Name, req: ClaimRequest, locked: set<Id>, attempt: Id, lease: Id)
    requires var reply := Claim(s, scope, req, locked, attempt, lease).1; reply.Ok? && reply.value.Claimed? && !reply.value.replayed
    ensures var (t, reply) := Claim(s, scope, req, locked, attempt, lease);
            var j := reply.value.assignment.job;
            var number := |set a | a in s.attempts && s.attempts[a].binding.job == j| + 1;
            var binding := Binding(j, scope, req.queue, req.worker, req.session);
            && Claimable(s, scope, req.queue, j)
            && t.jobs == s.jobs[j := s.jobs[j].(status := StatusLeased, updatedAt := s.now)]
            && t.attempts == s.attempts[attempt :=
                 Attempt(binding, number, AttemptLeased, None, None, None, None, None, None, None, None, None)]
            && t.leases == s.leases[lease :=
                 Lease(binding, attempt, req.claimId, LeaseActive, s.now, s.now, s.now + s.leaseDuration, None, 0, None)]
            && t == s.(jobs := t.jobs, attempts := t.attempts, leases := t.leases)
            && reply.value.assignment == Assignment(scope, j, s.jobs[j].spec, attempt, number, lease, s.now + s.leaseDuration,
                                                    s.leaseDuration, req.worker, req.session)
  {
    var reg := s.sessions[req.session].reg;
    var j := First(s.jobs, Candidates(s, scope, req.queue, reg, locked));
    assert Claim(s, scope, req, locked, attempt, lease).0 == Grant(s, req, j, attempt, lease);
    assert AttemptsOf(s.attempts, j) == set a | a in s.attempts && s.attempts[a].binding.job == j;
  }

  // ----------------------------------------------------------- acknowledgement

  lemma ConsumedClaimIsSafe(s: State, scope: Name, req: ClaimRequest, locked: set<Id>, attempt: Id, lease: Id)
    requires Consumed(s, req.claimId)
    ensures var (t, reply) := Claim(s, scope, req, locked, attempt, lease);
            t == s && (reply.Ok? ==> reply.value.SafeToAcknowledge())
  {
    assert ClaimedBy(s.leases, req.claimId);
  }

  /**
   An answer lets the notification be deleted exactly if afterwards its identity has a lease, or the session had
   room and the queue held nothing to claim. So no answer ever strands a job that is due.
   */
  lemma SafeExactlyIfNothingIsLeft(s: State, scope: Name, req: ClaimRequest, locked: set<Id>, attempt: Id, lease: Id)
    requires Claim(s, scope, req, locked, attempt, lease).1.Ok?
    ensures Admitted(s, scope, req)
    ensures var (t, reply) := Claim(s, scope, req, locked, attempt, lease);
            reply.value.SafeToAcknowledge() <==>
            Consumed(t, req.claimId) || (HasRoom(s, req) && !AnyClaimable(s, scope, req.queue))
  {
    if Consumed(s, req.claimId) {
      assert ClaimedBy(s.leases, req.claimId);
      ConsumedClaimIsSafe(s, scope, req, locked, attempt, lease);
    } else {
      ClaimRefusals(s, scope, req, locked, attempt, lease);
      FreshClaimAnswers(s, scope, req, locked, attempt, lease);
      var (t, reply) := Claim(s, scope, req, locked, attempt, lease);
      if reply.value.Claimed? {
        ClaimWrites(s, scope, req, locked, attempt, lease);
        assert lease in t.leases && t.leases[lease].claimId == req.claimId;
      } else {
        UnclaimedChangesNothing(s, scope, req, locked, attempt, lease);
      }
    }
  }

  lemma UnclaimedChangesNothing(s: State, scope: Name, req: ClaimRequest, locked: set<Id>, attempt: Id, lease: Id)
    requires var reply := Claim(s, scope, req, locked, attempt, lease).1; reply.Err? || !reply.value.Claimed?
    ensures Claim(s, scope, req, locked, attempt, lease).0 == s
  {
  }

  /** A safe answer without an assignment, under a fresh identity, leaves no due job in the queue. */
  lemma SafeAnswerStrandsNothing(s: State, scope: Name, req: ClaimRequest, locked: set<Id>, attempt: Id, lease: Id, j: Id)
    requires !Consumed(s, req.claimId)
    requires var reply := Claim(s, scope, req, locked, attempt, lease).1;
             reply.Ok? && reply.value.SafeToAcknowledge() && !reply.value.Claimed?
    ensures !Claimable(s, scope, req.queue, j)
  {
    ClaimRefusals(s, scope, req, locked, attempt, lease);
    FreshClaimAnswers(s, scope, req, locked, attempt, lease);
    SafeExactlyIfNothingIsLeft(s, scope, req, locked, attempt, lease);
    UnclaimedChangesNothing(s, scope, req, locked, attempt, lease);
  }
}
