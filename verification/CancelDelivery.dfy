/** How a requested cancellation reaches the worker: what a heartbeat answers, and for how long. */
module CancelDelivery {
  import opened Schema
  import opened Transactions
  import opened Invariants
  import opened Steps
  import opened History
  import opened Footprints
  import opened Progress
  import opened RequestAnswers

  /** The session still executes this attempt of a job whose cancellation was requested, under this lease. */
  predicate Ordered(s: State, session: Id, d: Directive) {
    && d.lease in s.leases && s.leases[d.lease].status == LeaseActive && s.leases[d.lease].binding.session == session
    && s.leases[d.lease].attempt == d.attempt && s.leases[d.lease].binding.job == d.job
    && d.attempt in s.attempts && s.attempts[d.attempt].status in {AttemptLeased, AttemptRunning}
    && d.job in s.jobs && s.jobs[d.job].status == StatusCancelRequested
  }

  /** A heartbeat is accepted exactly from a healthy session of that worker and scope, and names exactly the ordered attempts. */
  lemma HeartbeatAnswers(s: State, scope: Name, worker: Id, session: Id)
    ensures var (t, reply) := Heartbeat(s, scope, worker, session);
            var accepted := 0 !in [worker, session] && session in s.sessions && s.sessions[session].worker == worker
                            && s.sessions[session].scope == scope && s.sessions[session].status == SessionHealthy;
            && (reply == Err(ErrValidation) <==> 0 in [worker, session])
            && (reply == Err(ErrSessionUnavailable) <==> 0 !in [worker, session] && !accepted)
            && (reply.Ok? <==> accepted)
            && (reply.Err? ==> t == s)
            && (reply.Ok? ==> forall d :: d in reply.value <==> Ordered(s, session, d))
            && (reply.Ok? ==>
                  t == s.(sessions := s.sessions[session := s.sessions[session].(
                            lastHeartbeatAt := if s.now < s.sessions[session].lastHeartbeatAt
                                               then s.sessions[session].lastHeartbeatAt else s.now)]))
  {
    if Heartbeat(s, scope, worker, session).1.Ok? {
      forall d ensures d in Directives(s, session) <==> Ordered(s, session, d) {
        if Ordered(s, session, d) {
          assert d == Directive(s.leases[d.lease].binding.job, s.leases[d.lease].attempt, d.lease);
        }
      }
    }
  }

  // ----------------------------------------------------------- until it ends

  predicate Requested(s: State, j: Id) {
    j in s.jobs && s.jobs[j].status == StatusCancelRequested
  }

  /** A requested cancellation stays requested until the job is CANCELED, and CANCELED is for good: it never succeeds. */
  lemma {:induction false} RequestSticks(s: State, steps: seq<Step>, j: Id)
    requires Valid(s) && j in s.jobs && s.jobs[j].status in {StatusCancelRequested, StatusCanceled}
    ensures var u := Run(s, steps); j in u.jobs && u.jobs[j].status in {StatusCancelRequested, StatusCanceled}
    decreases |steps|
  {
    if steps != [] {
      StepMoves(s, steps[0]);
      StepValid(s, steps[0]);
      RequestSticks(Apply(s, steps[0]), steps[1..], j);
    }
  }

  lemma LeaseHoldsJob(s: State, j: Id, l: Id)
    requires Valid(s) && l in s.leases && s.leases[l].status.LeaseActive? && s.leases[l].binding.job == j
    ensures j in s.jobs && s.jobs[j].status.Held()
  {
    assert s.leases[l].attempt in s.attempts && s.attempts[s.leases[l].attempt].binding.job == j by { assert Holds(BindingLaw, s); }
    assert Holds(AuthorityLaw, s);
  }

  /** Asking for the cancellation of a job that a session holds makes it requested. */
  lemma HeldJobIsRequested(s: State, scope: Name, j: Id)
    requires RequestCancel(s, scope, j).1.Ok? && j in s.jobs && s.jobs[j].status.Held()
    ensures Requested(RequestCancel(s, scope, j).0, j) && RequestCancel(s, scope, j).0.leases == s.leases
  {
    CancelAnswers(s, scope, j);
  }

  /** An attempt that still executes under a requested cancellation is ordered to its session. */
  lemma ExecutingIsOrdered(u: State, j: Id, a: Id, l: Id)
    requires Valid(u) && l in u.leases && u.leases[l].attempt == a && u.leases[l].binding.job == j
    requires j in u.jobs && u.jobs[j].status in {StatusCancelRequested, StatusCanceled}
    requires a in u.attempts && u.attempts[a].status.Executing()
    ensures Ordered(u, u.leases[l].binding.session, Directive(j, a, l))
  {
    assert u.attempts[a].binding == u.leases[l].binding by { assert Holds(BindingLaw, u); }
    assert Holds(AuthorityLaw, u);
  }

  /**
   After an accepted cancellation of a job that a session holds, every heartbeat of that session that succeeds
   names the attempt, for as long as the attempt executes.
   */
  lemma OrderedUntilItEnds(s: State, scope: Name, j: Id, l: Id, steps: seq<Step>, scope': Name, worker: Id)
    requires Valid(s) && RequestCancel(s, scope, j).1.Ok?
    requires l in s.leases && s.leases[l].status.LeaseActive? && s.leases[l].binding.job == j
    ensures var u := Run(RequestCancel(s, scope, j).0, steps);
            var a := s.leases[l].attempt;
            var reply := Heartbeat(u, scope', worker, s.leases[l].binding.session).1;
            && a in u.attempts
            && (u.attempts[a].status.Executing() && reply.Ok? ==> Directive(j, a, l) in reply.value)
  {
    var t := Apply(s, CancelStep(scope, j));
    var u, a := Run(t, steps), s.leases[l].attempt;
    LeaseHoldsJob(s, j, l);
    HeldJobIsRequested(s, scope, j);
    StepValid(s, CancelStep(scope, j));
    RequestSticks(t, steps, j);
    RunExtends(t, steps);
    assert l in u.leases && u.leases[l].attempt == a && u.leases[l].binding == s.leases[l].binding by { assert Grows(Leases, t, u); }
    assert a in u.attempts by { assert Holds(BindingLaw, u); }
    if u.attempts[a].status.Executing() {
      ExecutingIsOrdered(u, j, a, l);
      HeartbeatAnswers(u, scope', worker, s.leases[l].binding.session);
    }
  }

  // ------------------------------------------------------- never without a request

  lemma SubmittedIsNotRequested(s: State, scope: Name, key: Name, req: SubmitRequest, k: Id, event: Id, j: Id)
    requires j !in s.jobs
    ensures !Requested(Submit(s, scope, key, req, k, event).0, j)
  {
  }

  lemma ReplacementIsNotRequested(s: State, scope: Name, original: Id, key: Name, k: Id, event: Id, j: Id)
    requires j !in s.jobs
    ensures !Requested(Replay(s, scope, original, key, k, event).0, j)
  {
  }

  lemma WorkersAddNoJobs(s: State, step: Step)
    requires WorkerSide(step)
    ensures Apply(s, step).jobs.Keys == s.jobs.Keys
  {
    match step
    case ClaimStep(scope, req, locked, attempt, lease) => ClaimFrame(s, scope, req, locked, attempt, lease);
    case StartStep(scope, g) => StartFootprint(s, scope, g);
    case RenewStep(scope, g, renewalId, expected) => RenewFootprint(s, scope, g, renewalId, expected);
    case SucceedStep(scope, g, body) => SucceedFootprint(s, scope, g, body);
    case FailStep(scope, r, delayMillis, ids) => FailFootprint(s, scope, r, delayMillis, ids);
    case AcknowledgeStep(scope, g, outcomeId) => AcknowledgeFootprint(s, scope, g, outcomeId);
    case DueTimeoutStep(attempt, delayMillis, ids) => DueTimeoutFootprint(s, attempt, delayMillis, ids);
    case ExpiredLeaseStep(l, delayMillis, ids) => ExpiredLeaseFootprint(s, l, delayMillis, ids);
    case _ => JobFrame(s, step);
  }

  /** New jobs are not born with a requested cancellation. */
  lemma NewJobsAreNotRequested(s: State, step: Step, j: Id)
    requires j !in s.jobs
    ensures !Requested(Apply(s, step), j)
  {
    if WorkerSide(step) {
      WorkersAddNoJobs(s, step);
    } else {
      match step
      case SubmitStep(scope, key, req, k, event) => SubmittedIsNotRequested(s, scope, key, req, k, event, j);
      case ReplayStep(scope, original, key, k, event) => ReplacementIsNotRequested(s, scope, original, key, k, event, j);
      case CancelStep(scope, k) => CancelAnswers(s, scope, k);
      case PromoteStep(k, event) => PromotionAnswers(s, k, event);
      case RenotifyStep(k, after, event) => RenotifyFrame(s, k, after, event);
      case _ => JobFrame(s, step);
    }
  }

  /** Only a client's request for that very job asks for its cancellation. */
  lemma OnlyRequestsRequest(s: State, step: Step, j: Id)
    requires Valid(s) && !Requested(s, j) && !(step.CancelStep? && step.job == j)
    ensures !Requested(Apply(s, step), j)
  {
    if j !in s.jobs {
      NewJobsAreNotRequested(s, step, j);
    } else if step.CancelStep? {
      CancelFrame(s, step.scope, step.job);
    } else {
      StepMoves(s, step);
    }
  }

  /** A job whose cancellation nobody requests is never named to any session. */
  lemma {:induction false} NeverNamedUnrequested(s: State, steps: seq<Step>, j: Id, scope: Name, worker: Id, session: Id, d: Directive)
    requires Valid(s) && !Requested(s, j) && d.job == j
    requires forall i :: 0 <= i < |steps| && steps[i].CancelStep? ==> steps[i].job != j
    ensures var u := Run(s, steps);
            var reply := Heartbeat(u, scope, worker, session).1;
            !Requested(u, j) && (reply.Ok? ==> d !in reply.value)
    decreases |steps|
  {
    if steps == [] {
      HeartbeatAnswers(s, scope, worker, session);
    } else {
      OnlyRequestsRequest(s, steps[0], j);
      StepValid(s, steps[0]);
      NeverNamedUnrequested(Apply(s, steps[0]), steps[1..], j, scope, worker, session, d);
    }
  }
}
