/** Lost authority is never regained, nothing commits under it, and the derived totals only grow. */
module StaleAuthority {
  import opened Base
  import opened Schema
  import opened Transactions
  import opened Invariants
  import opened Steps
  import opened History

  /** The fence a worker's report presents. */
  function Presented(step: Step): Option<Fence> {
    match step
    case StartStep(_, fence) => Some(fence)
    case RenewStep(_, fence, _, _) => Some(fence)
    case SucceedStep(_, fence, _) => Some(fence)
    case FailStep(_, report, _, _) => Some(report.fence)
    case AcknowledgeStep(_, fence, _) => Some(fence)
    case _ => None
  }

  /** The lease lapsed or closed, the attempt ended, or the session was replaced or went stale. */
  predicate Lost(s: State, f: Fence) {
    || (f.lease in s.leases && !LeaseUsable(s.leases[f.lease], s.now))
    || (f.attempt in s.attempts && !s.attempts[f.attempt].status.Executing())
    || (f.session in s.sessions && !s.sessions[f.session].status.SessionHealthy?)
  }

  lemma LostStays(s: State, t: State, f: Fence)
    requires Extends(s, t) && Lost(s, f)
    ensures Lost(t, f)
  {
    assert Grows(Settings, s, t) && Grows(Leases, s, t) && Grows(JobAttempts, s, t) && Grows(WorkerSessions, s, t);
  }

  lemma LostCommitsNothing(s: State, f: Fence, step: Step)
    requires Lost(s, f) && Presented(step) == Some(f)
    ensures Apply(s, step) == s
  {
  }

  /** Once any part of a fence is stale, no report under it alters any table after any further run. */
  lemma StaleAuthorityNeverCommits(s: State, steps: seq<Step>, f: Fence, step: Step)
    requires Valid(s) && Lost(s, f) && Presented(step) == Some(f)
    ensures Apply(Run(s, steps), step) == Run(s, steps)
  {
    RunExtends(s, steps);
    LostStays(s, Run(s, steps), f);
    LostCommitsNothing(Run(s, steps), f, step);
  }

  /** A session that is not current never claims, beats or becomes healthy again. */
  lemma EndedSessionStaysEnded(s: State, steps: seq<Step>, session: Id, scope: Name, worker: Id,
                               req: ClaimRequest, locked: set<Id>, attempt: Id, lease: Id)
    requires Valid(s) && session in s.sessions && !s.sessions[session].status.Current() && req.session == session
    ensures var u := Run(s, steps);
            && session in u.sessions && u.sessions[session] == s.sessions[session]
            && Apply(u, HeartbeatStep(scope, worker, session)) == u
            && Apply(u, ClaimStep(scope, req, locked, attempt, lease)) == u
  {
    RunExtends(s, steps);
    assert Grows(WorkerSessions, s, Run(s, steps));
  }

  /** Terminal rows are the same rows in every later state. */
  lemma TerminalRowsStay(s: State, steps: seq<Step>)
    requires Valid(s)
    ensures var u := Run(s, steps);
            && (forall j :: j in s.jobs && s.jobs[j].status.Terminal() ==> j in u.jobs && u.jobs[j] == s.jobs[j])
            && (forall a :: a in s.attempts && !s.attempts[a].status.Executing() ==> a in u.attempts && u.attempts[a] == s.attempts[a])
            && (forall l :: l in s.leases && !s.leases[l].status.LeaseActive? ==> l in u.leases && u.leases[l] == s.leases[l])
  {
    RunExtends(s, steps);
    var u := Run(s, steps);
    assert Grows(Jobs, s, u) && Grows(JobAttempts, s, u) && Grows(Leases, s, u);
  }

  // ------------------------------------------------------------------ totals

  ghost function Submitted(s: State, queue: Name): set<Id> {
    set j | j in s.jobs && s.jobs[j].spec.queue == queue
  }

  ghost function Completed(s: State, queue: Name, status: JobStatus): set<Id> {
    set j | j in s.jobs && s.jobs[j].spec.queue == queue && s.jobs[j].status == status
  }

  /** Attempts beyond the given number: 0 counts claims, 1 counts retries. */
  ghost function AttemptsAfter(s: State, queue: Name, number: nat): set<Id> {
    set a | a in s.attempts && s.attempts[a].binding.queue == queue && number < s.attempts[a].number
  }

  ghost function DeadLettered(s: State, queue: Name, reason: DLQReason): set<Id> {
    set d | d in s.dlq && s.dlq[d].queue == queue && s.dlq[d].reason == reason
  }

  /** Every counter read from durable state is monotone over any run. */
  lemma TotalsNeverDecrease(s: State, steps: seq<Step>, queue: Name, status: JobStatus, number: nat, reason: DLQReason)
    requires Valid(s) && status.Terminal()
    ensures var u := Run(s, steps);
            && |Submitted(s, queue)| <= |Submitted(u, queue)|
            && |Completed(s, queue, status)| <= |Completed(u, queue, status)|
            && |AttemptsAfter(s, queue, number)| <= |AttemptsAfter(u, queue, number)|
            && |DeadLettered(s, queue, reason)| <= |DeadLettered(u, queue, reason)|
  {
    RunExtends(s, steps);
    var u := Run(s, steps);
    assert Grows(Jobs, s, u) && Grows(JobAttempts, s, u) && Grows(DlqEntries, s, u);
    SubsetSize(Submitted(s, queue), Submitted(u, queue));
    SubsetSize(Completed(s, queue, status), Completed(u, queue, status));
    SubsetSize(AttemptsAfter(s, queue, number), AttemptsAfter(u, queue, number));
    SubsetSize(DeadLettered(s, queue, reason), DeadLettered(u, queue, reason));
  }
}
