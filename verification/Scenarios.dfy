/** The first steps of a small run from a migrated database, shared by the runs that show a promise broken. */
module Scenarios {
  import opened Base
  import opened Schema
  import opened Transactions
  import opened Invariants
  import opened Steps

  /** One queue for ten executions, and nothing else yet. */
  const MIGRATED := State(0, 30 * SECOND, map[1 := Queue(1, 10)], map[], map[], map[], map[], map[], map[], map[], map[], map[], map[])

  /** Two attempts of ten seconds each. */
  const SMALL_JOB := SubmitRequest(JobSpec(1, 1, 1, 0, 2, 10, {}), None, 1)

  function Boot(session: Id, limit: nat): Registration {
    Registration(session, 1, 1, 1, limit, {}, {1})
  }

  function BootStep(session: Id, limit: nat): Step {
    RegisterStep(1, Boot(session, limit), 1)
  }

  function Enqueue(j: Id): Step {
    SubmitStep(1, j, SMALL_JOB, j, j)
  }

  function TakeNext(k: Id): Step {
    ClaimStep(1, ClaimRequest(1, 1, k, 1), {}, k, k)
  }

  const HIRED := MIGRATED.(
    workers := map[WorkerKey(1, 1) := 1], sessions := map[1 := Session(1, 1, Boot(1, 2), SessionHealthy, 0, 0, None)])

  lemma FirstBoot()
    ensures Initial(MIGRATED) && Apply(MIGRATED, BootStep(1, 2)) == HIRED
  {
    assert EndCurrent(MIGRATED.sessions, 1, 0) == map[];
  }

  function Submitted(s: State, n: Id): State {
    s.(jobs := s.jobs[n := SubmittedJob(1, SMALL_JOB, 0)], events := s.events[n := NewEvent(n, 1, 1, 0)],
       submissions := s.submissions[SubmissionKey(1, n) := Submission(1, n)])
  }

  lemma Enqueues(s: State, n: Id)
    requires s.now == 0 && s.queues == MIGRATED.queues && n !in s.jobs && n !in s.events && SubmissionKey(1, n) !in s.submissions
    ensures Apply(s, Enqueue(n)) == Submitted(s, n)
  {
  }

  lemma ClaimsTheOnlyJob(s: State, j: Id)
    requires s.now == 0 && s.queues == MIGRATED.queues && s.sessions == HIRED.sessions
    requires 1 <= j && j !in s.leases && j !in s.attempts && (forall l :: l in s.leases ==> s.leases[l].claimId < j)
    requires |ActiveOfWorker(s.leases, 1)| < 2 && |ActiveInQueue(s.leases, 1)| < 10
    requires j in s.jobs && s.jobs[j] == SubmittedJob(1, SMALL_JOB, 0)
    requires forall i :: i in s.jobs && i != j ==> !s.jobs[i].status.StatusQueued?
    ensures Apply(s, TakeNext(j)) == Grant(s, ClaimRequest(1, 1, j, 1), j, j, j)
  {
    assert Candidates(s, 1, 1, Boot(1, 2), {}) == {j};
  }

  lemma RunOne(s: State, step: Step)
    ensures Run(s, [step]) == Apply(s, step)
  {
    assert Run(Apply(s, step), []) == Apply(s, step);
  }

  lemma RunMore(s: State, steps: seq<Step>, step: Step)
    ensures Run(s, steps + [step]) == Apply(Run(s, steps), step)
  {
    RunAppend(s, steps, [step]);
    RunOne(Run(s, steps), step);
  }

  // ------------------------------------------------------------ a running attempt

  const FENCE := Fence(1, 1, 1, 1, 1)

  const BINDING := Binding(1, 1, 1, 1, 1)

  /** The first attempt of the only job runs until its deadline at ten seconds, under a lease of thirty. */
  predicate Started(s: State) {
    && s.now == 0 && s.sessions == HIRED.sessions && s.events.Keys == {1} && s.dlq == map[]
    && s.jobs == map[1 := SubmittedJob(1, SMALL_JOB, 0).(status := StatusRunning)]
    && s.attempts == map[1 := Attempt(BINDING, 1, AttemptRunning, Some(0), Some(10 * SECOND), None, None, None, None, None, None, None)]
    && s.leases == map[1 := Lease(BINDING, 1, 1, LeaseActive, 0, 0, 30 * SECOND, None, 0, None)]
  }

  function Leased(): State {
    Submitted(HIRED, 1).(
      jobs := map[1 := SubmittedJob(1, SMALL_JOB, 0).(status := StatusLeased)],
      attempts := map[1 := Attempt(BINDING, 1, AttemptLeased, None, None, None, None, None, None, None, None, None)],
      leases := map[1 := Lease(BINDING, 1, 1, LeaseActive, 0, 0, 30 * SECOND, None, 0, None)])
  }

  lemma FirstClaim()
    ensures Apply(Submitted(HIRED, 1), TakeNext(1)) == Leased()
  {
    var s := Submitted(HIRED, 1);
    assert ActiveOfWorker(s.leases, 1) == {} && ActiveInQueue(s.leases, 1) == {} && AttemptsOf(s.attempts, 1) == {};
    ClaimsTheOnlyJob(s, 1);
  }

  lemma FirstStart()
    ensures Started(Apply(Leased(), StartStep(1, FENCE)))
  {
    var s := Leased();
    assert Fenced(s, 1, FENCE) && LeaseUsable(s.leases[1], 0);
    var t := Start(s, 1, FENCE).0;
    assert t.jobs == map[1 := s.jobs[1].(status := StatusRunning, updatedAt := 0)];
    assert t.leases == s.leases;
  }

  const OPENING := [BootStep(1, 2)] + [Enqueue(1)] + [TakeNext(1)] + [StartStep(1, FENCE)]

  lemma Opens()
    ensures Started(Run(MIGRATED, OPENING))
  {
    RunOne(MIGRATED, BootStep(1, 2));
    FirstBoot();
    RunMore(MIGRATED, [BootStep(1, 2)], Enqueue(1));
    Enqueues(HIRED, 1);
    RunMore(MIGRATED, [BootStep(1, 2)] + [Enqueue(1)], TakeNext(1));
    FirstClaim();
    RunMore(MIGRATED, [BootStep(1, 2)] + [Enqueue(1)] + [TakeNext(1)], StartStep(1, FENCE));
    FirstStart();
  }
}
