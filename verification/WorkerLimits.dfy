/**
 The declared concurrency limit of a worker. Claims count every ACTIVE lease of the logical worker
 against the limit of the claiming boot, but a new boot may declare less than its predecessor holds.
 */
module WorkerLimits {
  import opened Base
  import opened Schema
  import opened Transactions
  import opened Invariants
  import opened Steps
  import opened History
  import opened Footprints
  import opened Accounting
  import opened Scenarios

  predicate IsCurrent(s: State, i: Id) {
    i in s.sessions && s.sessions[i].status.Current()
  }

  predicate WithinDeclared(s: State, i: Id) {
    i in s.sessions && |ActiveOfWorker(s.leases, s.sessions[i].worker)| <= s.sessions[i].reg.concurrencyLimit
  }

  function Max(a: nat, b: nat): nat {
    if a < b then b else a
  }

  // ------------------------------------------------------------ one transaction

  lemma OnlyClaimsLease(s: State, step: Step)
    requires !step.ClaimStep?
    ensures Apply(s, step).leases.Keys == s.leases.Keys
  {
    match step
    case StartStep(scope, fence) => StartFootprint(s, scope, fence);
    case RenewStep(scope, fence, renewalId, expected) => RenewFootprint(s, scope, fence, renewalId, expected);
    case SucceedStep(scope, fence, body) => SucceedFootprint(s, scope, fence, body);
    case FailStep(scope, report, delayMillis, ids) => FailFootprint(s, scope, report, delayMillis, ids);
    case AcknowledgeStep(scope, fence, outcomeId) => AcknowledgeFootprint(s, scope, fence, outcomeId);
    case DueTimeoutStep(attempt, delayMillis, ids) => DueTimeoutFootprint(s, attempt, delayMillis, ids);
    case ExpiredLeaseStep(lease, delayMillis, ids) => ExpiredLeaseFootprint(s, lease, delayMillis, ids);
    case _ => AuthorityFrame(s, step);
  }

  lemma LoadShrinks(s: State, t: State, w: Id)
    requires Extends(s, t) && t.leases.Keys == s.leases.Keys
    ensures |ActiveOfWorker(t.leases, w)| <= |ActiveOfWorker(s.leases, w)|
  {
    assert Grows(Leases, s, t);
    SubsetSize(ActiveOfWorker(t.leases, w), ActiveOfWorker(s.leases, w));
  }

  lemma LeaseAdded(leases: map<Id, Lease>, l: Id, lease: Lease, w: Id)
    ensures |ActiveOfWorker(leases[l := lease], w)| <=
            |ActiveOfWorker(leases, w)| + if lease.binding.worker == w then 1 else 0
  {
    if lease.binding.worker == w {
      SubsetSize(ActiveOfWorker(leases[l := lease], w), ActiveOfWorker(leases, w) + {l});
    } else {
      SubsetSize(ActiveOfWorker(leases[l := lease], w), ActiveOfWorker(leases, w));
    }
  }

  predicate HasRoom(s: State, req: ClaimRequest) {
    && IsCurrent(s, req.session) && s.sessions[req.session].worker == req.worker
    && |ActiveOfWorker(s.leases, req.worker)| < s.sessions[req.session].reg.concurrencyLimit
  }

  /** A claim adds a lease only to a current session, and only below that session's limit. */
  lemma ClaimNeedsRoom(s: State, scope: Name, req: ClaimRequest, locked: set<Id>, attempt: Id, lease: Id)
    ensures Claim(s, scope, req, locked, attempt, lease).0 == s || HasRoom(s, req)
  {
  }

  lemma GrantLoad(s: State, req: ClaimRequest, j: Id, attempt: Id, lease: Id, w: Id)
    requires j in s.jobs
    ensures |ActiveOfWorker(Grant(s, req, j, attempt, lease).leases, w)| <=
            |ActiveOfWorker(s.leases, w)| + if req.worker == w then 1 else 0
  {
    LeaseAdded(s.leases, lease, Grant(s, req, j, attempt, lease).leases[lease], w);
  }

  lemma ClaimLoad(s: State, scope: Name, req: ClaimRequest, locked: set<Id>, attempt: Id, lease: Id, i: Id)
    requires Valid(s) && IsCurrent(s, i)
    ensures var w, t := s.sessions[i].worker, Claim(s, scope, req, locked, attempt, lease).0;
            |ActiveOfWorker(t.leases, w)| <= Max(|ActiveOfWorker(s.leases, w)|, s.sessions[i].reg.concurrencyLimit)
  {
    var w := s.sessions[i].worker;
    var t := Claim(s, scope, req, locked, attempt, lease).0;
    ClaimNeedsRoom(s, scope, req, locked, attempt, lease);
    ClaimFrame(s, scope, req, locked, attempt, lease);
    if t != s {
      var j :| j in s.jobs && s.jobs[j].status.StatusQueued? && t == Grant(s, req, j, attempt, lease);
      GrantLoad(s, req, j, attempt, lease, w);
      if req.worker == w {
        OneCurrentSession(s, i, req.session);
      }
    }
  }

  lemma StepLoad(s: State, step: Step, i: Id)
    requires Valid(s) && IsCurrent(s, i)
    ensures var w := s.sessions[i].worker;
            |ActiveOfWorker(Apply(s, step).leases, w)| <= Max(|ActiveOfWorker(s.leases, w)|, s.sessions[i].reg.concurrencyLimit)
  {
    if step.ClaimStep? {
      ClaimLoad(s, step.scope, step.req, step.locked, step.newAttempt, step.newLease, i);
    } else {
      OnlyClaimsLease(s, step);
      StepExtends(s, step);
      LoadShrinks(s, Apply(s, step), s.sessions[i].worker);
    }
  }

  // ------------------------------------------------------------------ whole runs

  lemma CurrentWasCurrent(s: State, t: State, i: Id)
    requires Extends(s, t) && i in s.sessions && IsCurrent(t, i)
    ensures IsCurrent(s, i) && t.sessions[i].worker == s.sessions[i].worker && t.sessions[i].reg == s.sessions[i].reg
  {
    assert Grows(WorkerSessions, s, t);
  }

  /** While a session stays current, the leases of its worker never rise above what it found or what it declared. */
  lemma {:induction false} RunLoad(s: State, steps: seq<Step>, i: Id)
    requires Valid(s) && i in s.sessions && IsCurrent(Run(s, steps), i)
    ensures var w := s.sessions[i].worker;
            |ActiveOfWorker(Run(s, steps).leases, w)| <= Max(|ActiveOfWorker(s.leases, w)|, s.sessions[i].reg.concurrencyLimit)
    decreases |steps|
  {
    if steps != [] {
      var t := Apply(s, steps[0]);
      StepExtends(s, steps[0]);
      StepValid(s, steps[0]);
      assert i in t.sessions by { assert Grows(WorkerSessions, s, t); }
      RunExtends(t, steps[1..]);
      CurrentWasCurrent(t, Run(s, steps), i);
      CurrentWasCurrent(s, t, i);
      StepLoad(s, steps[0], i);
      RunLoad(t, steps[1..], i);
    }
  }

  ghost predicate AlwaysWithin(s: State, i: Id) {
    forall steps :: IsCurrent(Run(s, steps), i) ==> WithinDeclared(Run(s, steps), i)
  }

  lemma WithinStaysWithin(s: State, steps: seq<Step>, i: Id)
    requires Valid(s) && WithinDeclared(s, i) && IsCurrent(Run(s, steps), i)
    ensures WithinDeclared(Run(s, steps), i)
  {
    RunLoad(s, steps, i);
    RunExtends(s, steps);
    CurrentWasCurrent(s, Run(s, steps), i);
  }

  /**
   A new boot stays within the limit it declares for as long as it is current exactly if the worker's
   ACTIVE leases already fit that limit when it registers.
   */
  lemma DeclaredLimitHolds(s: State, scope: Name, reg: Registration, newWorker: Id)
    requires Valid(s) && reg.session !in s.sessions && Register(s, scope, reg, newWorker).1.Ok?
    ensures var r := Register(s, scope, reg, newWorker);
            AlwaysWithin(r.0, reg.session) <==> |ActiveOfWorker(s.leases, r.1.value.worker)| <= reg.concurrencyLimit
  {
    var step := RegisterStep(scope, reg, newWorker);
    var t := Register(s, scope, reg, newWorker).0;
    assert t == Apply(s, step);
    StepValid(s, step);
    if AlwaysWithin(t, reg.session) {
      assert Run(t, []) == t;
    }
    if WithinDeclared(t, reg.session) {
      forall steps | IsCurrent(Run(t, steps), reg.session) ensures WithinDeclared(Run(t, steps), reg.session) {
        WithinStaysWithin(t, steps, reg.session);
      }
    }
  }

  // ------------------------------------------------------- a smaller second boot

  predicate Hired(s: State) {
    s.now == 0 && s.queues == MIGRATED.queues && s.workers == HIRED.workers && s.sessions == HIRED.sessions
  }

  ghost predicate Taken(jobs: map<Id, Job>, attempts: map<Id, Attempt>, n: Id) {
    && (forall j :: j in jobs <==> 1 <= j < n) && (forall a :: a in attempts <==> 1 <= a < n)
    && (forall j :: j in jobs ==> jobs[j].status.StatusLeased?)
  }

  ghost predicate Held(leases: map<Id, Lease>, n: Id) {
    && (forall l :: l in leases <==> 1 <= l < n)
    && (forall l :: l in leases ==> leases[l].claimId == l && leases[l].status.LeaseActive? && leases[l].binding.worker == 1)
  }

  ghost predicate Announced(events: map<Id, Event>, submissions: map<SubmissionKey, Submission>, n: Id) {
    (forall e :: e in events <==> 1 <= e < n) && (forall k :: k in submissions ==> k.key < n)
  }

  /** After the first boot: the jobs below n were submitted and claimed one after the other, under their own numbers. */
  ghost predicate Busy(s: State, n: Id) {
    Hired(s) && Taken(s.jobs, s.attempts, n) && Held(s.leases, n) && Announced(s.events, s.submissions, n)
  }

  lemma BusyLoad(s: State, n: Id)
    requires Busy(s, n) && 1 <= n
    ensures |ActiveOfWorker(s.leases, 1)| == n - 1 && |ActiveInQueue(s.leases, 1)| <= n - 1
  {
    assert ActiveOfWorker(s.leases, 1) == UpTo(n - 1);
    SubsetSize(ActiveInQueue(s.leases, 1), UpTo(n - 1));
  }

  lemma TakenMore(jobs: map<Id, Job>, attempts: map<Id, Attempt>, n: Id, queued: Job, job: Job, attempt: Attempt)
    requires Taken(jobs, attempts, n) && 1 <= n && job.status.StatusLeased?
    ensures Taken(jobs[n := queued][n := job], attempts[n := attempt], n + 1)
  {
  }

  lemma HeldMore(leases: map<Id, Lease>, n: Id, lease: Lease)
    requires Held(leases, n) && 1 <= n && lease.claimId == n && lease.status.LeaseActive? && lease.binding.worker == 1
    ensures Held(leases[n := lease], n + 1)
  {
  }

  lemma AnnouncedMore(s: State, n: Id)
    requires Announced(s.events, s.submissions, n) && 1 <= n
    ensures Announced(Submitted(s, n).events, Submitted(s, n).submissions, n + 1)
  {
  }

  lemma GrantedIsBusy(s: State, n: Id)
    requires Busy(s, n) && 1 <= n
    ensures Busy(Grant(Submitted(s, n), ClaimRequest(1, 1, n, 1), n, n, n), n + 1)
  {
    var t := Grant(Submitted(s, n), ClaimRequest(1, 1, n, 1), n, n, n);
    AnnouncedMore(s, n);
    HeldMore(s.leases, n, t.leases[n]);
    TakenMore(s.jobs, s.attempts, n, Submitted(s, n).jobs[n], t.jobs[n], t.attempts[n]);
  }

  lemma OneMore(s: State, n: Id)
    requires Busy(s, n) && 1 <= n <= 2
    ensures Busy(Apply(Apply(s, Enqueue(n)), TakeNext(n)), n + 1)
  {
    BusyLoad(s, n);
    Enqueues(s, n);
    ClaimsTheOnlyJob(Submitted(s, n), n);
    GrantedIsBusy(s, n);
  }

  lemma SecondBoot(s: State)
    requires Busy(s, 3)
    ensures var t := Apply(s, BootStep(2, 1)); IsCurrent(t, 2) && !WithinDeclared(t, 2)
  {
    BusyLoad(s, 3);
  }

  lemma {:induction false} BusyReached(n: Id) returns (steps: seq<Step>)
    requires 1 <= n <= 3
    ensures Busy(Run(MIGRATED, steps), n)
    decreases n
  {
    if n == 1 {
      FirstBoot();
      steps := [BootStep(1, 2)];
      RunOne(MIGRATED, BootStep(1, 2));
    } else {
      steps := BusyReached(n - 1);
      var s := Run(MIGRATED, steps);
      OneMore(s, n - 1);
      RunMore(MIGRATED, steps, Enqueue(n - 1));
      RunMore(MIGRATED, steps + [Enqueue(n - 1)], TakeNext(n - 1));
      steps := steps + [Enqueue(n - 1)] + [TakeNext(n - 1)];
    }
  }

  /** The declared limit can be exceeded: a boot for two takes two jobs, and the next boot declares one. */
  lemma SmallerBootExceeds() returns (steps: seq<Step>)
    ensures Initial(MIGRATED) && IsCurrent(Run(MIGRATED, steps), 2) && !WithinDeclared(Run(MIGRATED, steps), 2)
  {
    steps := BusyReached(3);
    SecondBoot(Run(MIGRATED, steps));
    RunMore(MIGRATED, steps, BootStep(2, 1));
    FirstBoot();
    steps := steps + [BootStep(2, 1)];
  }
}
