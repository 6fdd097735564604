/**
 Every transaction waits for its locks in one global order, and rows it takes with SKIP LOCKED
 it never waits for, so no set of transactions can deadlock.
 */
module LockOrder {
  import opened Schema
  import opened Transactions
  import opened Steps

  /**
   Row locks, the advisory lock of a claim identity, and the unique keys on which an insert or update waits
   for a concurrent one. A share lock is what the foreign key of a new job takes on its queue.
   */
  datatype Lock =
    | ClaimLock(claimId: Id)
    | QueueLock(queue: Name)
    | QueueShare(queue: Name)
    | WorkerLock(worker: WorkerKey)
    | SessionLock(session: Id)
    | JobLock(job: Id)
    | AttemptLock(attempt: Id)
    | LeaseLock(lease: Id)
    | SessionKeyLock(session: Id)
    | SubmissionKeyLock(submission: SubmissionKey)
    | ReplayKeyLock(replay: ReplayKey)
    | OutcomeKeyLock(outcomeId: Id)
    | RenewalKeyLock(renewalId: Id)
    | EventLock(event: Id)
  {
    function Rank(): nat {
      match this
      case ClaimLock(_) => 0
      case QueueLock(_) => 1
      case QueueShare(_) => 1
      case WorkerLock(_) => 2
      case SessionLock(_) => 3
      case JobLock(_) => 4
      case AttemptLock(_) => 5
      case LeaseLock(_) => 6
      case SessionKeyLock(_) => 7
      case SubmissionKeyLock(_) => 7
      case ReplayKeyLock(_) => 7
      case OutcomeKeyLock(_) => 7
      case RenewalKeyLock(_) => 7
      case EventLock(_) => 8
    }
  }

  /** Two transactions cannot hold these at once: share locks of a queue exclude only its exclusive lock. */
  predicate Clash(a: Lock, b: Lock) {
    if a.QueueShare? then b == QueueLock(a.queue)
    else if b.QueueShare? then a == QueueLock(b.queue)
    else a == b
  }

  predicate Increasing(plan: seq<Lock>) {
    forall i, k :: 0 <= i < k < |plan| ==> plan[i].Rank() < plan[k].Rank()
  }

  // ----------------------------------------------------- what each step locks

  /** A fenced transition routes by the lease and then locks downwards from its queue. */
  function FencePlan(s: State, scope: Name, f: Fence): seq<Lock> {
    if f.lease !in s.leases || !LeaseMatches(s.leases[f.lease], scope, f) then []
    else if !SessionMatches(s, scope, f.worker, f.session) then [QueueLock(s.leases[f.lease].binding.queue)]
    else [QueueLock(s.leases[f.lease].binding.queue), SessionLock(f.session), JobLock(f.job), AttemptLock(f.attempt), LeaseLock(f.lease)]
  }

  function JobPlan(s: State, j: Id): seq<Lock> {
    if j !in s.jobs then [] else [QueueLock(s.jobs[j].spec.queue), JobLock(j)]
  }

  ghost predicate CurrentSession(s: State, key: WorkerKey, i: Id) {
    key in s.workers && i in s.sessions && s.sessions[i].worker == s.workers[key] && s.sessions[i].status.Current()
  }

  /** The replayed session row, or else the worker's current session that the new boot ends and the key it inserts. */
  ghost function RegistrationPlan(s: State, scope: Name, reg: Registration): seq<Lock> {
    var key := WorkerKey(scope, reg.name);
    if reg.session in s.sessions then [WorkerLock(key), SessionLock(reg.session)]
    else if i :| CurrentSession(s, key, i) then [WorkerLock(key), SessionLock(i), SessionKeyLock(reg.session)]
    else [WorkerLock(key), SessionKeyLock(reg.session)]
  }

  /** A claim waits for its identity, its queue and its session, and when it repeats itself for the rows it made. */
  ghost function ClaimPlan(s: State, scope: Name, req: ClaimRequest): seq<Lock> {
    if req.queue !in s.queues then [ClaimLock(req.claimId)]
    else if !SessionMatches(s, scope, req.worker, req.session) then [ClaimLock(req.claimId), QueueLock(req.queue)]
    else
      var base := [ClaimLock(req.claimId), QueueLock(req.queue), SessionLock(req.session)];
      if !ClaimedBy(s.leases, req.claimId) then base
      else
        var l := LeaseOfClaim(s.leases, req.claimId);
        base + [JobLock(s.leases[l].binding.job), AttemptLock(s.leases[l].attempt), LeaseLock(l)]
  }

  /** What each transaction waits for, in that order, given the rows it reads. */
  ghost function LockPlan(s: State, step: Step): seq<Lock> {
    match step
    case RegisterStep(scope, reg, _) => RegistrationPlan(s, scope, reg)
    case HeartbeatStep(scope, worker, session) =>
      if SessionMatches(s, scope, worker, session) then [SessionLock(session)] else []
    case MarkStaleStep(session, _) => if session in s.sessions then [SessionLock(session)] else []
    case ClaimStep(scope, req, _, _, _) => ClaimPlan(s, scope, req)
    case StartStep(scope, f) => FencePlan(s, scope, f)
    case RenewStep(scope, f, renewalId, _) => FencePlan(s, scope, f) + [RenewalKeyLock(renewalId)]
    case SucceedStep(scope, f, _) => FencePlan(s, scope, f)
    case FailStep(scope, r, _, _) => FencePlan(s, scope, r.fence) + [OutcomeKeyLock(r.outcomeId)]
    case AcknowledgeStep(scope, f, outcomeId) => FencePlan(s, scope, f) + [OutcomeKeyLock(outcomeId)]
    case DueTimeoutStep(attempt, _, _) =>
      if !HasLease(s.leases, attempt) then []
      else
        var l := LeaseOf(s.leases, attempt);
        FencePlan(s, s.leases[l].binding.scope, FenceOf(s.leases, l))
    case ExpiredLeaseStep(l, _, _) =>
      if l !in s.leases then [] else FencePlan(s, s.leases[l].binding.scope, FenceOf(s.leases, l))
    case CancelStep(_, j) => JobPlan(s, j)
    case SubmitStep(scope, key, req, _, _) => [QueueShare(req.spec.queue), SubmissionKeyLock(SubmissionKey(scope, key))]
    case ReplayStep(scope, original, key, _, _) => JobPlan(s, original) + [ReplayKeyLock(ReplayKey(scope, original, key))]
    case PromoteStep(j, _) => JobPlan(s, j)
    case RenotifyStep(j, _, _) => JobPlan(s, j)
    case ClaimEventsStep(_, _) => []
    case MarkPublishedStep(e) => [EventLock(e)]
    case RecordFailureStep(e, _, _) => [EventLock(e)]
    case TickStep(_) => []
  }

  /** What each transaction takes at once if it is free, and skips otherwise: a claimed job, or a batch of due events. */
  ghost function SkipPlan(s: State, step: Step): set<Lock> {
    match step
    case ClaimStep(scope, req, locked, _, _) =>
      if !SessionMatches(s, scope, req.worker, req.session) || ClaimedBy(s.leases, req.claimId) then {}
      else
        var c := Candidates(s, scope, req.queue, s.sessions[req.session].reg, locked);
        if c == {} then {} else {JobLock(First(s.jobs, c))}
    case ClaimEventsStep(picked, _) => set e | e in picked && EventDue(s, e) :: EventLock(e)
    case _ => {}
  }

  predicate Below(plan: seq<Lock>, rank: nat) {
    forall i :: 0 <= i < |plan| ==> plan[i].Rank() < rank
  }

  lemma FencePlanOrdered(s: State, scope: Name, f: Fence)
    ensures Increasing(FencePlan(s, scope, f)) && Below(FencePlan(s, scope, f), 7)
  {
  }

  lemma ClaimPlanOrdered(s: State, scope: Name, req: ClaimRequest)
    ensures Increasing(ClaimPlan(s, scope, req))
    ensures !ClaimedBy(s.leases, req.claimId) ==> Below(ClaimPlan(s, scope, req), 4)
  {
  }

  lemma RegistrationPlanOrdered(s: State, scope: Name, reg: Registration)
    ensures Increasing(RegistrationPlan(s, scope, reg))
  {
  }

  lemma AppendOrdered(plan: seq<Lock>, lock: Lock)
    requires Increasing(plan) && Below(plan, lock.Rank())
    ensures Increasing(plan + [lock])
  {
  }

  lemma JobPlanOrdered(s: State, j: Id)
    ensures Increasing(JobPlan(s, j)) && Below(JobPlan(s, j), 7)
  {
  }

  lemma ReconcilePlanOrdered(s: State, l: Id)
    requires l in s.leases
    ensures Increasing(FencePlan(s, s.leases[l].binding.scope, FenceOf(s.leases, l)))
  {
    FencePlanOrdered(s, s.leases[l].binding.scope, FenceOf(s.leases, l));
  }

  lemma WorkerPlansAreOrdered(s: State, step: Step)
    requires WorkerSide(step)
    ensures Increasing(LockPlan(s, step))
  {
    match step
    case ClaimStep(scope, req, _, _, _) => ClaimPlanOrdered(s, scope, req);
    case StartStep(scope, f) => FencePlanOrdered(s, scope, f);
    case RenewStep(scope, f, renewalId, _) =>
      FencePlanOrdered(s, scope, f);
      AppendOrdered(FencePlan(s, scope, f), RenewalKeyLock(renewalId));
    case SucceedStep(scope, f, _) => FencePlanOrdered(s, scope, f);
    case FailStep(scope, r, _, _) =>
      FencePlanOrdered(s, scope, r.fence);
      AppendOrdered(FencePlan(s, scope, r.fence), OutcomeKeyLock(r.outcomeId));
    case AcknowledgeStep(scope, f, outcomeId) =>
      FencePlanOrdered(s, scope, f);
      AppendOrdered(FencePlan(s, scope, f), OutcomeKeyLock(outcomeId));
    case RegisterStep(scope, reg, _) => RegistrationPlanOrdered(s, scope, reg);
    case DueTimeoutStep(attempt, _, _) =>
      if HasLease(s.leases, attempt) {
        ReconcilePlanOrdered(s, LeaseOf(s.leases, attempt));
      }
    case ExpiredLeaseStep(l, _, _) =>
      if l in s.leases {
        ReconcilePlanOrdered(s, l);
      }
    case _ =>
  }

  lemma SkippedComeLast(s: State, step: Step, lock: Lock)
    requires lock in SkipPlan(s, step)
    ensures Below(LockPlan(s, step), lock.Rank())
  {
    if step.ClaimStep? {
      ClaimPlanOrdered(s, step.scope, step.req);
    }
  }

  /** Every transaction waits for its locks in increasing rank; what it takes without waiting ranks above all of them. */
  lemma PlansAreOrdered(s: State, step: Step)
    ensures Increasing(LockPlan(s, step))
    ensures forall lock :: lock in SkipPlan(s, step) ==> Below(LockPlan(s, step), lock.Rank())
  {
    forall lock | lock in SkipPlan(s, step) ensures Below(LockPlan(s, step), lock.Rank()) {
      SkippedComeLast(s, step, lock);
    }
    if WorkerSide(step) {
      WorkerPlansAreOrdered(s, step);
    } else {
      match step
      case CancelStep(_, j) => JobPlanOrdered(s, j);
      case PromoteStep(j, _) => JobPlanOrdered(s, j);
      case RenotifyStep(j, _, _) => JobPlanOrdered(s, j);
      case ReplayStep(scope, original, key, _, _) =>
        JobPlanOrdered(s, original);
        AppendOrdered(JobPlan(s, original), ReplayKeyLock(ReplayKey(scope, original, key)));
      case _ =>
    }
  }

  // ---------------------------------------------------------------- deadlock

  /** A running transaction: the locks it waits for and how many it got, those it may skip and those it grabbed. */
  datatype Running = Running(plan: seq<Lock>, taken: nat, skip: set<Lock>, grabbed: set<Lock>)
  {
    /** It grabs only once it has nothing left to wait for. */
    predicate Proper() {
      taken <= |plan| && Increasing(plan) && grabbed <= skip && (Waiting() ==> grabbed == {})
    }

    predicate Holds(lock: Lock) {
      taken <= |plan| && (lock in plan[..taken] || lock in grabbed)
    }

    predicate Waiting() {
      taken < |plan|
    }

    function Wanted(): Lock
      requires Waiting()
    {
      plan[taken]
    }

    ghost predicate Excludes(lock: Lock) {
      exists own :: Holds(own) && Clash(own, lock)
    }
  }

  type Table = map<Id, Running>

  predicate BothHold(t: Table, x: Id, a: Lock, y: Id, b: Lock) {
    x in t && y in t && t[x].Holds(a) && t[y].Holds(b)
  }

  ghost predicate Proper(t: Table) {
    && (forall x :: x in t ==> t[x].Proper())
    && (forall x, y, a, b :: BothHold(t, x, a, y, b) && Clash(a, b) ==> x == y)
  }

  ghost predicate Blocks(t: Table, x: Id, y: Id) {
    x in t && y in t && x != y && t[x].Waiting() && t[y].Excludes(t[x].Wanted())
  }

  /** What a waiting transaction holds ranks below what it waits for. */
  lemma HeldIsBelow(r: Running, own: Lock)
    requires r.Proper() && r.Waiting() && r.Holds(own)
    ensures own.Rank() < r.Wanted().Rank()
  {
    var held := r.plan[..r.taken];
    var i :| 0 <= i < |held| && held[i] == own;
    assert r.plan[i] == own;
  }

  /** The holder of what a transaction waits for can only be waiting for something of higher rank. */
  lemma WaitsClimb(t: Table, x: Id, y: Id)
    requires Proper(t) && Blocks(t, x, y) && t[y].Waiting()
    ensures t[x].Wanted().Rank() < t[y].Wanted().Rank()
  {
    var own :| t[y].Holds(own) && Clash(own, t[x].Wanted());
    HeldIsBelow(t[y], own);
  }

  ghost predicate WaitPath(t: Table, path: seq<Id>) {
    && (forall i :: 0 <= i < |path| ==> path[i] in t && t[path[i]].Waiting())
    && (forall i :: 0 <= i < |path| - 1 ==> Blocks(t, path[i], path[i + 1]))
  }

  lemma {:induction false} PathClimbs(t: Table, path: seq<Id>)
    requires Proper(t) && WaitPath(t, path) && 2 <= |path|
    ensures t[path[0]].Wanted().Rank() < t[path[|path| - 1]].Wanted().Rank()
  {
    WaitsClimb(t, path[0], path[1]);
    if 2 < |path| {
      assert forall i :: 0 <= i < |path[1..]| ==> path[1..][i] == path[i + 1];
      PathClimbs(t, path[1..]);
    }
  }

  /** No wait cycle exists among any number of transactions. */
  lemma NoWaitCycle(t: Table, path: seq<Id>)
    requires Proper(t) && WaitPath(t, path) && 2 <= |path|
    ensures path[0] != path[|path| - 1]
  {
    PathClimbs(t, path);
  }

  // -------------------------------------------------------------------- runs

  ghost predicate Free(t: Table, x: Id, lock: Lock) {
    forall y :: y in t && y != x ==> !t[y].Excludes(lock)
  }

  /** A transaction can commit, or take the lock it waits for because nobody excludes it. */
  ghost predicate CanMove(t: Table, x: Id) {
    x in t && (t[x].Waiting() ==> Free(t, x, t[x].Wanted()))
  }

  /** It may take, of the rows it skips when locked, any that are free. */
  ghost predicate CanGrab(t: Table, x: Id, locks: set<Lock>) {
    x in t && !t[x].Waiting() && locks <= t[x].skip && forall lock :: lock in locks ==> Free(t, x, lock)
  }

  function Advanced(r: Running): Running {
    r.(taken := r.taken + 1)
  }

  function Grabbed(r: Running, locks: set<Lock>): Running {
    r.(grabbed := r.grabbed + locks)
  }

  /** A transaction begins with what it will read, waits, grabs, commits, or rolls back at any point. */
  datatype LockEvent =
    | Begin(id: Id, state: State, step: Step)
    | Proceed(id: Id)
    | Grab(id: Id, locks: set<Lock>)
    | Rollback(id: Id)

  ghost function NextTable(t: Table, e: LockEvent): Table {
    match e
    case Begin(x, s, step) => if x in t then t else t[x := Running(LockPlan(s, step), 0, SkipPlan(s, step), {})]
    case Proceed(x) =>
      if !CanMove(t, x) then t
      else if t[x].Waiting() then t[x := Advanced(t[x])]
      else t - {x}
    case Grab(x, locks) => if CanGrab(t, x, locks) then t[x := Grabbed(t[x], locks)] else t
    case Rollback(x) => t - {x}
  }

  lemma ClashIsSymmetric(a: Lock, b: Lock)
    ensures Clash(a, b) <==> Clash(b, a)
  {
  }

  lemma Apart(t: Table, x: Id, a: Lock, y: Id, b: Lock)
    requires Proper(t) && y in t && y != x && t[y].Holds(b)
    requires (x in t && t[x].Holds(a)) || Free(t, x, a)
    ensures !Clash(a, b) && !Clash(b, a)
  {
    ClashIsSymmetric(a, b);
    if x in t && t[x].Holds(a) {
      assert BothHold(t, x, a, y, b);
    } else {
      assert !t[y].Excludes(a);
    }
  }

  /** New locks that nobody else excludes keep the table proper. */
  lemma TakeProper(t: Table, x: Id, r: Running)
    requires Proper(t) && r.Proper()
    requires forall lock :: r.Holds(lock) ==> (x in t && t[x].Holds(lock)) || Free(t, x, lock)
    ensures Proper(t[x := r])
  {
    var n := t[x := r];
    forall y, z, a, b | BothHold(n, y, a, z, b) && y != z ensures !Clash(a, b) {
      if y == x {
        Apart(t, x, a, z, b);
      } else if z == x {
        Apart(t, x, b, y, a);
      } else {
        assert BothHold(t, y, a, z, b);
      }
    }
  }

  lemma AdvanceHolds(r: Running, lock: Lock)
    requires r.Proper() && r.Waiting()
    ensures Advanced(r).Holds(lock) ==> r.Holds(lock) || lock == r.Wanted()
  {
    assert Advanced(r).plan[..r.taken + 1] == r.plan[..r.taken] + [r.Wanted()];
  }

  lemma NextProper(t: Table, e: LockEvent)
    requires Proper(t)
    ensures Proper(NextTable(t, e))
  {
    match e
    case Begin(x, s, step) =>
      PlansAreOrdered(s, step);
      if x !in t {
        TakeProper(t, x, Running(LockPlan(s, step), 0, SkipPlan(s, step), {}));
      }
    case Proceed(x) =>
      if CanMove(t, x) {
        if t[x].Waiting() {
          forall lock | Advanced(t[x]).Holds(lock) ensures t[x].Holds(lock) || Free(t, x, lock) {
            AdvanceHolds(t[x], lock);
          }
          TakeProper(t, x, Advanced(t[x]));
        } else {
          RemoveProper(t, x);
        }
      }
    case Grab(x, locks) =>
      if CanGrab(t, x, locks) {
        TakeProper(t, x, Grabbed(t[x], locks));
      }
    case Rollback(x) => RemoveProper(t, x);
  }

  lemma RemoveProper(t: Table, x: Id)
    requires Proper(t)
    ensures Proper(t - {x})
  {
    forall y, z, a, b | BothHold(t - {x}, y, a, z, b) && Clash(a, b) ensures y == z {
      assert BothHold(t, y, a, z, b);
    }
  }

  lemma {:induction false} HighestWaiter(t: Table, xs: set<Id>) returns (x: Id)
    requires xs != {} && forall y :: y in xs ==> y in t && t[y].Waiting()
    ensures x in xs && forall y :: y in xs ==> t[y].Wanted().Rank() <= t[x].Wanted().Rank()
  {
    var first :| first in xs;
    var rest := xs - {first};
    assert forall y :: y in xs ==> y == first || y in rest;
    if rest == {} {
      x := first;
    } else {
      var y := HighestWaiter(t, rest);
      x := if t[first].Wanted().Rank() < t[y].Wanted().Rank() then y else first;
    }
  }

  /** As long as any transaction is running, some transaction can move: the system never deadlocks. */
  lemma SomeoneCanMove(t: Table) returns (x: Id)
    requires Proper(t) && t.Keys != {}
    ensures CanMove(t, x)
  {
    if y :| y in t && !t[y].Waiting() {
      x := y;
    } else {
      x := HighestWaiter(t, t.Keys);
      forall y | y in t && y != x ensures !t[y].Excludes(t[x].Wanted()) {
        if t[y].Excludes(t[x].Wanted()) {
          WaitsClimb(t, x, y);
        }
      }
    }
  }

  ghost function RunTable(t: Table, events: seq<LockEvent>): Table
    decreases |events|
  {
    if events == [] then t else RunTable(NextTable(t, events[0]), events[1..])
  }

  lemma {:induction false} RunProper(t: Table, events: seq<LockEvent>)
    requires Proper(t)
    ensures Proper(RunTable(t, events))
    decreases |events|
  {
    if events != [] {
      NextProper(t, events[0]);
      RunProper(NextTable(t, events[0]), events[1..]);
    }
  }

  // ---------------------------------------------------------------- completion

  /** What is left to do for the transactions numbered below n: each lock still waited for, and the commit. */
  function Work(t: Table, n: nat): nat {
    if n == 0 then 0
    else Work(t, n - 1) + if n - 1 in t && t[n - 1].taken <= |t[n - 1].plan| then |t[n - 1].plan| - t[n - 1].taken + 1 else 0
  }

  lemma {:induction false} WorkElsewhere(t: Table, u: Table, x: Id, n: nat)
    requires n <= x && forall y :: y < n ==> (y in t <==> y in u) && (y in t ==> t[y] == u[y])
    ensures Work(t, n) == Work(u, n)
  {
    if n != 0 {
      WorkElsewhere(t, u, x, n - 1);
    }
  }

  lemma {:induction false} MoveDoesWork(t: Table, x: Id, n: nat)
    requires Proper(t) && CanMove(t, x) && x < n
    ensures Work(NextTable(t, Proceed(x)), n) < Work(t, n)
  {
    var u := NextTable(t, Proceed(x));
    if n - 1 == x {
      WorkElsewhere(t, u, x, n - 1);
    } else {
      MoveDoesWork(t, x, n - 1);
    }
  }

  predicate OnlyProceeds(events: seq<LockEvent>) {
    forall i :: 0 <= i < |events| ==> events[i].Proceed?
  }

  /** Without anyone rolling back, all running transactions can be brought to commit. */
  lemma {:induction false} TableDrains(t: Table, n: nat) returns (rest: seq<LockEvent>)
    requires Proper(t) && forall x :: x in t ==> x < n
    ensures OnlyProceeds(rest) && RunTable(t, rest) == map[]
    decreases Work(t, n)
  {
    if t.Keys == {} {
      rest := [];
    } else {
      var x := SomeoneCanMove(t);
      var u := NextTable(t, Proceed(x));
      NextProper(t, Proceed(x));
      MoveDoesWork(t, x, n);
      var later := TableDrains(u, n);
      rest := [Proceed(x)] + later;
      assert rest[1..] == later;
    }
  }

  lemma {:induction false} Bound(xs: set<Id>) returns (n: nat)
    ensures forall x :: x in xs ==> x < n
  {
    if xs == {} {
      n := 0;
    } else {
      var x :| x in xs;
      var m := Bound(xs - {x});
      n := if m <= x then x + 1 else m;
      assert forall y :: y in xs ==> y == x || y in xs - {x};
    }
  }

  /**
   From any table of any number of concurrent transactions, reached by any interleaving of waits, grabs,
   commits and rollbacks, all of them can still commit one after the other.
   */
  lemma ReachableTablesDrain(t: Table, events: seq<LockEvent>) returns (rest: seq<LockEvent>)
    requires Proper(t)
    ensures OnlyProceeds(rest) && RunTable(RunTable(t, events), rest) == map[]
  {
    RunProper(t, events);
    var n := Bound(RunTable(t, events).Keys);
    rest := TableDrains(RunTable(t, events), n);
  }

  /** In every reachable table somebody can take the lock it waits for, or commit. */
  lemma ReachableTablesMove(t: Table, events: seq<LockEvent>)
    requires Proper(t)
    ensures var u := RunTable(t, events); u.Keys != {} ==> exists x :: CanMove(u, x)
  {
    RunProper(t, events);
    if RunTable(t, events).Keys != {} {
      var x := SomeoneCanMove(RunTable(t, events));
    }
  }
}
