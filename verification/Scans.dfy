/**
 The periodic scans. Each reads an unlocked list of candidates and then handles them one
 transaction at a time, while other replicas, workers and clients keep committing in between.
 */
module Scans {
  import opened Base
  import opened Schema
  import opened Transactions
  import opened Invariants
  import opened Endings
  import opened Steps
  import opened History
  import opened Progress
  import opened ControlPlane

  /** What happens before one candidate is handled, and what its transaction draws. */
  datatype Turn = Turn(before: seq<Step>, delayMillis: nat, ids: NewIds)

  // --------------------------------------------------------------- candidates

  predicate Earlier(due: map<Id, Time>, i: Id, k: Id)
    requires i in due && k in due
  {
    due[i] < due[k] || (due[i] == due[k] && i < k)
  }

  ghost predicate IsEarliest(due: map<Id, Time>, rest: set<Id>, i: Id)
    requires rest <= due.Keys
  {
    i in rest && forall k :: k in rest && k != i ==> Earlier(due, i, k)
  }

  lemma {:induction false} EarliestExists(due: map<Id, Time>, rest: set<Id>)
    requires rest <= due.Keys && rest != {}
    ensures exists i :: IsEarliest(due, rest, i)
  {
    var x :| x in rest;
    if rest == {x} {
      assert IsEarliest(due, rest, x);
    } else {
      var others := rest - {x};
      assert rest == others + {x};
      EarliestExists(due, others);
      var i :| IsEarliest(due, others, i);
      assert IsEarliest(due, rest, if Earlier(due, x, i) then x else i);
    }
  }

  /** Some k of the due rows, earliest first: nothing left behind comes before anything taken. */
  ghost predicate OldestOf(due: map<Id, Time>, ids: seq<Id>) {
    && (forall i :: 0 <= i < |ids| ==> ids[i] in due)
    && (forall i, k :: 0 <= i < k < |ids| ==> Earlier(due, ids[i], ids[k]))
    && (forall i, x :: 0 <= i < |ids| && x in due && x !in ids ==> Earlier(due, ids[i], x))
  }

  method OldestFirst(due: map<Id, Time>, limit: nat) returns (ids: seq<Id>)
    ensures OldestOf(due, ids) && |ids| <= limit
    ensures |ids| < limit ==> forall x :: x in due ==> x in ids
  {
    ids := [];
    var rest := due.Keys;
    while |ids| < limit && rest != {}
      invariant |ids| <= limit && rest <= due.Keys
      invariant forall x :: x in due ==> (x in rest <==> x !in ids)
      invariant OldestOf(due, ids)
      decreases rest
    {
      EarliestExists(due, rest);
      assert exists i :: i in rest && IsEarliest(due, rest, i);
      var x :| x in rest && forall k :: k in rest && k != x ==> Earlier(due, x, k);
      ids := ids + [x];
      rest := rest - {x};
    }
  }

  // -------------------------------------------------------------------- scans

  datatype Scan = LeaseScan | TimeoutScan | PromotionScan | StaleScan(staleAfter: int)

  function StepOf(scan: Scan, id: Id, turn: Turn): Step {
    match scan
    case LeaseScan => ExpiredLeaseStep(id, turn.delayMillis, turn.ids)
    case TimeoutScan => DueTimeoutStep(id, turn.delayMillis, turn.ids)
    case PromotionScan => PromoteStep(id, turn.ids.event)
    case StaleScan(staleAfter) => MarkStaleStep(id, staleAfter)
  }

  /** The condition under which the unlocked query lists a row. */
  predicate Candidate(scan: Scan, s: State, id: Id) {
    match scan
    case LeaseScan => id in s.leases && s.leases[id].status.LeaseActive? && s.leases[id].expiresAt <= s.now
    case TimeoutScan => id in s.attempts && s.attempts[id].status.AttemptRunning? && TimedOut(s.attempts[id], s.now)
    case PromotionScan => id in s.jobs && s.jobs[id].status.Scheduled() && s.jobs[id].availableAt <= s.now
    case StaleScan(staleAfter) =>
      id in s.sessions && s.sessions[id].status.Current() && s.sessions[id].lastHeartbeatAt < s.now - staleAfter
  }

  /** The candidates under the time their query sorts by. */
  function DueTimes(scan: Scan, s: State): map<Id, Time> {
    match scan
    case LeaseScan => map l | l in s.leases && Candidate(scan, s, l) :: s.leases[l].expiresAt
    case TimeoutScan => map a | a in s.attempts && Candidate(scan, s, a) :: s.attempts[a].timeoutAt.value
    case PromotionScan => map j | j in s.jobs && Candidate(scan, s, j) :: s.jobs[j].availableAt
    case StaleScan(_) => map i | i in s.sessions && Candidate(scan, s, i) :: s.sessions[i].lastHeartbeatAt
  }

  /** What the unlocked query answers: the oldest candidates, and all of them unless the limit cuts the list. */
  ghost predicate Listed(scan: Scan, s: State, limit: nat, ids: seq<Id>) {
    && |ids| <= limit && OldestOf(DueTimes(scan, s), ids)
    && (|ids| < limit ==> forall x :: Candidate(scan, s, x) ==> x in ids)
  }

  method ListCandidates(scan: Scan, s: State, limit: nat) returns (ids: seq<Id>)
    ensures Listed(scan, s, limit, ids)
    ensures forall i :: 0 <= i < |ids| ==> Candidate(scan, s, ids[i])
  {
    ids := OldestFirst(DueTimes(scan, s), limit);
  }

  predicate UsableLease(s: State, l: Id, a: Id) {
    l in s.leases && s.leases[l].attempt == a && LeaseUsable(s.leases[l], s.now)
  }

  /** A running attempt past its deadline that its worker could still report on. */
  ghost predicate Overdue(s: State, a: Id) {
    && a in s.attempts && s.attempts[a].status.AttemptRunning? && TimedOut(s.attempts[a], s.now)
    && s.attempts[a].binding.job in s.jobs && s.jobs[s.attempts[a].binding.job].status.StatusRunning?
    && exists l :: UsableLease(s, l, a)
  }

  /** What the scan that started earlier wanted for the row has come about, by whoever's hand. */
  ghost predicate Handled(scan: Scan, start: State, s: State, id: Id) {
    match scan
    case LeaseScan => id in s.leases && !s.leases[id].status.LeaseActive?
    case TimeoutScan => !Overdue(s, id)
    case PromotionScan =>
      id in start.jobs && id in s.jobs
      && (start.jobs[id].generation < s.jobs[id].generation || s.jobs[id].status.StatusCanceled?)
    case StaleScan(_) =>
      id in start.sessions && id in s.sessions
      && (!s.sessions[id].status.Current() || start.sessions[id].lastHeartbeatAt < s.sessions[id].lastHeartbeatAt)
  }

  ghost predicate Succeeds(scan: Scan, s: State, id: Id, turn: Turn) {
    match scan
    case LeaseScan => ReconcileExpiredLease(s, id, turn.delayMillis, turn.ids).1.Ok?
    case TimeoutScan => ReconcileDueTimeout(s, id, turn.delayMillis, turn.ids).1.Ok?
    case PromotionScan => PromoteDueJob(s, id, turn.ids.event).1.Ok?
    case StaleScan(_) => true
  }

  // ------------------------------------------------------- candidates stay due

  lemma UsableWasUsable(s: State, t: State, a: Id, l: Id)
    requires Valid(s) && Valid(t) && Extends(s, t) && a in s.attempts && UsableLease(t, l, a)
    ensures UsableLease(s, l, a)
  {
    assert HasLease(s.leases, a) by { assert Holds(BindingLaw, s); }
    var m := LeaseOf(s.leases, a);
    assert Grows(Leases, s, t) && Grows(Settings, s, t);
    assert l == m by {
      assert Holds(BindingLaw, t);
      assert SameAttempt(t.leases, l, m);
    }
  }

  lemma RunningJobWasRunning(s: State, t: State, a: Id)
    requires Valid(s) && Extends(s, t) && a in s.attempts && s.attempts[a].status.AttemptRunning? && Overdue(t, a)
    ensures s.attempts[a].binding.job in s.jobs && s.jobs[s.attempts[a].binding.job].status.StatusRunning?
  {
    var j := s.attempts[a].binding.job;
    assert j in s.jobs && StatusesAgree(s.jobs[j].status, s.attempts[a].status) by { assert Holds(AuthorityLaw, s); }
    assert JobGrows(s.jobs[j], t.jobs[j]) by { assert Grows(Jobs, s, t); }
    assert t.attempts[a].binding.job == j by { assert Grows(JobAttempts, s, t); }
  }

  lemma OverdueWasOverdue(start: State, s: State, t: State, a: Id)
    requires Valid(s) && Valid(t) && Extends(start, s) && Extends(s, t) && Candidate(TimeoutScan, start, a) && Overdue(t, a)
    ensures Overdue(s, a)
  {
    assert a in s.attempts && AttemptGrows(start.attempts[a], s.attempts[a]) && start.now <= s.now by {
      assert Grows(Settings, start, s) && Grows(JobAttempts, start, s);
    }
    assert AttemptGrows(s.attempts[a], t.attempts[a]) by { assert Grows(JobAttempts, s, t); }
    var l :| UsableLease(t, l, a);
    UsableWasUsable(s, t, a, l);
    RunningJobWasRunning(s, t, a);
  }

  lemma HandledStays(scan: Scan, start: State, s: State, t: State, id: Id)
    requires Valid(s) && Valid(t) && Extends(start, s) && Extends(s, t)
    requires Candidate(scan, start, id) && Handled(scan, start, s, id)
    ensures Handled(scan, start, t, id)
  {
    match scan
    case LeaseScan => assert Grows(Leases, s, t);
    case TimeoutScan =>
      if Overdue(t, id) {
        OverdueWasOverdue(start, s, t, id);
      }
    case PromotionScan => assert Grows(Jobs, s, t);
    case StaleScan(_) => assert Grows(WorkerSessions, s, t);
  }

  // --------------------------------------------------------- handling one row

  lemma FinalizeCloses(s: State, f: Fence, o: AttemptOutcome, d: Decision, ids: NewIds)
    requires Executes(s, f) && !o.leaseStatus.LeaseActive? && FinalizeAttempt(s, f, o, d, ids).1.Ok?
    ensures Handled(LeaseScan, s, FinalizeAttempt(s, f, o, d, ids).0, f.lease)
  {
  }

  lemma HoldingLapseCloses(s: State, f: Fence, delayMillis: nat, ids: NewIds)
    requires Holding(s, f) && s.leases[f.lease].expiresAt <= s.now
    ensures var r := ReconcileExpiredLease(s, f.lease, delayMillis, ids); r.1.Ok? ==> Handled(LeaseScan, s, r.0, f.lease)
  {
    var a, max := s.attempts[f.attempt], s.jobs[f.job].spec.maxAttempts;
    var r := ReconcileExpiredLease(s, f.lease, delayMillis, ids);
    if s.jobs[f.job].status.StatusCancelRequested? {
      assert r.0 == FinalizeCancellation(s, f, None, LeaseExpired).0;
    } else if r.1.Ok? {
      if TimedOutBeforeLapse(a, s.leases[f.lease], s.now) {
        FinalizeCloses(s, f, TimeoutOutcome(s.leases[f.lease], s.now), Decide(ClassTimedOut, a.number, max, delayMillis).value, ids);
      } else {
        FinalizeCloses(s, f, ABANDONED, Decide(ClassAbandoned, a.number, max, delayMillis).value, ids);
      }
    }
  }

  lemma ActiveLeaseHolds(s: State, l: Id)
    requires Valid(s) && l in s.leases && s.leases[l].status.LeaseActive?
    ensures Holding(s, FenceOf(s.leases, l))
  {
    assert Holds(BindingLaw, s);
    assert s.attempts[s.leases[l].attempt].status.Executing() by { assert Holds(AuthorityLaw, s); }
    ExecutingStatuses(s, FenceOf(s.leases, l));
  }

  /** A lapsed lease is closed once a reconciliation of it succeeds: a valid state leaves nothing to skip. */
  lemma LeaseTurn(start: State, s: State, l: Id, turn: Turn)
    requires Valid(s) && Extends(start, s) && Candidate(LeaseScan, start, l) && Succeeds(LeaseScan, s, l, turn)
    ensures Handled(LeaseScan, start, Apply(s, StepOf(LeaseScan, l, turn)), l)
  {
    assert l in s.leases && s.leases[l].expiresAt <= s.now by { assert Grows(Leases, start, s) && Grows(Settings, start, s); }
    if s.leases[l].status.LeaseActive? {
      ActiveLeaseHolds(s, l);
      HoldingLapseCloses(s, FenceOf(s.leases, l), turn.delayMillis, turn.ids);
    }
  }

  lemma FinalizeStops(s: State, f: Fence, o: AttemptOutcome, d: Decision, ids: NewIds)
    requires Executes(s, f) && !o.status.Executing() && FinalizeAttempt(s, f, o, d, ids).1.Ok?
    ensures !Overdue(FinalizeAttempt(s, f, o, d, ids).0, f.attempt)
  {
  }

  lemma OverdueIsReconciled(s: State, a: Id, delayMillis: nat, ids: NewIds)
    requires Valid(s) && Overdue(s, a) && ReconcileDueTimeout(s, a, delayMillis, ids).1.Ok?
    ensures !Overdue(ReconcileDueTimeout(s, a, delayMillis, ids).0, a)
  {
    var l :| UsableLease(s, l, a);
    assert HasLease(s.leases, a);
    assert l == LeaseOf(s.leases, a) by {
      assert Holds(BindingLaw, s);
      assert SameAttempt(s.leases, l, LeaseOf(s.leases, a));
    }
    ActiveLeaseHolds(s, l);
    var f := FenceOf(s.leases, l);
    FinalizeStops(s, f, TimeoutOutcome(s.leases[l], s.now),
                  Decide(ClassTimedOut, s.attempts[a].number, s.jobs[f.job].spec.maxAttempts, delayMillis).value, ids);
  }

  lemma TimeoutTurn(s: State, a: Id, turn: Turn)
    requires Valid(s) && Succeeds(TimeoutScan, s, a, turn)
    ensures Handled(TimeoutScan, s, Apply(s, StepOf(TimeoutScan, a, turn)), a)
  {
    if Overdue(s, a) {
      OverdueIsReconciled(s, a, turn.delayMillis, turn.ids);
    } else {
      SkippedStaysSettled(s, a, turn.delayMillis, turn.ids);
    }
  }

  /** A timeout transaction only ever acts on an overdue attempt. */
  lemma SkippedStaysSettled(s: State, a: Id, delayMillis: nat, ids: NewIds)
    requires Valid(s) && !Overdue(s, a)
    ensures ReconcileDueTimeout(s, a, delayMillis, ids).0 == s
  {
    if HasLease(s.leases, a) {
      var l := LeaseOf(s.leases, a);
      assert s.leases[l].attempt in s.attempts && s.attempts[s.leases[l].attempt].binding == s.leases[l].binding by {
        assert Holds(BindingLaw, s);
      }
      if LeaseUsable(s.leases[l], s.now) {
        assert UsableLease(s, l, a);
      }
    }
  }

  lemma PromotedIfDue(s: State, j: Id, event: Id)
    requires j in s.jobs && PromoteDueJob(s, j, event).1.Ok?
    ensures var t := PromoteDueJob(s, j, event).0;
            && j in t.jobs
            && if s.jobs[j].status.Scheduled() && s.jobs[j].availableAt <= s.now
               then t.jobs[j].generation == s.jobs[j].generation + 1 else t == s
  {
  }

  lemma PromotionTurn(start: State, s: State, j: Id, turn: Turn)
    requires Extends(start, s) && Candidate(PromotionScan, start, j) && Succeeds(PromotionScan, s, j, turn)
    ensures Handled(PromotionScan, start, Apply(s, StepOf(PromotionScan, j, turn)), j)
  {
    assert j in s.jobs && JobGrows(start.jobs[j], s.jobs[j]) && start.now <= s.now by {
      assert Grows(Jobs, start, s) && Grows(Settings, start, s);
    }
    PromotedIfDue(s, j, turn.ids.event);
  }

  lemma MarkedUnlessFresh(s: State, i: Id, staleAfter: int)
    requires i in s.sessions
    ensures var t := MarkSessionStale(s, i, staleAfter).0;
            i in t.sessions && (t.sessions[i].status.Current() ==> s.now - staleAfter <= t.sessions[i].lastHeartbeatAt)
  {
  }

  lemma StaleTurn(start: State, s: State, i: Id, staleAfter: int, turn: Turn)
    requires Extends(start, s) && Candidate(StaleScan(staleAfter), start, i)
    ensures Handled(StaleScan(staleAfter), start, Apply(s, StepOf(StaleScan(staleAfter), i, turn)), i)
  {
    assert i in s.sessions && start.now <= s.now by { assert Grows(WorkerSessions, start, s) && Grows(Settings, start, s); }
    MarkedUnlessFresh(s, i, staleAfter);
  }

  lemma TurnHandles(scan: Scan, start: State, s: State, id: Id, turn: Turn)
    requires Valid(s) && Extends(start, s) && Candidate(scan, start, id) && Succeeds(scan, s, id, turn)
    ensures Handled(scan, start, Apply(s, StepOf(scan, id, turn)), id)
  {
    match scan
    case LeaseScan => LeaseTurn(start, s, id, turn);
    case TimeoutScan => TimeoutTurn(s, id, turn);
    case PromotionScan => PromotionTurn(start, s, id, turn);
    case StaleScan(staleAfter) => StaleTurn(start, s, id, staleAfter, turn);
  }

  // ---------------------------------------------------------------- whole scans

  /** Everything that happens up to and including the transaction of the n-th candidate. */
  ghost function ScanSteps(scan: Scan, ids: seq<Id>, turns: seq<Turn>, n: nat): seq<Step>
    requires n <= |ids| && n <= |turns|
  {
    if n == 0 then []
    else ScanSteps(scan, ids, turns, n - 1) + turns[n - 1].before + [StepOf(scan, ids[n - 1], turns[n - 1])]
  }

  ghost predicate AllHandled(scan: Scan, start: State, s: State, ids: seq<Id>) {
    forall i :: 0 <= i < |ids| ==> Handled(scan, start, s, ids[i])
  }

  ghost predicate Scanning(scan: Scan, start: State, s: State, ids: seq<Id>, turns: seq<Turn>, n: nat)
    requires n <= |ids| <= |turns|
  {
    && Valid(s) && Extends(start, s) && s == Run(start, ScanSteps(scan, ids, turns, n))
    && (forall i :: 0 <= i < |ids| ==> Candidate(scan, start, ids[i]))
    && (forall i :: 0 <= i < n ==> Handled(scan, start, s, ids[i]))
  }

  lemma ScanStepsRun(scan: Scan, s: State, ids: seq<Id>, turns: seq<Turn>, n: nat)
    requires n < |ids| && n < |turns|
    ensures Run(s, ScanSteps(scan, ids, turns, n + 1)) ==
            Apply(Run(Run(s, ScanSteps(scan, ids, turns, n)), turns[n].before), StepOf(scan, ids[n], turns[n]))
  {
    var done := ScanSteps(scan, ids, turns, n);
    RunAppend(s, done, turns[n].before);
    RunAppend(s, done + turns[n].before, [StepOf(scan, ids[n], turns[n])]);
  }

  /** Interference before the turn and the turn itself keep what was handled and handle one more row. */
  lemma ScanTurn(scan: Scan, start: State, s: State, ids: seq<Id>, turns: seq<Turn>, n: nat, t: State, u: State)
    requires n < |ids| <= |turns| && Scanning(scan, start, s, ids, turns, n)
    requires t == Run(s, turns[n].before) && u == Apply(t, StepOf(scan, ids[n], turns[n]))
    ensures Valid(u) && u == Run(start, ScanSteps(scan, ids, turns, n + 1))
    ensures Succeeds(scan, t, ids[n], turns[n]) ==> Scanning(scan, start, u, ids, turns, n + 1)
  {
    ScanStepsRun(scan, start, ids, turns, n);
    RunExtends(s, turns[n].before);
    ExtendsTransitive(start, s, t);
    StepValid(t, StepOf(scan, ids[n], turns[n]));
    StepExtends(t, StepOf(scan, ids[n], turns[n]));
    ExtendsTransitive(s, t, u);
    ExtendsTransitive(start, t, u);
    if Succeeds(scan, t, ids[n], turns[n]) {
      forall i | 0 <= i < n + 1 ensures Handled(scan, start, u, ids[i]) {
        if i == n {
          TurnHandles(scan, start, t, ids[n], turns[n]);
        } else {
          HandledStays(scan, start, s, u, ids[i]);
        }
      }
    }
  }

  lemma ScanBegins(scan: Scan, s: State, ids: seq<Id>, turns: seq<Turn>)
    requires Valid(s) && |ids| <= |turns| && forall i :: 0 <= i < |ids| ==> Candidate(scan, s, ids[i])
    ensures Scanning(scan, s, s, ids, turns, 0)
  {
    ExtendsItself(s);
  }

  /** The state in which the n-th candidate's own transaction runs. */
  ghost function TurnState(scan: Scan, start: State, ids: seq<Id>, turns: seq<Turn>, n: nat): State
    requires n < |ids| && n < |turns|
  {
    Run(Run(start, ScanSteps(scan, ids, turns, n)), turns[n].before)
  }

  function Sum(answers: seq<ReconcileStats>): ReconcileStats {
    if answers == [] then NO_STATS else Sum(answers[..|answers| - 1]).Add(answers[|answers| - 1])
  }

  lemma SumMore(answers: seq<ReconcileStats>, more: ReconcileStats)
    ensures Sum(answers + [more]) == Sum(answers).Add(more)
  {
    assert (answers + [more])[..|answers|] == answers;
  }

  /** The i-th transaction of the scan answered this. */
  ghost predicate Answered(scan: Scan, start: State, ids: seq<Id>, turns: seq<Turn>, i: nat, stats: ReconcileStats) {
    && i < |ids| && i < |turns|
    && var s, turn := TurnState(scan, start, ids, turns, i), turns[i];
       match scan
       case LeaseScan => ReconcileExpiredLease(s, ids[i], turn.delayMillis, turn.ids).1 == Ok(stats)
       case TimeoutScan => ReconcileDueTimeout(s, ids[i], turn.delayMillis, turn.ids).1 == Ok(stats)
       case _ => false
  }

  ghost predicate AllAnswered(scan: Scan, start: State, ids: seq<Id>, turns: seq<Turn>, answers: seq<ReconcileStats>) {
    forall i {:trigger Answered(scan, start, ids, turns, i, answers[i])} :: 0 <= i < |answers| ==> Answered(scan, start, ids, turns, i, answers[i])
  }

  lemma AnsweredMore(scan: Scan, start: State, ids: seq<Id>, turns: seq<Turn>, answers: seq<ReconcileStats>, more: ReconcileStats)
    requires AllAnswered(scan, start, ids, turns, answers) && Answered(scan, start, ids, turns, |answers|, more)
    ensures AllAnswered(scan, start, ids, turns, answers + [more])
  {
  }

  function Trues(flags: seq<bool>): nat {
    if flags == [] then 0 else Trues(flags[..|flags| - 1]) + if flags[|flags| - 1] then 1 else 0
  }

  lemma TruesMore(flags: seq<bool>, flag: bool)
    ensures Trues(flags + [flag]) == Trues(flags) + if flag then 1 else 0
  {
    assert (flags + [flag])[..|flags|] == flags;
  }

  /** The i-th transaction of the scan reported that it changed its row, or that it did not. */
  ghost predicate Changed(scan: Scan, start: State, ids: seq<Id>, turns: seq<Turn>, i: nat, changed: bool) {
    && i < |ids| && i < |turns|
    && var s := TurnState(scan, start, ids, turns, i);
       match scan
       case PromotionScan => PromoteDueJob(s, ids[i], turns[i].ids.event).1 == Ok(changed)
       case StaleScan(staleAfter) => MarkSessionStale(s, ids[i], staleAfter).1 == changed
       case _ => false
  }

  ghost predicate AllChanged(scan: Scan, start: State, ids: seq<Id>, turns: seq<Turn>, flags: seq<bool>) {
    forall i {:trigger Changed(scan, start, ids, turns, i, flags[i])} :: 0 <= i < |flags| ==> Changed(scan, start, ids, turns, i, flags[i])
  }

  lemma ChangedMore(scan: Scan, start: State, ids: seq<Id>, turns: seq<Turn>, flags: seq<bool>, more: bool)
    requires AllChanged(scan, start, ids, turns, flags) && Changed(scan, start, ids, turns, |flags|, more)
    ensures AllChanged(scan, start, ids, turns, flags + [more])
  {
  }

  /** Every handled lease was skipped or expired, and every expired one ended in exactly one way. */
  predicate Balanced(stats: ReconcileStats, handled: nat) {
    && stats.skipped + stats.expiredLeases == handled
    && stats.expiredLeases == stats.canceled + stats.requeued + stats.retryWaiting + stats.deadLettered
    && stats.timedOut <= stats.retryWaiting + stats.deadLettered
  }

  lemma ReconcileBalanced(s: State, l: Id, delayMillis: nat, ids: NewIds)
    ensures var r := ReconcileExpiredLease(s, l, delayMillis, ids).1; r.Ok? ==> Balanced(r.value, 1)
  {
  }

  /** Interference, then the candidate's own transaction. */
  method LeaseCandidate(store: Store, ghost start: State, ids: seq<Id>, turns: seq<Turn>, n: nat, ghost answers: seq<ReconcileStats>)
    returns (reply: Reply<ReconcileStats>)
    requires n < |ids| <= |turns| && Scanning(LeaseScan, start, store.db, ids, turns, n)
    requires |answers| == n && AllAnswered(LeaseScan, start, ids, turns, answers)
    modifies store
    ensures store.Consistent() && store.db == Run(start, ScanSteps(LeaseScan, ids, turns, n + 1))
    ensures reply.Ok? ==> AllAnswered(LeaseScan, start, ids, turns, answers + [reply.value])
    ensures reply.Ok? ==> Balanced(reply.value, 1) && Scanning(LeaseScan, start, store.db, ids, turns, n + 1)
  {
    ghost var s := store.db;
    store.ExecuteAll(turns[n].before);
    ghost var t := store.db;
    reply := store.ReconcileLease(ids[n], turns[n].delayMillis, turns[n].ids);
    ScanTurn(LeaseScan, start, s, ids, turns, n, t, store.db);
    ReconcileBalanced(t, ids[n], turns[n].delayMillis, turns[n].ids);
    if reply.Ok? {
      AnsweredMore(LeaseScan, start, ids, turns, answers, reply.value);
    }
  }

  /**
   Reconciles the leases that had lapsed when the scan read them. If no transaction fails, every one
   of them is closed at the end, whoever closed it, and the statistics account for each exactly once.
   */
  method ReconcileExpiredLeases(store: Store, limit: nat, turns: seq<Turn>)
    returns (stats: ReconcileStats, failure: Option<Error>, ids: seq<Id>, n: nat, ghost answers: seq<ReconcileStats>)
    requires store.Consistent() && limit <= |turns|
    modifies store
    ensures store.Consistent() && n <= |ids| && Listed(LeaseScan, old(store.db), limit, ids)
    ensures store.db == Run(old(store.db), ScanSteps(LeaseScan, ids, turns, n))
    ensures failure.None? ==> n == |ids| && Balanced(stats, n) && AllHandled(LeaseScan, old(store.db), store.db, ids)
    ensures failure.Some? ==> 0 < n && Balanced(stats, n - 1)
    ensures AllAnswered(LeaseScan, old(store.db), ids, turns, answers) && stats == Sum(answers)
    ensures |answers| == if failure.None? then n else n - 1
  {
    ids := ListCandidates(LeaseScan, store.db, limit);
    stats, failure, n, answers := NO_STATS, None, 0, [];
    ScanBegins(LeaseScan, store.db, ids, turns);
    while n < |ids|
      invariant 0 <= n <= |ids| <= limit
      invariant Scanning(LeaseScan, old(store.db), store.db, ids, turns, n)
      invariant Balanced(stats, n)
      invariant AllAnswered(LeaseScan, old(store.db), ids, turns, answers) && stats == Sum(answers) && |answers| == n
    {
      var reply := LeaseCandidate(store, old(store.db), ids, turns, n, answers);
      n := n + 1;
      if reply.Err? {
        failure := Some(reply.error);
        return;
      }
      SumMore(answers, reply.value);
      stats, answers := stats.Add(reply.value), answers + [reply.value];
    }
  }

  // ------------------------------------------------------------- due timeouts

  predicate TimeoutsBalanced(stats: ReconcileStats, handled: nat) {
    && stats.skipped + stats.timedOut == handled
    && stats.timedOut == stats.retryWaiting + stats.deadLettered
  }

  lemma TimeoutBalanced(s: State, a: Id, delayMillis: nat, ids: NewIds)
    ensures var r := ReconcileDueTimeout(s, a, delayMillis, ids).1; r.Ok? ==> TimeoutsBalanced(r.value, 1)
  {
  }

  method TimeoutCandidate(store: Store, ghost start: State, ids: seq<Id>, turns: seq<Turn>, n: nat, ghost answers: seq<ReconcileStats>)
    returns (reply: Reply<ReconcileStats>)
    requires n < |ids| <= |turns| && Scanning(TimeoutScan, start, store.db, ids, turns, n)
    requires |answers| == n && AllAnswered(TimeoutScan, start, ids, turns, answers)
    modifies store
    ensures store.Consistent() && store.db == Run(start, ScanSteps(TimeoutScan, ids, turns, n + 1))
    ensures reply.Ok? ==> AllAnswered(TimeoutScan, start, ids, turns, answers + [reply.value])
    ensures reply.Ok? ==> TimeoutsBalanced(reply.value, 1) && Scanning(TimeoutScan, start, store.db, ids, turns, n + 1)
  {
    ghost var s := store.db;
    store.ExecuteAll(turns[n].before);
    ghost var t := store.db;
    reply := store.TimeOutAttempt(ids[n], turns[n].delayMillis, turns[n].ids);
    ScanTurn(TimeoutScan, start, s, ids, turns, n, t, store.db);
    TimeoutBalanced(t, ids[n], turns[n].delayMillis, turns[n].ids);
    if reply.Ok? {
      AnsweredMore(TimeoutScan, start, ids, turns, answers, reply.value);
    }
  }

  /** After a scan without failure no attempt it listed can still be reported past its deadline. */
  method ReconcileDueTimeouts(store: Store, limit: nat, turns: seq<Turn>)
    returns (stats: ReconcileStats, failure: Option<Error>, ids: seq<Id>, n: nat, ghost answers: seq<ReconcileStats>)
    requires store.Consistent() && limit <= |turns|
    modifies store
    ensures store.Consistent() && n <= |ids| && Listed(TimeoutScan, old(store.db), limit, ids)
    ensures store.db == Run(old(store.db), ScanSteps(TimeoutScan, ids, turns, n))
    ensures failure.None? ==> n == |ids| && TimeoutsBalanced(stats, n) && AllHandled(TimeoutScan, old(store.db), store.db, ids)
    ensures failure.Some? ==> 0 < n && TimeoutsBalanced(stats, n - 1)
    ensures AllAnswered(TimeoutScan, old(store.db), ids, turns, answers) && stats == Sum(answers)
    ensures |answers| == if failure.None? then n else n - 1
  {
    var s := store.db;
    ids := ListCandidates(TimeoutScan, s, limit);
    stats, failure, n, answers := NO_STATS, None, 0, [];
    ScanBegins(TimeoutScan, s, ids, turns);
    while n < |ids|
      invariant 0 <= n <= |ids| <= limit
      invariant Scanning(TimeoutScan, old(store.db), store.db, ids, turns, n)
      invariant TimeoutsBalanced(stats, n)
      invariant AllAnswered(TimeoutScan, old(store.db), ids, turns, answers) && stats == Sum(answers) && |answers| == n
    {
      var reply := TimeoutCandidate(store, old(store.db), ids, turns, n, answers);
      n := n + 1;
      if reply.Err? {
        failure := Some(reply.error);
        return;
      }
      SumMore(answers, reply.value);
      stats, answers := stats.Add(reply.value), answers + [reply.value];
    }
  }

  // --------------------------------------------------------------- promotions

  method PromotionCandidate(store: Store, ghost start: State, ids: seq<Id>, turns: seq<Turn>, n: nat, ghost flags: seq<bool>)
    returns (reply: Reply<bool>)
    requires n < |ids| <= |turns| && Scanning(PromotionScan, start, store.db, ids, turns, n)
    requires |flags| == n && AllChanged(PromotionScan, start, ids, turns, flags)
    modifies store
    ensures store.Consistent() && store.db == Run(start, ScanSteps(PromotionScan, ids, turns, n + 1))
    ensures reply.Ok? ==> Scanning(PromotionScan, start, store.db, ids, turns, n + 1)
    ensures reply.Ok? ==> AllChanged(PromotionScan, start, ids, turns, flags + [reply.value])
  {
    ghost var s := store.db;
    store.ExecuteAll(turns[n].before);
    ghost var t := store.db;
    reply := store.Promote(ids[n], turns[n].ids.event);
    ScanTurn(PromotionScan, start, s, ids, turns, n, t, store.db);
    if reply.Ok? {
      ChangedMore(PromotionScan, start, ids, turns, flags, reply.value);
    }
  }

  /** After a scan without failure every listed job was queued on a new generation or canceled. */
  method PromoteDueJobs(store: Store, limit: nat, turns: seq<Turn>)
    returns (promoted: nat, skipped: nat, failure: Option<Error>, ids: seq<Id>, n: nat, ghost flags: seq<bool>)
    requires store.Consistent() && limit <= |turns|
    modifies store
    ensures store.Consistent() && n <= |ids| && Listed(PromotionScan, old(store.db), limit, ids)
    ensures store.db == Run(old(store.db), ScanSteps(PromotionScan, ids, turns, n))
    ensures failure.None? ==> n == |ids| == promoted + skipped && AllHandled(PromotionScan, old(store.db), store.db, ids)
    ensures failure.Some? ==> promoted + skipped + 1 == n
    ensures AllChanged(PromotionScan, old(store.db), ids, turns, flags) && promoted == Trues(flags) && |flags| == promoted + skipped
  {
    var s := store.db;
    ids := ListCandidates(PromotionScan, s, limit);
    promoted, skipped, failure, n, flags := 0, 0, None, 0, [];
    ScanBegins(PromotionScan, s, ids, turns);
    while n < |ids|
      invariant 0 <= n <= |ids| <= limit && promoted + skipped == n
      invariant AllChanged(PromotionScan, old(store.db), ids, turns, flags) && promoted == Trues(flags) && |flags| == n
      invariant Scanning(PromotionScan, old(store.db), store.db, ids, turns, n)
    {
      var reply := PromotionCandidate(store, old(store.db), ids, turns, n, flags);
      n := n + 1;
      if reply.Err? {
        failure := Some(reply.error);
        return;
      }
      promoted, skipped := Counts(promoted, skipped, reply.value, flags);
      flags := flags + [reply.value];
    }
  }

  /** One more candidate was promoted or skipped. */
  method Counts(promoted: nat, skipped: nat, changed: bool, ghost flags: seq<bool>) returns (p: nat, k: nat)
    requires promoted == Trues(flags) && promoted + skipped == |flags|
    ensures p == Trues(flags + [changed]) && p + k == |flags| + 1
  {
    TruesMore(flags, changed);
    if changed {
      p, k := promoted + 1, skipped;
    } else {
      p, k := promoted, skipped + 1;
    }
  }

  // ------------------------------------------------------------ stale sessions

  method StaleCandidate(store: Store, ghost start: State, staleAfter: int, ids: seq<Id>, turns: seq<Turn>, n: nat, ghost flags: seq<bool>)
    returns (marked: bool)
    requires n < |ids| <= |turns| && Scanning(StaleScan(staleAfter), start, store.db, ids, turns, n)
    requires |flags| == n && AllChanged(StaleScan(staleAfter), start, ids, turns, flags)
    modifies store
    ensures Scanning(StaleScan(staleAfter), start, store.db, ids, turns, n + 1)
    ensures AllChanged(StaleScan(staleAfter), start, ids, turns, flags + [marked])
  {
    ghost var s := store.db;
    store.ExecuteAll(turns[n].before);
    ghost var t := store.db;
    marked := store.MarkStale(ids[n], staleAfter);
    ScanTurn(StaleScan(staleAfter), start, s, ids, turns, n, t, store.db);
    ChangedMore(StaleScan(staleAfter), start, ids, turns, flags, marked);
  }

  /** Every listed session has ended or has been heard from since. */
  method MarkStaleSessions(store: Store, staleAfter: int, limit: nat, turns: seq<Turn>)
    returns (marked: nat, ids: seq<Id>, ghost flags: seq<bool>)
    requires store.Consistent() && limit <= |turns|
    modifies store
    ensures store.Consistent() && marked <= |ids| && Listed(StaleScan(staleAfter), old(store.db), limit, ids)
    ensures store.db == Run(old(store.db), ScanSteps(StaleScan(staleAfter), ids, turns, |ids|))
    ensures AllHandled(StaleScan(staleAfter), old(store.db), store.db, ids)
    ensures AllChanged(StaleScan(staleAfter), old(store.db), ids, turns, flags) && marked == Trues(flags) && |flags| == |ids|
  {
    var s, n := store.db, 0;
    ids := ListCandidates(StaleScan(staleAfter), s, limit);
    marked, flags := 0, [];
    ScanBegins(StaleScan(staleAfter), s, ids, turns);
    while n < |ids|
      invariant 0 <= n <= |ids| <= limit && marked <= n
      invariant AllChanged(StaleScan(staleAfter), old(store.db), ids, turns, flags) && marked == Trues(flags) && |flags| == n
      invariant Scanning(StaleScan(staleAfter), old(store.db), store.db, ids, turns, n)
    {
      var changed := StaleCandidate(store, old(store.db), staleAfter, ids, turns, n, flags);
      n := n + 1;
      TruesMore(flags, changed);
      flags := flags + [changed];
      if changed {
        marked := marked + 1;
      }
    }
  }
}
