/**
 The control plane's stores. Every method runs one transaction statement by statement on a
 private copy of the tables: it locks and reads, checks, applies conditional updates whose
 affected rows it counts, and publishes the copy only if every count is right. Each method is
 proved to commit exactly what the corresponding function in Transactions says.
 */
module ControlPlane {
  import opened Base
  import opened Schema
  import opened Transactions
  import opened Invariants
  import opened Endings
  import opened Movements
  import opened Accounting
  import opened Steps

  // ------------------------------------------------------- locking and reading

  /** The locked rows, as the transaction reads them after its last lock. */
  datatype FenceRows = FenceRows(job: Job, attempt: Attempt, lease: Lease, sessionHealthy: bool)

  /** Routes by the lease row, locks its queue and session, then joins job, attempt and lease. */
  function LockAuthorityRows(s: State, scope: Name, f: Fence): Reply<FenceRows> {
    if f.lease !in s.leases || !LeaseMatches(s.leases[f.lease], scope, f) then Err(ErrFenceRejected)
    else if s.leases[f.lease].binding.queue !in s.queues then Err(ErrDatabase)
    else if !SessionMatches(s, scope, f.worker, f.session) then Err(ErrFenceRejected)
    else if f.job !in s.jobs || f.attempt !in s.attempts then Err(ErrFenceRejected)
    else
      var job, a, l := s.jobs[f.job], s.attempts[f.attempt], s.leases[f.lease];
      if a.binding.job != f.job || l.attempt != f.attempt || a.binding.worker != f.worker || a.binding.session != f.session
         || job.scope != scope || a.binding.scope != scope || l.binding.scope != scope
      then Err(ErrFenceRejected)
      else Ok(FenceRows(job, a, l, s.sessions[f.session].status.SessionHealthy?))
  }

  /** The queue lock and the joins can only fail together with the fence itself. */
  lemma LockFindsTheFence(s: State, scope: Name, f: Fence)
    requires Valid(s)
    ensures LockAuthorityRows(s, scope, f) ==
            if Fenced(s, scope, f)
            then Ok(FenceRows(s.jobs[f.job], s.attempts[f.attempt], s.leases[f.lease],
                              s.sessions[f.session].status.SessionHealthy?))
            else Err(ErrFenceRejected)
  {
    if f.lease in s.leases && LeaseMatches(s.leases[f.lease], scope, f) {
      assert Fenced(s, scope, f) && s.attempts[f.attempt].binding == s.leases[f.lease].binding
             && SessionMatches(s, scope, f.worker, f.session)
             && s.jobs[f.job].scope == scope && s.jobs[f.job].spec.queue == s.leases[f.lease].binding.queue
      by {
        assert Holds(BindingLaw, s);
        FenceIsTheLeaseRow(s, scope, f);
      }
      assert s.jobs[f.job].spec.queue in s.queues by { assert Holds(SourceLaw, s); }
    }
  }

  /** A row that is LEASED or RUNNING has an ACTIVE lease and a job that agrees with it. */
  lemma LockedRowsAgree(s: State, scope: Name, f: Fence)
    requires Valid(s) && Fenced(s, scope, f) && s.attempts[f.attempt].status.Executing()
    ensures Executes(s, f) && s.leases[f.lease].status.LeaseActive?
    ensures StatusesAgree(s.jobs[f.job].status, s.attempts[f.attempt].status)
  {
    FencedExecutes(s, scope, f);
    ExecutingStatuses(s, f);
  }

  // ---------------------------------------------------- finalizing statements

  /** Records an outcome: attempt, lease and job updates, then the event or dead-letter insert. */
  method FinalizeRows(tx0: State, f: Fence, o: AttemptOutcome, d: Decision, ids: NewIds)
    returns (tx: State, reply: Reply<OutcomeResult>)
    requires Executes(tx0, f) && tx0.leases[f.lease].status.LeaseActive? && tx0.jobs[f.job].status.Executing()
    ensures (tx, reply) == FinalizeAttempt(tx0, f, o, d, ids)
  {
    var rows := 0;
    tx := tx0;
    if f.attempt in tx.attempts && tx.attempts[f.attempt].status.Executing() {
      tx := tx.(attempts := tx.attempts[f.attempt := Finished(tx.attempts[f.attempt], o, d, tx.now)]);
      rows := rows + 1;
    }
    if f.lease in tx.leases && tx.leases[f.lease].status.LeaseActive? {
      tx := tx.(leases := tx.leases[f.lease := Closed(tx.leases[f.lease], o.leaseStatus, tx.now)]);
      rows := rows + 1;
    }
    if f.job in tx.jobs && tx.jobs[f.job].status.Executing() {
      tx := tx.(jobs := tx.jobs[f.job := FinalJob(tx.jobs[f.job], d, tx.now)]);
      rows := rows + 1;
    }
    var job := tx.jobs[f.job];
    var duplicate := false;
    if d.DeadLetter? {
      duplicate := ids.dlq in tx.dlq;
      tx := tx.(dlq := tx.dlq[ids.dlq := DlqEntry(job.scope, job.spec.queue, f.job, f.attempt, d.reason, tx.now)]);
    } else if d.delayMillis == 0 {
      duplicate := ids.event in tx.events;
      tx := tx.(events := tx.events[ids.event := NewEvent(f.job, job.spec.queue, job.generation, tx.now)]);
    }
    reply := if rows != 3 then Err(ErrStateConflict)
    else if duplicate then Err(ErrDatabase)
    else Ok(FinalResult(f, o, d, tx.now));
    if reply.Err? {
      tx := tx0;
    }
  }

  method CancelRows(tx0: State, f: Fence, outcomeId: Option<Id>, leaseStatus: LeaseStatus)
    returns (tx: State, reply: Reply<OutcomeResult>)
    requires Executes(tx0, f) && tx0.leases[f.lease].status.LeaseActive? && tx0.jobs[f.job].status.StatusCancelRequested?
    ensures reply.Ok? && (tx, reply.value) == FinalizeCancellation(tx0, f, outcomeId, leaseStatus)
  {
    var rows := 0;
    tx := tx0;
    if f.attempt in tx.attempts && tx.attempts[f.attempt].status.Executing() {
      tx := tx.(attempts := tx.attempts[f.attempt := CanceledAttempt(tx.attempts[f.attempt], outcomeId, tx.now)]);
      rows := rows + 1;
    }
    if f.lease in tx.leases && tx.leases[f.lease].status.LeaseActive? {
      tx := tx.(leases := tx.leases[f.lease := Closed(tx.leases[f.lease], leaseStatus, tx.now)]);
      rows := rows + 1;
    }
    if f.job in tx.jobs && tx.jobs[f.job].status.StatusCancelRequested? {
      tx := tx.(jobs := tx.jobs[f.job := tx.jobs[f.job].(status := StatusCanceled, updatedAt := tx.now)]);
      rows := rows + 1;
    }
    reply := if rows != 3 then Err(ErrStateConflict)
    else Ok(OutcomeResult(f.job, StatusCanceled, AttemptCanceled, None, None, None, false));
  }

  method TimeOutRows(tx0: State, f: Fence, delayMillis: nat, ids: NewIds) returns (tx: State, reply: Reply<ReconcileStats>)
    requires Executes(tx0, f) && tx0.leases[f.lease].status.LeaseActive? && tx0.jobs[f.job].status.Executing()
    ensures (tx, reply) == FinalizeTimeout(tx0, f, delayMillis, ids)
  {
    var decision := Decide(ClassTimedOut, tx0.attempts[f.attempt].number, tx0.jobs[f.job].spec.maxAttempts, delayMillis);
    var status := LeaseReleased;
    if tx0.leases[f.lease].status.LeaseActive? && tx0.leases[f.lease].expiresAt <= tx0.now {
      status := LeaseExpired;
    }
    var outcome := AttemptOutcome(AttemptTimedOut, ClassTimedOut, CODE_TIMEOUT, MESSAGE_TIMEOUT, None, status);
    var result;
    tx, result := FinalizeRows(tx0, f, outcome, decision.value, ids);
    var stats := NO_STATS;
    if result.Ok? {
      if result.value.jobStatus.StatusDeadLettered? {
        stats := stats.(deadLettered := stats.deadLettered + 1);
      } else {
        stats := stats.(retryWaiting := stats.retryWaiting + 1);
      }
      stats := stats.(timedOut := stats.timedOut + 1);
    }
    reply := if result.Err? then Err(result.error) else Ok(stats);
  }

  /** Keeps at most the given number of elements. */
  method Limit<T>(all: set<T>, limit: nat) returns (kept: set<T>)
    ensures kept <= all && |kept| == if |all| <= limit then |all| else limit
    ensures |all| <= limit ==> kept == all
  {
    kept := all;
    while |kept| > limit
      invariant kept <= all
      invariant |kept| == |all| || (limit <= |kept| && limit < |all|)
      invariant |all| <= limit ==> kept == all
      decreases |kept|
    {
      var x :| x in kept;
      kept := kept - {x};
    }
  }

  /** The claim's own filter also counts attempts, which never excludes a queued job. */
  lemma ClaimableAreCandidates(s: State, scope: Name, queue: Name, reg: Registration, locked: set<Id>, c: set<Id>)
    requires Valid(s)
    requires c == set j | j in s.jobs && j !in locked && Eligible(s, scope, queue, reg, j)
                          && |AttemptsOf(s.attempts, j)| < s.jobs[j].spec.maxAttempts
    ensures c == Candidates(s, scope, queue, reg, locked)
  {
    assert Holds(BudgetLaw, s);
  }

  lemma FirstIsUnique(jobs: map<Id, Job>, c: set<Id>, j: Id)
    requires c <= jobs.Keys && IsFirst(jobs, c, j)
    ensures j == First(jobs, c)
  {
  }

  /** The largest attempt number of a job is the number of its attempts. */
  lemma LargestNumberIsUsed(s: State, j: Id, m: nat)
    requires Valid(s)
    requires var numbers := NumbersOf(s.attempts, AttemptsOf(s.attempts, j));
             if numbers == {} then m == 0 else m in numbers && forall k :: k in numbers ==> k <= m
    ensures m == Used(s.attempts, j)
  {
    assert Holds(NumberLaw, s);
    NumbersAreAll(s.attempts, j);
    if 0 < Used(s.attempts, j) {
      assert Used(s.attempts, j) in UpTo(Used(s.attempts, j));
    }
  }

  class Store {
    var db: State

    ghost predicate Consistent()
      reads this
    {
      Valid(db)
    }

    constructor (initial: State)
      requires Initial(initial)
      ensures db == initial && Consistent()
    {
      db := initial;
      InitialValid(initial);
    }

    // ---------------------------------------------------------- worker reports

    method FailAttempt(scope: Name, r: FailureReport, delayMillis: nat, ids: NewIds) returns (reply: Reply<OutcomeResult>)
      requires Consistent()
      modifies this
      ensures Consistent() && (db, reply) == Fail(old(db), scope, r, delayMillis, ids)
    {
      FailValid(db, scope, r, delayMillis, ids);
      var f := r.fence;
      if !f.Complete() || r.outcomeId == NIL || !r.failureClass.ReportableByHandler() {
        return Err(ErrValidation);
      }
      LockFindsTheFence(db, scope, f);
      var locked := LockAuthorityRows(db, scope, f);
      if locked.Err? {
        return Err(locked.error);
      }
      var state := locked.value;
      if state.attempt.outcomeId == Some(r.outcomeId) {
        return ReplayedOutcome(state.attempt, r);
      }
      if exists b :: b in db.attempts && db.attempts[b].outcomeId == Some(r.outcomeId) && b != f.attempt {
        return Err(ErrOutcomeConflict);
      }
      if !state.sessionHealthy {
        return Err(ErrFenceRejected);
      }
      if TimedOut(state.attempt, db.now) {
        return Err(ErrAttemptTimedOut);
      }
      if !LeaseUsable(state.lease, db.now) {
        return Err(ErrLeaseExpired);
      }
      if !state.job.status.StatusRunning? || !state.attempt.status.AttemptRunning? {
        return Err(ErrStateConflict);
      }
      var decision := Decide(r.failureClass, state.attempt.number, state.job.spec.maxAttempts, delayMillis);
      LockedRowsAgree(db, scope, f);
      var tx;
      tx, reply := FinalizeRows(db, f, ReportedOutcome(r), decision.value, ids);
      db := tx;
    }

    method AcknowledgeCanceled(scope: Name, f: Fence, outcomeId: Id) returns (reply: Reply<OutcomeResult>)
      requires Consistent()
      modifies this
      ensures Consistent() && (db, reply) == AcknowledgeCancellation(old(db), scope, f, outcomeId)
    {
      AcknowledgeCancellationValid(db, scope, f, outcomeId);
      if !f.Complete() || outcomeId == NIL {
        return Err(ErrValidation);
      }
      LockFindsTheFence(db, scope, f);
      var locked := LockAuthorityRows(db, scope, f);
      if locked.Err? {
        return Err(locked.error);
      }
      var state := locked.value;
      if state.attempt.outcomeId == Some(outcomeId) {
        if !state.attempt.status.AttemptCanceled? {
          return Err(ErrOutcomeConflict);
        }
        return Ok(OutcomeResult(f.job, DecidedJobStatus(state.attempt), state.attempt.status, None, None, None, true));
      }
      if exists b :: b in db.attempts && db.attempts[b].outcomeId == Some(outcomeId) && b != f.attempt {
        return Err(ErrOutcomeConflict);
      }
      if !state.sessionHealthy {
        return Err(ErrFenceRejected);
      }
      if !LeaseUsable(state.lease, db.now) {
        return Err(ErrLeaseExpired);
      }
      if !state.job.status.StatusCancelRequested? || !state.attempt.status.Executing() {
        return Err(ErrStateConflict);
      }
      LockedRowsAgree(db, scope, f);
      var tx;
      tx, reply := CancelRows(db, f, Some(outcomeId), LeaseReleased);
      db := tx;
    }

    method SucceedAttempt(scope: Name, f: Fence, body: Option<Document>) returns (reply: Reply<()>)
      requires Consistent()
      modifies this
      ensures Consistent() && (db, reply) == Succeed(old(db), scope, f, body)
    {
      SucceedValid(db, scope, f, body);
      if !f.Complete() {
        return Err(ErrValidation);
      }
      LockFindsTheFence(db, scope, f);
      var locked := LockAuthorityRows(db, scope, f);
      if locked.Err? {
        return Err(locked.error);
      }
      var state := locked.value;
      if state.job.status.StatusSucceeded? && state.attempt.status.AttemptSucceeded? && state.lease.status.LeaseCompleted? {
        return Ok(());
      }
      if !state.sessionHealthy {
        return Err(ErrFenceRejected);
      }
      if TimedOut(state.attempt, db.now) {
        return Err(ErrAttemptTimedOut);
      }
      if !LeaseUsable(state.lease, db.now) {
        return Err(ErrLeaseExpired);
      }
      if !state.job.status.StatusRunning? || !state.attempt.status.AttemptRunning? {
        return Err(ErrStateConflict);
      }
      LockedRowsAgree(db, scope, f);
      assert f.job !in db.results by { assert Holds(ResultLaw, db); }
      var tx, rows, duplicate := db, 0, false;
      if tx.jobs[f.job].status.StatusRunning? {
        tx := tx.(jobs := tx.jobs[f.job := tx.jobs[f.job].(status := StatusSucceeded, updatedAt := tx.now)]);
        rows := rows + 1;
      }
      if tx.attempts[f.attempt].status.AttemptRunning? {
        tx := tx.(attempts := tx.attempts[f.attempt :=
          tx.attempts[f.attempt].(status := AttemptSucceeded, finishedAt := Some(tx.now))]);
        rows := rows + 1;
      }
      if tx.leases[f.lease].status.LeaseActive? {
        tx := tx.(leases := tx.leases[f.lease := Closed(tx.leases[f.lease], LeaseCompleted, tx.now)]);
        rows := rows + 1;
      }
      if body.Some? {
        duplicate := f.job in tx.results;
        tx := tx.(results := tx.results[f.job := Result(f.attempt, scope, body.value)]);
      }
      reply := if rows != 3 then Err(ErrStateConflict) else if duplicate then Err(ErrDatabase) else Ok(());
      if reply.Ok? {
        db := tx;
      }
    }

    method StartAttempt(scope: Name, f: Fence) returns (reply: Reply<StartResult>)
      requires Consistent()
      modifies this
      ensures Consistent() && (db, reply) == Start(old(db), scope, f)
    {
      StartValid(db, scope, f);
      if !f.Complete() {
        return Err(ErrValidation);
      }
      LockFindsTheFence(db, scope, f);
      var locked := LockAuthorityRows(db, scope, f);
      if locked.Err? {
        return Err(locked.error);
      }
      var state := locked.value;
      if !state.sessionHealthy {
        return Err(ErrFenceRejected);
      }
      if !LeaseUsable(state.lease, db.now) {
        return Err(ErrLeaseExpired);
      }
      if state.job.status.StatusRunning? && state.attempt.status.AttemptRunning? {
        if state.attempt.startedAt.None? || state.attempt.timeoutAt.None? {
          return Err(ErrStateConflict);
        }
        return Ok(StartResult(f.attempt, state.attempt.startedAt.value, state.attempt.timeoutAt.value,
                              RemainingUntil(state.attempt.timeoutAt.value, db.now), true));
      }
      if state.job.status.StatusCancelRequested? || state.job.status.StatusCanceled? {
        return Err(ErrCancellationRequested);
      }
      if !state.job.status.StatusLeased? || !state.attempt.status.AttemptLeased? {
        return Err(ErrStateConflict);
      }
      var tx, rows, budget := db, 0, state.job.spec.timeoutSeconds * SECOND;
      if tx.attempts[f.attempt].status.AttemptLeased? {
        tx := tx.(attempts := tx.attempts[f.attempt :=
          tx.attempts[f.attempt].(status := AttemptRunning, startedAt := Some(tx.now), timeoutAt := Some(tx.now + budget))]);
        rows := rows + 1;
      }
      if tx.jobs[f.job].status.StatusLeased? {
        tx := tx.(jobs := tx.jobs[f.job := tx.jobs[f.job].(status := StatusRunning, updatedAt := tx.now)]);
        rows := rows + 1;
      }
      reply := if rows != 2 then Err(ErrStateConflict)
      else Ok(StartResult(f.attempt, tx.now, tx.now + budget, budget, false));
      if reply.Ok? {
        db := tx;
      }
    }

    method Renew(scope: Name, f: Fence, renewalId: Id, expected: int) returns (reply: Reply<RenewalResult>)
      requires Consistent()
      modifies this
      ensures Consistent() && (db, reply) == RenewLease(old(db), scope, f, renewalId, expected)
    {
      RenewLeaseValid(db, scope, f, renewalId, expected);
      if !f.Complete() || renewalId == NIL || expected < 0 {
        return Err(ErrValidation);
      }
      LockFindsTheFence(db, scope, f);
      var locked := LockAuthorityRows(db, scope, f);
      if locked.Err? {
        return Err(locked.error);
      }
      var state := locked.value;
      if !state.sessionHealthy {
        return Err(ErrFenceRejected);
      }
      if !LeaseUsable(state.lease, db.now) {
        return Err(ErrLeaseExpired);
      }
      if TimedOut(state.attempt, db.now) {
        return Err(ErrAttemptTimedOut);
      }
      if !state.job.status.Executing() || !state.attempt.status.Executing() {
        return Err(ErrStateConflict);
      }
      if state.lease.lastRenewalId == Some(renewalId) {
        if state.lease.renewalVersion != expected + 1 {
          return Err(ErrRenewalConflict);
        }
        return Ok(RenewalResult(f.lease, state.lease.renewalVersion, state.lease.expiresAt,
                                RemainingUntil(state.lease.expiresAt, db.now), true));
      }
      if exists m :: m in db.leases && db.leases[m].lastRenewalId == Some(renewalId) && m != f.lease {
        return Err(ErrRenewalConflict);
      }
      if state.lease.renewalVersion != expected {
        return Err(ErrRenewalConflict);
      }
      var tx, rows := db, 0;
      if tx.leases[f.lease].status.LeaseActive? && tx.leases[f.lease].renewalVersion == expected {
        tx := tx.(leases := tx.leases[f.lease := tx.leases[f.lease].(
          renewedAt := tx.now, expiresAt := tx.now + tx.leaseDuration,
          renewalVersion := tx.leases[f.lease].renewalVersion + 1, lastRenewalId := Some(renewalId))]);
        rows := 1;
      }
      var renewed := tx.leases[f.lease];
      reply := if rows != 1 then Err(ErrRenewalConflict)
      else Ok(RenewalResult(f.lease, renewed.renewalVersion, renewed.expiresAt,
                            RemainingUntil(renewed.expiresAt, tx.now), false));
      if reply.Ok? {
        db := tx;
      }
    }

    // ---------------------------------------------------------- reconciliation

    method TimeOutAttempt(attempt: Id, delayMillis: nat, ids: NewIds) returns (reply: Reply<ReconcileStats>)
      requires Consistent()
      modifies this
      ensures Consistent() && (db, reply) == ReconcileDueTimeout(old(db), attempt, delayMillis, ids)
    {
      ReconcileDueTimeoutValid(db, attempt, delayMillis, ids);
      if !exists l :: l in db.leases && db.leases[l].attempt == attempt {
        return Ok(SKIPPED);
      }
      var l :| l in db.leases && db.leases[l].attempt == attempt;
      assert l == LeaseOf(db.leases, attempt) by {
        assert Holds(BindingLaw, db);
        assert SameAttempt(db.leases, l, LeaseOf(db.leases, attempt));
      }
      var f, scope := FenceOf(db.leases, l), db.leases[l].binding.scope;
      LockFindsTheFence(db, scope, f);
      var locked := LockAuthorityRows(db, scope, f);
      if locked.Err? {
        return Ok(SKIPPED);
      }
      var state := locked.value;
      if !LeaseUsable(state.lease, db.now) || !TimedOut(state.attempt, db.now)
         || !state.job.status.StatusRunning? || !state.attempt.status.AttemptRunning? {
        return Ok(SKIPPED);
      }
      LockedRowsAgree(db, scope, f);
      var tx;
      tx, reply := TimeOutRows(db, f, delayMillis, ids);
      db := tx;
    }

    method ReconcileLease(l: Id, delayMillis: nat, ids: NewIds) returns (reply: Reply<ReconcileStats>)
      requires Consistent()
      modifies this
      ensures Consistent() && (db, reply) == ReconcileExpiredLease(old(db), l, delayMillis, ids)
    {
      ReconcileExpiredLeaseValid(db, l, delayMillis, ids);
      if l !in db.leases {
        return Ok(SKIPPED);
      }
      var f, scope := FenceOf(db.leases, l), db.leases[l].binding.scope;
      LockFindsTheFence(db, scope, f);
      var locked := LockAuthorityRows(db, scope, f);
      if locked.Err? {
        return Ok(SKIPPED);
      }
      var state := locked.value;
      if !state.lease.status.LeaseActive? || db.now < state.lease.expiresAt || !state.attempt.status.Executing() {
        return Ok(SKIPPED);
      }
      LockedRowsAgree(db, scope, f);
      var tx;
      if state.job.status.StatusCancelRequested? {
        var result;
        tx, result := CancelRows(db, f, None, LeaseExpired);
        reply := Ok(NO_STATS.(expiredLeases := 1, canceled := 1));
      } else if TimedOutBeforeLapse(state.attempt, state.lease, db.now) {
        tx, reply := TimeOutRows(db, f, delayMillis, ids);
        reply := if reply.Err? then reply else Ok(reply.value.Add(NO_STATS.(expiredLeases := 1)));
      } else {
        var result;
        var decision := Decide(ClassAbandoned, state.attempt.number, state.job.spec.maxAttempts, delayMillis);
        tx, result := FinalizeRows(db, f, ABANDONED, decision.value, ids);
        reply := if result.Err? then Err(result.error)
        else if result.value.jobStatus.StatusQueued? then Ok(NO_STATS.(expiredLeases := 1, requeued := 1))
        else Ok(NO_STATS.(expiredLeases := 1, deadLettered := 1));
      }
      db := tx;
    }

    method MarkStale(session: Id, staleAfter: int) returns (marked: bool)
      requires Consistent()
      modifies this
      ensures Consistent() && (db, marked) == MarkSessionStale(old(db), session, staleAfter)
    {
      MarkSessionStaleValid(db, session, staleAfter);
      if session !in db.sessions {
        return false;
      }
      var row := db.sessions[session];
      if !row.status.Current() || db.now - staleAfter <= row.lastHeartbeatAt {
        return false;
      }
      var tx, rows := db, 0;
      if tx.sessions[session].status.Current() {
        tx := tx.(sessions := tx.sessions[session := row.(status := SessionUnhealthy, endedAt := Some(tx.now))]);
        rows := 1;
      }
      marked := rows == 1;
      if marked {
        db := tx;
      }
    }

    // ------------------------------------------------------ sessions and claims

    method RegisterSession(scope: Name, reg: Registration, newWorker: Id) returns (reply: Reply<Session>)
      requires Consistent()
      modifies this
      ensures Consistent() && (db, reply) == Register(old(db), scope, reg, newWorker)
    {
      RegisterValid(db, scope, reg, newWorker);
      if !ValidRegistration(reg) {
        return Err(ErrValidation);
      }
      var key, tx, worker := WorkerKey(scope, reg.name), db, newWorker;
      if key in tx.workers {
        worker := tx.workers[key];
      } else if newWorker in tx.workers.Values {
        return Err(ErrDatabase);
      }
      tx := tx.(workers := tx.workers[key := worker]);
      if reg.session in tx.sessions {
        var existing := tx.sessions[reg.session];
        return if existing.worker != worker || existing.reg != reg then Err(ErrSessionConflict)
        else if !existing.status.SessionHealthy? then Err(ErrSessionUnavailable)
        else Ok(existing);
      }
      tx := tx.(sessions := EndCurrent(tx.sessions, worker, tx.now));
      var session := Session(worker, scope, reg, SessionHealthy, tx.now, tx.now, None);
      tx := tx.(sessions := tx.sessions[reg.session := session]);
      db := tx;
      reply := Ok(session);
    }

    method Beat(scope: Name, worker: Id, session: Id) returns (reply: Reply<set<Directive>>)
      requires Consistent()
      modifies this
      ensures Consistent() && (db, reply) == Heartbeat(old(db), scope, worker, session)
    {
      HeartbeatValid(db, scope, worker, session);
      if worker == NIL || session == NIL {
        return Err(ErrValidation);
      }
      if !SessionMatches(db, scope, worker, session) || !db.sessions[session].status.SessionHealthy? {
        return Err(ErrSessionUnavailable);
      }
      DirectivesFitTheLimit(db, session);
      var tx, row := db, db.sessions[session];
      tx := tx.(sessions := tx.sessions[session :=
        row.(lastHeartbeatAt := if row.lastHeartbeatAt < tx.now then tx.now else row.lastHeartbeatAt)]);
      var directives := Limit(Directives(tx, session), 256);
      assert Directives(tx, session) == Directives(db, session);
      db := tx;
      reply := Ok(directives);
    }

    method ClaimJob(scope: Name, req: ClaimRequest, locked: set<Id>, attempt: Id, lease: Id) returns (reply: Reply<ClaimResult>)
      requires Consistent()
      modifies this
      ensures Consistent() && (db, reply) == Claim(old(db), scope, req, locked, attempt, lease)
    {
      ClaimValid(db, scope, req, locked, attempt, lease);
      if !req.Complete() {
        return Err(ErrValidation);
      }
      var known := exists l :: l in db.leases && db.leases[l].claimId == req.claimId;
      if known {
        var l :| l in db.leases && db.leases[l].claimId == req.claimId;
        assert l == LeaseOfClaim(db.leases, req.claimId) by {
          assert Holds(IdentityLaw, db);
          assert SameClaim(db.leases, l, LeaseOfClaim(db.leases, req.claimId));
        }
        reply := ReplayClaim(scope, req, l);
        return;
      }
      if req.queue !in db.queues {
        return Err(ErrUnknownQueue);
      }
      if !SessionMatches(db, scope, req.worker, req.session) || !db.sessions[req.session].status.SessionHealthy? {
        return Err(ErrSessionUnavailable);
      }
      var reg := db.sessions[req.session].reg;
      if reg.workerGroup != db.queues[req.queue].workerGroup {
        return Ok(NoEligibleJob);
      }
      if |ActiveInQueue(db.leases, req.queue)| >= db.queues[req.queue].maxConcurrency {
        return Ok(CapacityExhausted);
      }
      if |ActiveOfWorker(db.leases, req.worker)| >= reg.concurrencyLimit {
        return Ok(CapacityExhausted);
      }
      var c := set j | j in db.jobs && j !in locked && Eligible(db, scope, req.queue, reg, j)
                       && |AttemptsOf(db.attempts, j)| < db.jobs[j].spec.maxAttempts;
      ClaimableAreCandidates(db, scope, req.queue, reg, locked, c);
      if c == {} {
        var due := exists j :: j in db.jobs && Due(db, scope, req.queue, j);
        return Ok(if due then NoEligibleJob else QueueEmpty);
      }
      FirstExists(db.jobs, c);
      var j :| j in c && forall i :: i in c && i != j ==> Before(db.jobs, j, i);
      FirstIsUnique(db.jobs, c, j);
      var number := NextAttemptNumber(j);
      if attempt in db.attempts || lease in db.leases {
        return Err(ErrDatabase);
      }
      var binding := Binding(j, db.jobs[j].scope, db.jobs[j].spec.queue, req.worker, req.session);
      var tx, rows := db, 0;
      tx := tx.(attempts := tx.attempts[attempt :=
        Attempt(binding, number, AttemptLeased, None, None, None, None, None, None, None, None, None)]);
      tx := tx.(leases := tx.leases[lease :=
        Lease(binding, attempt, req.claimId, LeaseActive, tx.now, tx.now, tx.now + tx.leaseDuration, None, 0, None)]);
      if tx.jobs[j].status.StatusQueued? && tx.jobs[j].scope == scope {
        tx := tx.(jobs := tx.jobs[j := tx.jobs[j].(status := StatusLeased, updatedAt := tx.now)]);
        rows := 1;
      }
      reply := if rows != 1 then Err(ErrStateConflict) else Ok(Claimed(AssignmentOf(tx, lease, tx.leaseDuration), false));
      if reply.Ok? {
        db := tx;
      }
    }

    /** A known claim identity: conflict, unavailable session, duplicate or the stored assignment. */
    method ReplayClaim(scope: Name, req: ClaimRequest, l: Id) returns (reply: Reply<ClaimResult>)
      requires Consistent() && req.Complete() && ClaimedBy(db.leases, req.claimId) && l == LeaseOfClaim(db.leases, req.claimId)
      ensures forall locked, attempt, lease :: (db, reply) == Claim(db, scope, req, locked, attempt, lease)
    {
      var row := db.leases[l].binding;
      if row.scope != scope || row.queue != req.queue {
        return Err(ErrClaimConflict);
      }
      if req.queue !in db.queues {
        return Err(ErrUnknownQueue);
      }
      if !SessionMatches(db, scope, req.worker, req.session) || !db.sessions[req.session].status.SessionHealthy? {
        return Err(ErrSessionUnavailable);
      }
      if row.worker != req.worker || row.session != req.session {
        return Ok(DuplicateNotification);
      }
      if db.leases[l].attempt !in db.attempts || row.job !in db.jobs {
        return Err(ErrDatabase);
      }
      return Ok(Claimed(AssignmentOf(db, l, RemainingUntil(db.leases[l].expiresAt, db.now)), true));
    }

    method NextAttemptNumber(j: Id) returns (number: nat)
      requires Consistent()
      ensures number == Used(db.attempts, j) + 1
    {
      var numbers := set a | a in db.attempts && db.attempts[a].binding.job == j :: db.attempts[a].number;
      assert numbers == NumbersOf(db.attempts, AttemptsOf(db.attempts, j));
      var largest := 0;
      if numbers != {} {
        assert Used(db.attempts, j) in numbers && forall k :: k in numbers ==> k <= Used(db.attempts, j) by {
          assert Holds(NumberLaw, db);
          NumbersAreAll(db.attempts, j);
        }
        largest :| largest in numbers && forall k :: k in numbers ==> k <= largest;
      }
      LargestNumberIsUsed(db, j, largest);
      number := largest + 1;
    }

    // ------------------------------------------------------- clients and scheduler

    method Cancel(scope: Name, j: Id) returns (reply: Reply<CancelResult>)
      requires Consistent()
      modifies this
      ensures Consistent() && (db, reply) == RequestCancel(old(db), scope, j)
    {
      RequestCancelValid(db, scope, j);
      if j !in db.jobs || db.jobs[j].scope != scope {
        return Err(ErrJobNotFound);
      }
      var job := db.jobs[j];
      if job.status.StatusCancelRequested? || job.status.StatusCanceled? {
        return Ok(CancelResult(j, job.status, job.cancelRequestedAt, true));
      }
      var target;
      match job.status {
        case StatusPending => target := StatusCanceled;
        case StatusQueued => target := StatusCanceled;
        case StatusRetryWait => target := StatusCanceled;
        case StatusLeased => target := StatusCancelRequested;
        case StatusRunning => target := StatusCancelRequested;
        case _ => return Err(ErrJobNotCancelable);
      }
      var tx, rows := db, 0;
      if tx.jobs[j].scope == scope && tx.jobs[j].status == job.status {
        tx := tx.(jobs := tx.jobs[j := tx.jobs[j].(status := target, cancelRequestedAt := Some(tx.now), updatedAt := tx.now)]);
        rows := 1;
      }
      reply := if rows != 1 then Err(ErrJobNotCancelable) else Ok(CancelResult(j, target, Some(tx.now), false));
      if reply.Ok? {
        db := tx;
      }
    }

    /** The losing submission of a key has already inserted its job; the rollback discards it. */
    method SubmitJob(scope: Name, key: Name, req: SubmitRequest, j: Id, event: Id) returns (reply: Reply<JobResult>)
      requires Consistent()
      modifies this
      ensures Consistent() && (db, reply) == Submit(old(db), scope, key, req, j, event)
    {
      SubmitValid(db, scope, key, req, j, event);
      if !req.Valid() {
        return Err(ErrValidation);
      }
      if req.spec.queue !in db.queues {
        return Err(ErrUnknownQueue);
      }
      var tx := db;
      var status, availableAt, generation, notifiedAt := StatusQueued, tx.now, 1, Some(tx.now);
      if req.scheduledAt.Some? && tx.now < req.scheduledAt.value {
        status, availableAt, generation, notifiedAt := StatusPending, req.scheduledAt.value, 0, None;
      }
      var job := Job(scope, req.spec, status, req.scheduledAt, availableAt, None, None, generation, notifiedAt, tx.now, tx.now);
      if j in tx.jobs {
        return Err(ErrDatabase);
      }
      tx := tx.(jobs := tx.jobs[j := job]);
      var k := SubmissionKey(scope, key);
      if k in tx.submissions {
        tx := db;
        var known := tx.submissions[k];
        if known.fingerprint != req.fingerprint {
          return Err(ErrIdempotencyConflict);
        }
        return if known.job !in tx.jobs || tx.jobs[known.job].scope != scope then Err(ErrJobNotFound)
        else Ok(JobResult(known.job, tx.jobs[known.job], true));
      }
      tx := tx.(submissions := tx.submissions[k := Submission(req.fingerprint, j)]);
      if status.StatusQueued? {
        if event in tx.events {
          return Err(ErrDatabase);
        }
        tx := tx.(events := tx.events[event := NewEvent(j, job.spec.queue, generation, tx.now)]);
      }
      db := tx;
      reply := Ok(JobResult(j, job, false));
    }

    method ReplayJob(scope: Name, original: Id, key: Name, j: Id, event: Id) returns (reply: Reply<JobResult>)
      requires Consistent()
      modifies this
      ensures Consistent() && (db, reply) == Replay(old(db), scope, original, key, j, event)
    {
      ReplayValid(db, scope, original, key, j, event);
      if original !in db.jobs || db.jobs[original].scope != scope {
        return Err(ErrJobNotFound);
      }
      if !db.jobs[original].status.StatusDeadLettered? {
        return Err(ErrNotDeadLettered);
      }
      if !exists d :: d in db.dlq && db.dlq[d].job == original {
        return Err(ErrNotDeadLettered);
      }
      var tx, job := db, Replacement(scope, original, db.jobs[original].spec, db.now);
      if j in tx.jobs {
        return Err(ErrDatabase);
      }
      tx := tx.(jobs := tx.jobs[j := job]);
      var k := ReplayKey(scope, original, key);
      if k in tx.replays {
        tx := db;
        return if tx.replays[k] !in tx.jobs || tx.jobs[tx.replays[k]].scope != scope then Err(ErrJobNotFound)
        else Ok(JobResult(tx.replays[k], tx.jobs[tx.replays[k]], true));
      }
      tx := tx.(replays := tx.replays[k := j]);
      if event in tx.events {
        return Err(ErrDatabase);
      }
      tx := tx.(events := tx.events[event := NewEvent(j, job.spec.queue, 1, tx.now)]);
      db := tx;
      reply := Ok(JobResult(j, job, false));
    }

    method Promote(j: Id, event: Id) returns (reply: Reply<bool>)
      requires Consistent()
      modifies this
      ensures Consistent() && (db, reply) == PromoteDueJob(old(db), j, event)
    {
      PromoteDueJobValid(db, j, event);
      if j !in db.jobs {
        return Ok(false);
      }
      var job := db.jobs[j];
      if !job.status.StatusPending? && !job.status.StatusRetryWait? {
        return Ok(false);
      }
      if db.now < job.availableAt {
        return Ok(false);
      }
      var tx, rows := db, 0;
      if tx.jobs[j].status == job.status && tx.jobs[j].generation == job.generation {
        tx := tx.(jobs := tx.jobs[j := tx.jobs[j].(status := StatusQueued, updatedAt := tx.now,
          generation := tx.jobs[j].generation + 1, lastNotificationAt := Some(tx.now))]);
        rows := 1;
      }
      var duplicate := event in tx.events;
      tx := tx.(events := tx.events[event := NewEvent(j, job.spec.queue, tx.jobs[j].generation, tx.now)]);
      reply := if rows != 1 then Ok(false) else if duplicate then Err(ErrDatabase) else Ok(true);
      if reply == Ok(true) {
        db := tx;
      }
    }

    method Renotify(j: Id, after: int, event: Id) returns (reply: Reply<bool>)
      requires Consistent()
      modifies this
      ensures Consistent() && (db, reply) == RenotifyStrandedJob(old(db), j, after, event)
    {
      RenotifyStrandedJobValid(db, j, after, event);
      if j !in db.jobs {
        return Ok(false);
      }
      var job := db.jobs[j];
      if !job.status.StatusQueued? || job.generation < 1 || job.lastNotificationAt.None? {
        return Ok(false);
      }
      if db.now - after <= job.lastNotificationAt.value {
        return Ok(false);
      }
      if exists e :: e in db.events && PendingEvent(db.events, e, j, job.generation) {
        return Ok(false);
      }
      var tx, rows := db, 0;
      if tx.jobs[j].status.StatusQueued? && tx.jobs[j].generation == job.generation {
        tx := tx.(jobs := tx.jobs[j := tx.jobs[j].(lastNotificationAt := Some(tx.now))]);
        rows := 1;
      }
      var duplicate := event in tx.events;
      tx := tx.(events := tx.events[event := NewEvent(j, job.spec.queue, job.generation, tx.now)]);
      reply := if rows != 1 then Ok(false) else if duplicate then Err(ErrDatabase) else Ok(true);
      if reply == Ok(true) {
        db := tx;
      }
    }

    // --------------------------------------------------------- outbox and clock

    /** Updates the picked rows one by one: each due one is claimed once more and hidden, every other row stays. */
    method ClaimEvents(picked: set<Id>, claimTimeout: nat) returns (taken: set<Id>)
      requires Consistent()
      modifies this
      ensures Consistent() && (db, taken) == ClaimDue(old(db), picked, claimTimeout)
      ensures taken == set e | e in picked && EventDue(old(db), e)
      ensures db.events.Keys == old(db).events.Keys
      ensures forall e :: e in db.events ==>
                db.events[e].attempts == old(db).events[e].attempts + if e in taken then 1 else 0
    {
      var s, rest, rows := db, picked, db.events;
      taken := {};
      while rest != {}
        invariant rest <= picked && taken == set e | e in picked - rest && EventDue(s, e)
        invariant rows == ClaimDue(s, picked - rest, claimTimeout).0.events
      {
        var e :| e in rest;
        var before := rest;
        rest := rest - {e};
        assert picked - rest == (picked - before) + {e};
        if EventDue(s, e) {
          rows := rows[e := s.events[e].(attempts := s.events[e].attempts + 1, claimedAt := Some(s.now),
                                         availableAt := s.now + claimTimeout)];
          taken := taken + {e};
        }
      }
      assert picked - rest == picked;
      ClaimDueValid(s, picked, claimTimeout);
      db := s.(events := rows);
    }

    method MarkEventPublished(e: Id) returns (marked: bool)
      requires Consistent()
      modifies this
      ensures Consistent() && (db, marked) == MarkPublished(old(db), e)
    {
      MarkPublishedValid(db, e);
      var rows := 0;
      if e in db.events && db.events[e].status.EventPending? {
        db := db.(events := db.events[e :=
          db.events[e].(status := EventPublished, publishedAt := Some(db.now), lastError := None)]);
        rows := 1;
      }
      marked := rows == 1;
    }

    method RecordEventFailure(e: Id, cause: string, retryAfter: nat)
      requires Consistent()
      modifies this
      ensures Consistent() && db == RecordFailure(old(db), e, cause, retryAfter)
    {
      RecordFailureValid(db, e, cause, retryAfter);
      var stored := cause;
      if |stored| > 1000 {
        stored := stored[..1000];
      }
      if e in db.events && db.events[e].status.EventPending? {
        db := db.(events := db.events[e := db.events[e].(lastError := Some(stored), availableAt := db.now + retryAfter)]);
      }
    }

    method AdvanceClock(elapsed: nat)
      requires Consistent()
      modifies this
      ensures Consistent() && db == old(db).(now := old(db).now + elapsed)
    {
      TickValid(db, elapsed);
      db := db.(now := db.now + elapsed);
    }

    // ------------------------------------------------------------------- runs

    method ExecuteReport(step: Step)
      requires Consistent()
      requires step.ClaimStep? || step.StartStep? || step.RenewStep? || step.SucceedStep? || step.FailStep?
               || step.AcknowledgeStep? || step.DueTimeoutStep? || step.ExpiredLeaseStep?
      modifies this
      ensures Consistent() && db == Apply(old(db), step)
    {
      match step
      case ClaimStep(scope, req, locked, newAttempt, newLease) => var _ := ClaimJob(scope, req, locked, newAttempt, newLease);
      case StartStep(scope, fence) => var _ := StartAttempt(scope, fence);
      case RenewStep(scope, fence, renewalId, expected) => var _ := Renew(scope, fence, renewalId, expected);
      case SucceedStep(scope, fence, body) => var _ := SucceedAttempt(scope, fence, body);
      case FailStep(scope, report, delayMillis, ids) => var _ := FailAttempt(scope, report, delayMillis, ids);
      case AcknowledgeStep(scope, fence, outcomeId) => var _ := AcknowledgeCanceled(scope, fence, outcomeId);
      case DueTimeoutStep(attempt, delayMillis, ids) => var _ := TimeOutAttempt(attempt, delayMillis, ids);
      case ExpiredLeaseStep(lease, delayMillis, ids) => var _ := ReconcileLease(lease, delayMillis, ids);
    }

    method ExecuteInsert(step: Step)
      requires Consistent() && (step.SubmitStep? || step.ReplayStep?)
      modifies this
      ensures Consistent() && db == Apply(old(db), step)
    {
      match step
      case SubmitStep(scope, key, submission, newJob, newEvent) => var _ := SubmitJob(scope, key, submission, newJob, newEvent);
      case ReplayStep(scope, original, key, newJob, newEvent) => var _ := ReplayJob(scope, original, key, newJob, newEvent);
    }

    method ExecuteMove(step: Step)
      requires Consistent() && (step.CancelStep? || step.PromoteStep? || step.RenotifyStep?)
      modifies this
      ensures Consistent() && db == Apply(old(db), step)
    {
      match step
      case CancelStep(scope, job) => var _ := Cancel(scope, job);
      case PromoteStep(job, newEvent) => var _ := Promote(job, newEvent);
      case RenotifyStep(job, after, newEvent) => var _ := Renotify(job, after, newEvent);
    }

    /** One step of another replica, worker or client. */
    method Execute(step: Step)
      requires Consistent()
      modifies this
      ensures Consistent() && db == Apply(old(db), step)
    {
      match step
      case RegisterStep(scope, reg, newWorker) => var _ := RegisterSession(scope, reg, newWorker);
      case HeartbeatStep(scope, worker, session) => var _ := Beat(scope, worker, session);
      case MarkStaleStep(session, staleAfter) => var _ := MarkStale(session, staleAfter);
      case CancelStep(_, _) => ExecuteMove(step);
      case SubmitStep(_, _, _, _, _) => ExecuteInsert(step);
      case ReplayStep(_, _, _, _, _) => ExecuteInsert(step);
      case PromoteStep(_, _) => ExecuteMove(step);
      case RenotifyStep(_, _, _) => ExecuteMove(step);
      case ClaimEventsStep(picked, claimTimeout) => var _ := ClaimEvents(picked, claimTimeout);
      case MarkPublishedStep(event) => var _ := MarkEventPublished(event);
      case RecordFailureStep(event, cause, retryAfter) => RecordEventFailure(event, cause, retryAfter);
      case TickStep(elapsed) => AdvanceClock(elapsed);
      case _ => ExecuteReport(step);
    }

    method ExecuteAll(steps: seq<Step>)
      requires Consistent()
      modifies this
      ensures Consistent() && db == Run(old(db), steps)
    {
      var i := 0;
      while i < |steps|
        invariant 0 <= i <= |steps| && Consistent()
        invariant db == Run(old(db), steps[..i])
      {
        Execute(steps[i]);
        assert steps[..i + 1] == steps[..i] + [steps[i]];
        RunAppend(old(db), steps[..i], [steps[i]]);
        i := i + 1;
      }
      assert steps[..i] == steps;
    }
  }
}
