/**
 How each invariant group survives the row updates that transactions are made of.
 A lemma speaks only of the tables its group mentions.
 */
module Effects {
  import opened Base
  import opened Schema
  import opened Transactions
  import opened Invariants

  // -------------------------------------------------------------------- rows

  lemma JobRowUpdated(jobs: map<Id, Job>, now: Time, j: Id, job: Job)
    requires JobRows(jobs, now) && JobRow(job, now)
    ensures JobRows(jobs[j := job], now)
  {
  }

  lemma AttemptRowUpdated(attempts: map<Id, Attempt>, now: Time, a: Id, row: Attempt)
    requires AttemptRows(attempts, now) && AttemptRow(row, now)
    ensures AttemptRows(attempts[a := row], now)
  {
  }

  lemma LeaseRowUpdated(leases: map<Id, Lease>, now: Time, leaseDuration: int, l: Id, row: Lease)
    requires LeaseRows(leases, now, leaseDuration) && LeaseRow(row, now, leaseDuration)
    ensures LeaseRows(leases[l := row], now, leaseDuration)
  {
  }

  lemma EventRowUpdated(events: map<Id, Event>, now: Time, e: Id, row: Event)
    requires EventRows(events, now) && EventRow(row, now)
    ensures EventRows(events[e := row], now)
  {
  }

  lemma SessionRowUpdated(sessions: map<Id, Session>, now: Time, i: Id, row: Session)
    requires SessionRows(sessions, now) && SessionRow(row, now)
    ensures SessionRows(sessions[i := row], now)
  {
  }

  /** Row constraints bound times by the clock from above only, so they survive its advance. */
  lemma RowsAfterTick(s: State, now: Time)
    requires s.now <= now
    ensures JobRows(s.jobs, s.now) ==> JobRows(s.jobs, now)
    ensures AttemptRows(s.attempts, s.now) ==> AttemptRows(s.attempts, now)
    ensures LeaseRows(s.leases, s.now, s.leaseDuration) ==> LeaseRows(s.leases, now, s.leaseDuration)
    ensures SessionRows(s.sessions, s.now) ==> SessionRows(s.sessions, now)
    ensures EventRows(s.events, s.now) ==> EventRows(s.events, now)
  {
  }

  // ---------------------------------------------------------------- sessions

  lemma SessionsUpdated(workers: map<WorkerKey, Id>, sessions: map<Id, Session>, i: Id, row: Session)
    requires Sessions(workers, sessions)
    requires i in sessions && row.worker == sessions[i].worker && row.scope == sessions[i].scope && row.reg == sessions[i].reg
    requires row.status.Current() ==> sessions[i].status.Current()
    ensures Sessions(workers, sessions[i := row])
  {
    var sessions' := sessions[i := row];
    forall m, n | BothCurrent(sessions', m, n) ensures m == n {
      assert BothCurrent(sessions, m, n);
    }
  }

  /** A new boot ends the worker's current session before it becomes the current one. */
  lemma SessionsRegistered(workers: map<WorkerKey, Id>, sessions: map<Id, Session>, key: WorkerKey, i: Id, row: Session, now: Time)
    requires Sessions(workers, sessions)
    requires i !in sessions && row.reg.session == i && key == WorkerKey(row.scope, row.reg.name)
    requires key in workers ==> row.worker == workers[key]
    requires key !in workers ==> row.worker !in workers.Values
    ensures Sessions(workers[key := row.worker], EndCurrent(sessions, row.worker, now)[i := row])
  {
    var workers', sessions' := workers[key := row.worker], EndCurrent(sessions, row.worker, now)[i := row];
    forall k, m | SameWorker(workers', k, m) ensures k == m {
      assert k == key || m == key || SameWorker(workers, k, m);
      assert k in workers ==> workers[k] in workers.Values;
      assert m in workers ==> workers[m] in workers.Values;
      assert key in workers ==> SameWorker(workers, k, m);
    }
    forall m, n | BothCurrent(sessions', m, n) ensures m == n {
      assert m == i || n == i || BothCurrent(sessions, m, n);
    }
  }

  lemma SessionRowsRegistered(sessions: map<Id, Session>, now: Time, worker: Id, i: Id, row: Session)
    requires SessionRows(sessions, now) && SessionRow(row, now)
    ensures SessionRows(EndCurrent(sessions, worker, now)[i := row], now)
  {
  }

  // ------------------------------------------------------- counting attempts

  /** Attempts keep their binding and number; only outcome columns move. */
  ghost predicate SameAttempts(before: map<Id, Attempt>, after: map<Id, Attempt>) {
    && before.Keys == after.Keys
    && (forall a :: a in before ==> after[a].binding == before[a].binding && after[a].number == before[a].number)
  }

  lemma UsedKept(before: map<Id, Attempt>, after: map<Id, Attempt>)
    requires SameAttempts(before, after)
    ensures forall j :: Used(after, j) == Used(before, j)
  {
    forall j ensures Used(after, j) == Used(before, j) {
      assert AttemptsOf(after, j) == AttemptsOf(before, j);
    }
  }

  lemma UsedAfterInsert(attempts: map<Id, Attempt>, a: Id, row: Attempt)
    requires a !in attempts
    ensures Used(attempts[a := row], row.binding.job) == Used(attempts, row.binding.job) + 1
    ensures forall j :: j != row.binding.job ==> Used(attempts[a := row], j) == Used(attempts, j)
  {
    var after := attempts[a := row];
    assert AttemptsOf(after, row.binding.job) == AttemptsOf(attempts, row.binding.job) + {a};
    forall j | j != row.binding.job ensures Used(after, j) == Used(attempts, j) {
      assert AttemptsOf(after, j) == AttemptsOf(attempts, j);
    }
  }

  /** A job has at most one executing attempt: executing attempts carry the last number. */
  lemma OneExecuting(attempts: map<Id, Attempt>, a: Id, b: Id, j: Id)
    requires Numbers(attempts)
    requires ExecutingAttempt(attempts, a, j) && ExecutingAttempt(attempts, b, j)
    ensures a == b
  {
    assert SameNumber(attempts, a, b);
  }

  lemma NumbersKept(before: map<Id, Attempt>, after: map<Id, Attempt>)
    requires Numbers(before)
    requires SameAttempts(before, after)
    requires forall a :: a in after && after[a].status.Executing() ==> before[a].status.Executing()
    ensures Numbers(after)
  {
    UsedKept(before, after);
    forall a, b | SameNumber(after, a, b) ensures a == b {
      assert SameNumber(before, a, b);
    }
  }

  lemma NumbersUpdated(attempts: map<Id, Attempt>, a: Id, row: Attempt)
    requires Numbers(attempts)
    requires a in attempts && row.binding == attempts[a].binding && row.number == attempts[a].number
    requires row.status.Executing() ==> attempts[a].status.Executing()
    ensures Numbers(attempts[a := row])
  {
    NumbersKept(attempts, attempts[a := row]);
  }

  lemma NumbersAfterInsert(attempts: map<Id, Attempt>, a: Id, row: Attempt)
    requires Numbers(attempts)
    requires a !in attempts && row.number == Used(attempts, row.binding.job) + 1
    requires forall b :: !ExecutingAttempt(attempts, b, row.binding.job)
    ensures Numbers(attempts[a := row])
  {
    var after := attempts[a := row];
    UsedAfterInsert(attempts, a, row);
    forall b, c | SameNumber(after, b, c) ensures b == c {
      assert b == a || c == a || SameNumber(attempts, b, c);
    }
    forall b | b in after && after[b].status.Executing() ensures after[b].number == Used(after, after[b].binding.job) {
      assert b == a || !ExecutingAttempt(attempts, b, row.binding.job);
    }
  }

  lemma BudgetAfterInsert(jobs: map<Id, Job>, attempts: map<Id, Attempt>, j: Id, job: Job, a: Id, row: Attempt)
    requires Budget(jobs, attempts)
    requires a !in attempts && row.binding.job == j
    requires j in jobs && jobs[j].status.Waiting() && !job.status.Waiting() && job.spec == jobs[j].spec
    ensures Budget(jobs[j := job], attempts[a := row])
  {
    UsedAfterInsert(attempts, a, row);
  }

  lemma BudgetUpdated(jobs: map<Id, Job>, attempts: map<Id, Attempt>, j: Id, job: Job, a: Id, row: Attempt)
    requires Budget(jobs, attempts)
    requires a in attempts && row.binding == attempts[a].binding && row.number == attempts[a].number
    requires j in jobs && job.spec == jobs[j].spec
    requires job.status.Waiting() ==> Used(attempts, j) < job.spec.maxAttempts
    ensures Budget(jobs[j := job], attempts[a := row])
  {
    UsedKept(attempts, attempts[a := row]);
  }

  lemma BudgetOfJob(jobs: map<Id, Job>, attempts: map<Id, Attempt>, j: Id, job: Job)
    requires Budget(jobs, attempts)
    requires j in jobs ==> job.spec == jobs[j].spec
    requires j in jobs && job.status.Waiting() ==> jobs[j].status.Waiting()
    requires j !in jobs ==> Used(attempts, j) < job.spec.maxAttempts
    ensures Budget(jobs[j := job], attempts)
  {
  }

  lemma NoAttempts(attempts: map<Id, Attempt>, j: Id)
    requires forall a :: a in attempts ==> attempts[a].binding.job != j
    ensures Used(attempts, j) == 0
  {
    assert AttemptsOf(attempts, j) == {};
  }

  // ---------------------------------------------------------------- bindings

  lemma BindingsUpdated(sessions: map<Id, Session>, jobs: map<Id, Job>, attempts: map<Id, Attempt>, leases: map<Id, Lease>,
                        j: Id, job: Job, a: Id, attempt: Attempt, l: Id, lease: Lease)
    requires Bindings(sessions, jobs, attempts, leases)
    requires j in jobs && job.scope == jobs[j].scope && job.spec == jobs[j].spec
    requires a in attempts && attempt.binding == attempts[a].binding
    requires l in leases && lease.binding == leases[l].binding && lease.attempt == leases[l].attempt
    ensures Bindings(sessions, jobs[j := job], attempts[a := attempt], leases[l := lease])
  {
    var leases' := leases[l := lease];
    forall b | b in attempts[a := attempt] ensures HasLease(leases', b) {
      var m := LeaseOf(leases, b);
      assert m in leases' && leases'[m].attempt == b;
    }
    forall m, n | SameAttempt(leases', m, n) ensures m == n {
      assert SameAttempt(leases, m, n);
    }
  }

  lemma BindingsOfJobs(sessions: map<Id, Session>, jobs: map<Id, Job>, attempts: map<Id, Attempt>, leases: map<Id, Lease>,
                       j: Id, job: Job)
    requires Bindings(sessions, jobs, attempts, leases)
    requires j in jobs ==> job.scope == jobs[j].scope && job.spec == jobs[j].spec
    ensures Bindings(sessions, jobs[j := job], attempts, leases)
  {
  }

  lemma BindingsOfSessions(sessions: map<Id, Session>, sessions': map<Id, Session>, jobs: map<Id, Job>,
                           attempts: map<Id, Attempt>, leases: map<Id, Lease>)
    requires Bindings(sessions, jobs, attempts, leases)
    requires forall i :: i in sessions ==>
               i in sessions' && sessions'[i].worker == sessions[i].worker && sessions'[i].scope == sessions[i].scope
    ensures Bindings(sessions', jobs, attempts, leases)
  {
  }

  lemma BindingsGranted(sessions: map<Id, Session>, jobs: map<Id, Job>, attempts: map<Id, Attempt>, leases: map<Id, Lease>,
                        j: Id, job: Job, a: Id, attempt: Attempt, l: Id, lease: Lease)
    requires Bindings(sessions, jobs, attempts, leases)
    requires j in jobs && job.scope == jobs[j].scope && job.spec == jobs[j].spec
    requires a !in attempts && l !in leases
    requires BindingHolds(attempt.binding, sessions, jobs) && lease.binding == attempt.binding && lease.attempt == a
    ensures Bindings(sessions, jobs[j := job], attempts[a := attempt], leases[l := lease])
  {
    var leases' := leases[l := lease];
    forall b | b in attempts[a := attempt] ensures HasLease(leases', b) {
      if b == a {
        assert l in leases' && leases'[l].attempt == a;
      } else {
        var m := LeaseOf(leases, b);
        assert m in leases' && leases'[m].attempt == b;
      }
    }
    forall m, n | SameAttempt(leases', m, n) ensures m == n {
      assert m == l || n == l || SameAttempt(leases, m, n);
    }
  }

  // --------------------------------------------------------------- authority

  lemma AuthorityClosed(jobs: map<Id, Job>, attempts: map<Id, Attempt>, leases: map<Id, Lease>,
                        j: Id, job: Job, a: Id, attempt: Attempt, l: Id, lease: Lease)
    requires Authority(jobs, attempts, leases)
    requires j in jobs && a in attempts && l in leases
    requires attempts[a].binding.job == j && attempt.binding == attempts[a].binding
    requires leases[l].attempt == a && lease.attempt == a
    requires forall b :: ExecutingAttempt(attempts, b, j) ==> b == a
    requires forall m :: m in leases && leases[m].attempt == a ==> m == l
    requires !job.status.Held() && !attempt.status.Executing() && !lease.status.LeaseActive?
    requires lease.status.LeaseCompleted? <==> attempt.status.AttemptSucceeded?
    ensures Authority(jobs[j := job], attempts[a := attempt], leases[l := lease])
  {
    var jobs', attempts' := jobs[j := job], attempts[a := attempt];
    forall k | k in jobs' && jobs'[k].status.Held() ensures HasExecuting(attempts', k) {
      var b :| ExecutingAttempt(attempts, b, k);
      assert ExecutingAttempt(attempts', b, k);
    }
    forall b | b in attempts' && attempts'[b].status.Executing()
      ensures StatusesAgree(jobs'[attempts'[b].binding.job].status, attempts'[b].status)
    {
      assert ExecutingAttempt(attempts, b, attempts[b].binding.job);
    }
  }

  /** Start and cancellation requests move a held job together with its attempt. */
  lemma AuthorityMoved(jobs: map<Id, Job>, attempts: map<Id, Attempt>, leases: map<Id, Lease>,
                       j: Id, job: Job, a: Id, attempt: Attempt)
    requires Authority(jobs, attempts, leases)
    requires j in jobs && ExecutingAttempt(attempts, a, j) && attempt.binding == attempts[a].binding
    requires forall b :: ExecutingAttempt(attempts, b, j) ==> b == a
    requires StatusesAgree(job.status, attempt.status)
    ensures Authority(jobs[j := job], attempts[a := attempt], leases)
  {
    var jobs', attempts' := jobs[j := job], attempts[a := attempt];
    forall k | k in jobs' && jobs'[k].status.Held() ensures HasExecuting(attempts', k) {
      if k == j {
        assert ExecutingAttempt(attempts', a, j);
      } else {
        var b :| ExecutingAttempt(attempts, b, k);
        assert ExecutingAttempt(attempts', b, k);
      }
    }
    forall b | b in attempts' && attempts'[b].status.Executing()
      ensures StatusesAgree(jobs'[attempts'[b].binding.job].status, attempts'[b].status)
    {
      assert b == a || ExecutingAttempt(attempts, b, attempts[b].binding.job);
    }
  }

  lemma AuthorityOfFreeJob(jobs: map<Id, Job>, attempts: map<Id, Attempt>, leases: map<Id, Lease>, j: Id, job: Job)
    requires Authority(jobs, attempts, leases)
    requires j in jobs ==> !jobs[j].status.Held()
    requires !job.status.Held()
    ensures Authority(jobs[j := job], attempts, leases)
  {
    var jobs' := jobs[j := job];
    forall k | k in jobs' && jobs'[k].status.Held() ensures HasExecuting(attempts, k) {
      assert k in jobs && jobs[k].status.Held();
    }
  }

  /** Cancellation wins over an executing attempt without touching it. */
  lemma AuthorityRequested(jobs: map<Id, Job>, attempts: map<Id, Attempt>, leases: map<Id, Lease>, j: Id, job: Job)
    requires Authority(jobs, attempts, leases)
    requires j in jobs && jobs[j].status.Executing() && job.status.StatusCancelRequested?
    ensures Authority(jobs[j := job], attempts, leases)
  {
    var jobs' := jobs[j := job];
    forall k | k in jobs' && jobs'[k].status.Held() ensures HasExecuting(attempts, k) {
      assert k in jobs && jobs[k].status.Held();
    }
  }

  lemma AuthorityRenewed(jobs: map<Id, Job>, attempts: map<Id, Attempt>, leases: map<Id, Lease>, l: Id, lease: Lease)
    requires Authority(jobs, attempts, leases)
    requires l in leases && lease.attempt == leases[l].attempt && lease.status == leases[l].status
    ensures Authority(jobs, attempts, leases[l := lease])
  {
  }

  lemma AuthorityGranted(jobs: map<Id, Job>, attempts: map<Id, Attempt>, leases: map<Id, Lease>,
                         j: Id, job: Job, a: Id, attempt: Attempt, l: Id, lease: Lease)
    requires Authority(jobs, attempts, leases)
    requires j in jobs && !jobs[j].status.Held() && job.status.StatusLeased?
    requires a !in attempts && attempt.binding.job == j && attempt.status.AttemptLeased?
    requires l !in leases && lease.attempt == a && lease.status.LeaseActive?
    ensures Authority(jobs[j := job], attempts[a := attempt], leases[l := lease])
  {
    var jobs', attempts' := jobs[j := job], attempts[a := attempt];
    forall k | k in jobs' && jobs'[k].status.Held() ensures HasExecuting(attempts', k) {
      if k == j {
        assert ExecutingAttempt(attempts', a, j);
      } else {
        var b :| ExecutingAttempt(attempts, b, k);
        assert ExecutingAttempt(attempts', b, k);
      }
    }
  }

  // ------------------------------------------------------------------ settled

  predicate EndsAs(attempt: Attempt, job: Job) {
    if Final(attempt) then job.status == FinalStatus(attempt.status)
    else if attempt.retryDelayMillis.Some? && attempt.retryDelayMillis.value > 0 then
      job.status.StatusRetryWait? && attempt.retryAt == Some(job.availableAt)
      && (attempt.status.AttemptFailed? || attempt.status.AttemptTimedOut?)
    else job.status.StatusQueued?
  }

  lemma SettledClosed(jobs: map<Id, Job>, attempts: map<Id, Attempt>, j: Id, job: Job, a: Id, attempt: Attempt)
    requires Settled(jobs, attempts)
    requires a in attempts && attempts[a].number == Used(attempts, j)
    requires j in jobs && jobs[j].status.Held() && job.spec == jobs[j].spec
    requires ExecutingAttempt(attempts, a, j)
    requires attempt.binding == attempts[a].binding && attempt.number == attempts[a].number
    requires !attempt.status.Executing() && EndsAs(attempt, job)
    requires attempt.retryDelayMillis.Some? ==> attempt.number < job.spec.maxAttempts
    ensures Settled(jobs[j := job], attempts[a := attempt])
  {
    var jobs', attempts' := jobs[j := job], attempts[a := attempt];
    UsedKept(attempts, attempts');
    forall k | k in jobs' && jobs'[k].status.StatusSucceeded? ensures exists b :: SucceededAttempt(attempts', b, k) {
      if k == j {
        assert SucceededAttempt(attempts', a, j);
      } else {
        var b :| SucceededAttempt(attempts, b, k);
        assert SucceededAttempt(attempts', b, k);
      }
    }
    forall k | k in jobs' && jobs'[k].status.StatusRetryWait?
      ensures exists b :: RetriedAttempt(attempts', b, k, jobs'[k].availableAt) && attempts'[b].number == Used(attempts', k)
    {
      if k == j {
        assert RetriedAttempt(attempts', a, j, job.availableAt);
      } else {
        var b :| RetriedAttempt(attempts, b, k, jobs[k].availableAt) && attempts[b].number == Used(attempts, k);
        assert RetriedAttempt(attempts', b, k, jobs'[k].availableAt);
      }
    }
  }

  /** Non-final attempts of a job leave it free to move between live statuses or to be canceled. */
  lemma SettledMoved(jobs: map<Id, Job>, attempts: map<Id, Attempt>, j: Id, job: Job)
    requires Settled(jobs, attempts)
    requires j in jobs ==> !jobs[j].status.Terminal() && job.spec == jobs[j].spec
    requires !job.status.StatusSucceeded? && !job.status.StatusRetryWait?
    requires j !in jobs ==> forall a :: a in attempts ==> attempts[a].binding.job != j
    ensures Settled(jobs[j := job], attempts)
  {
  }

  lemma SettledExecuting(jobs: map<Id, Job>, attempts: map<Id, Attempt>, a: Id, attempt: Attempt)
    requires Settled(jobs, attempts)
    requires a in attempts && attempts[a].status.Executing() && attempt.status.Executing()
    requires attempt.binding == attempts[a].binding && attempt.number == attempts[a].number
    requires attempt.retryDelayMillis.None?
    ensures Settled(jobs, attempts[a := attempt])
  {
    var attempts' := attempts[a := attempt];
    UsedKept(attempts, attempts');
    forall k | k in jobs && jobs[k].status.StatusSucceeded? ensures exists b :: SucceededAttempt(attempts', b, k) {
      var b :| SucceededAttempt(attempts, b, k);
      assert SucceededAttempt(attempts', b, k);
    }
    forall k | k in jobs && jobs[k].status.StatusRetryWait?
      ensures exists b :: RetriedAttempt(attempts', b, k, jobs[k].availableAt) && attempts'[b].number == Used(attempts', k)
    {
      var b :| RetriedAttempt(attempts, b, k, jobs[k].availableAt) && attempts[b].number == Used(attempts, k);
      assert RetriedAttempt(attempts', b, k, jobs[k].availableAt);
    }
  }

  lemma SettledGranted(jobs: map<Id, Job>, attempts: map<Id, Attempt>, j: Id, job: Job, a: Id, attempt: Attempt)
    requires Settled(jobs, attempts)
    requires j in jobs && jobs[j].status.StatusQueued? && job.status.StatusLeased? && job.spec == jobs[j].spec
    requires a !in attempts && attempt.binding.job == j && attempt.status.Executing() && attempt.retryDelayMillis.None?
    ensures Settled(jobs[j := job], attempts[a := attempt])
  {
    var jobs', attempts' := jobs[j := job], attempts[a := attempt];
    UsedAfterInsert(attempts, a, attempt);
    forall k | k in jobs' && jobs'[k].status.StatusSucceeded? ensures exists b :: SucceededAttempt(attempts', b, k) {
      var b :| SucceededAttempt(attempts, b, k);
      assert SucceededAttempt(attempts', b, k);
    }
    forall k | k in jobs' && jobs'[k].status.StatusRetryWait?
      ensures exists b :: RetriedAttempt(attempts', b, k, jobs'[k].availableAt) && attempts'[b].number == Used(attempts', k)
    {
      var b :| RetriedAttempt(attempts, b, k, jobs[k].availableAt) && attempts[b].number == Used(attempts, k);
      assert RetriedAttempt(attempts', b, k, jobs'[k].availableAt);
    }
  }

  // ----------------------------------------------------------------- capacity

  lemma ActiveShrinks(before: map<Id, Lease>, after: map<Id, Lease>)
    requires forall l :: l in after && after[l].status.LeaseActive? ==>
               l in before && before[l].status.LeaseActive? && before[l].binding == after[l].binding
    ensures forall q :: |ActiveInQueue(after, q)| <= |ActiveInQueue(before, q)|
    ensures forall w :: ActiveOfWorker(after, w) <= ActiveOfWorker(before, w)
  {
    forall q ensures |ActiveInQueue(after, q)| <= |ActiveInQueue(before, q)| {
      SubsetSize(ActiveInQueue(after, q), ActiveInQueue(before, q));
    }
  }

  lemma LimitKept(sessions: map<Id, Session>, before: map<Id, Lease>, after: map<Id, Lease>)
    requires forall w :: WithinLimit(sessions, before, w)
    requires forall w :: ActiveOfWorker(after, w) <= ActiveOfWorker(before, w)
    ensures forall w :: WithinLimit(sessions, after, w)
  {
    forall w ensures WithinLimit(sessions, after, w) {
      assert WithinLimit(sessions, before, w);
      SubsetSize(ActiveOfWorker(after, w), ActiveOfWorker(before, w));
    }
  }

  lemma CapacityUpdated(queues: map<Name, Queue>, sessions: map<Id, Session>, leases: map<Id, Lease>, l: Id, lease: Lease)
    requires Capacity(queues, sessions, leases)
    requires l in leases && lease.binding == leases[l].binding
    requires lease.status.LeaseActive? ==> leases[l].status.LeaseActive?
    ensures Capacity(queues, sessions, leases[l := lease])
  {
    ActiveShrinks(leases, leases[l := lease]);
    LimitKept(sessions, leases, leases[l := lease]);
  }

  lemma CapacityGranted(queues: map<Name, Queue>, sessions: map<Id, Session>, leases: map<Id, Lease>, l: Id, lease: Lease)
    requires Capacity(queues, sessions, leases)
    requires l !in leases
    requires lease.binding.queue in queues
    requires |ActiveInQueue(leases, lease.binding.queue)| < queues[lease.binding.queue].maxConcurrency
    requires lease.binding.session in sessions && sessions[lease.binding.session].worker == lease.binding.worker
    requires |ActiveOfWorker(leases, lease.binding.worker)| < sessions[lease.binding.session].reg.concurrencyLimit
    ensures Capacity(queues, sessions, leases[l := lease])
  {
    var after := leases[l := lease];
    forall q | q in queues ensures |ActiveInQueue(after, q)| <= queues[q].maxConcurrency {
      SubsetSize(ActiveInQueue(after, q), ActiveInQueue(leases, q) + {l});
      if q != lease.binding.queue {
        assert ActiveInQueue(after, q) == ActiveInQueue(leases, q);
      }
    }
    forall w ensures WithinLimit(sessions, after, w) {
      assert WithinLimit(sessions, leases, w);
      SubsetSize(ActiveOfWorker(after, w), ActiveOfWorker(leases, w) + {l});
      if w != lease.binding.worker {
        assert ActiveOfWorker(after, w) == ActiveOfWorker(leases, w);
      }
    }
  }

  lemma CapacityOfSessions(queues: map<Name, Queue>, sessions: map<Id, Session>, sessions': map<Id, Session>,
                           leases: map<Id, Lease>)
    requires Capacity(queues, sessions, leases)
    requires forall i :: i in sessions ==>
               i in sessions' && sessions'[i].worker == sessions[i].worker && sessions'[i].reg == sessions[i].reg
    ensures Capacity(queues, sessions', leases)
  {
    forall w ensures WithinLimit(sessions', leases, w) {
      assert WithinLimit(sessions, leases, w);
    }
  }

  // ------------------------------------------------------------ notifications

  /** A job update that opens a generation comes with the event that advertises it. */
  lemma NotificationsAdded(jobs: map<Id, Job>, events: map<Id, Event>, j: Id, job: Job, e: Id, event: Event)
    requires Notifications(jobs, events)
    requires e !in events && event.job == j && event.generation == job.generation && 1 <= job.generation
    requires event.queue == job.spec.queue
    requires j in jobs ==> job.spec == jobs[j].spec
    requires var g := if j in jobs then jobs[j].generation else 0;
             job.generation == g + 1 || (job.generation == g && !HasPending(events, j, g))
    ensures Notifications(jobs[j := job], events[e := event])
  {
    var jobs', events' := jobs[j := job], events[e := event];
    forall k, g: nat | k in jobs' && 1 <= g <= jobs'[k].generation ensures Notified(events', k, g) {
      if k == j && g == job.generation {
        assert EventFor(events', e, k, g);
      } else {
        assert Notified(events, k, g);
        var x :| EventFor(events, x, k, g);
        assert EventFor(events', x, k, g);
      }
    }
    forall x, y | BothPending(events', x, y) ensures x == y {
      if x != e && y != e {
        assert BothPending(events, x, y);
      } else if x != y {
        var z := if x == e then y else x;
        assert PendingEvent(events, z, j, job.generation);
        assert HasPending(events, j, job.generation);
      }
    }
  }

  lemma NotificationsOfJob(jobs: map<Id, Job>, events: map<Id, Event>, j: Id, job: Job)
    requires Notifications(jobs, events)
    requires if j in jobs then job.generation == jobs[j].generation && job.spec == jobs[j].spec else job.generation == 0
    ensures Notifications(jobs[j := job], events)
  {
  }

  lemma NotificationsOfEvents(jobs: map<Id, Job>, events: map<Id, Event>, events': map<Id, Event>)
    requires Notifications(jobs, events)
    requires events.Keys == events'.Keys
    requires forall e :: e in events ==>
               && events'[e].job == events[e].job && events'[e].generation == events[e].generation
               && events'[e].queue == events[e].queue
               && (events'[e].status.EventPending? ==> events[e].status.EventPending?)
    ensures Notifications(jobs, events')
  {
    forall k, g: nat | k in jobs && 1 <= g <= jobs[k].generation ensures Notified(events', k, g) {
      assert Notified(events, k, g);
      var x :| EventFor(events, x, k, g);
      assert EventFor(events', x, k, g);
    }
    forall x, y | BothPending(events', x, y) ensures x == y {
      assert BothPending(events, x, y);
    }
  }

  // ------------------------------------------------------------- dead letters

  /** Updates of live jobs and executing attempts leave the dead-letter queue alone. */
  lemma DeadLettersUntouched(jobs: map<Id, Job>, attempts: map<Id, Attempt>, dlq: map<Id, DlqEntry>,
                             j: Id, job: Job, a: Id, attempt: Attempt)
    requires DeadLetters(jobs, attempts, dlq)
    requires (j in jobs ==> !jobs[j].status.StatusDeadLettered?) && !job.status.StatusDeadLettered?
    requires a in attempts ==> !Final(attempts[a])
    ensures DeadLetters(jobs[j := job], attempts[a := attempt], dlq)
  {
  }

  lemma DeadLettersOfJob(jobs: map<Id, Job>, attempts: map<Id, Attempt>, dlq: map<Id, DlqEntry>, j: Id, job: Job)
    requires DeadLetters(jobs, attempts, dlq)
    requires (j in jobs ==> !jobs[j].status.StatusDeadLettered?) && !job.status.StatusDeadLettered?
    ensures DeadLetters(jobs[j := job], attempts, dlq)
  {
  }

  lemma DeadLettersAdded(jobs: map<Id, Job>, attempts: map<Id, Attempt>, dlq: map<Id, DlqEntry>,
                         j: Id, job: Job, a: Id, attempt: Attempt, d: Id, entry: DlqEntry)
    requires DeadLetters(jobs, attempts, dlq)
    requires j in jobs && !jobs[j].status.StatusDeadLettered? && job.status.StatusDeadLettered?
    requires a in attempts && !Final(attempts[a]) && Final(attempt) && attempt.binding.job == j
    requires d !in dlq && entry.job == j && entry.attempt == a && entry.reason == ReasonOf(attempt)
    requires entry.scope == job.scope && entry.queue == job.spec.queue
    requires entry.reason.ReasonAttemptsExhausted? ==> attempt.number == job.spec.maxAttempts
    ensures DeadLetters(jobs[j := job], attempts[a := attempt], dlq[d := entry])
  {
    var jobs', dlq' := jobs[j := job], dlq[d := entry];
    forall k | k in jobs' && jobs'[k].status.StatusDeadLettered? ensures HasEntry(dlq', k) {
      if k == j {
        assert d in dlq' && dlq'[d].job == j;
      } else {
        assert HasEntry(dlq, k);
        var x :| x in dlq && dlq[x].job == k;
        assert x in dlq' && dlq'[x].job == k;
      }
    }
    forall x, y | SameDeadJob(dlq', x, y) ensures x == y {
      assert x == d || y == d || SameDeadJob(dlq, x, y);
    }
  }

  // --------------------------------------------------------------- identities

  lemma IdentitiesUpdated(attempts: map<Id, Attempt>, leases: map<Id, Lease>, a: Id, attempt: Attempt, l: Id, lease: Lease)
    requires Identities(attempts, leases)
    requires a in attempts && l in leases
    requires lease.claimId == leases[l].claimId
    requires attempt.outcomeId == attempts[a].outcomeId
             || (attempt.outcomeId.Some? && !OutcomeTaken(attempts, a, attempt.outcomeId.value))
    requires lease.lastRenewalId == leases[l].lastRenewalId
             || (lease.lastRenewalId.Some? && !RenewalTaken(leases, l, lease.lastRenewalId.value))
    ensures Identities(attempts[a := attempt], leases[l := lease])
  {
    var attempts', leases' := attempts[a := attempt], leases[l := lease];
    forall m, n | SameClaim(leases', m, n) ensures m == n {
      assert SameClaim(leases, m, n);
    }
    forall b, c | SameOutcome(attempts', b, c) ensures b == c {
      assert b == a || c == a || SameOutcome(attempts, b, c);
      assert attempt.outcomeId == attempts[a].outcomeId ==> SameOutcome(attempts, b, c);
    }
    forall m, n | SameRenewal(leases', m, n) ensures m == n {
      assert m == l || n == l || SameRenewal(leases, m, n);
      assert lease.lastRenewalId == leases[l].lastRenewalId ==> SameRenewal(leases, m, n);
    }
  }

  lemma IdentitiesGranted(attempts: map<Id, Attempt>, leases: map<Id, Lease>, a: Id, attempt: Attempt, l: Id, lease: Lease)
    requires Identities(attempts, leases)
    requires a !in attempts && l !in leases
    requires !ClaimedBy(leases, lease.claimId)
    requires attempt.outcomeId.None? && lease.lastRenewalId.None?
    ensures Identities(attempts[a := attempt], leases[l := lease])
  {
    var attempts', leases' := attempts[a := attempt], leases[l := lease];
    forall m, n | SameClaim(leases', m, n) ensures m == n {
      assert m == l || n == l || SameClaim(leases, m, n);
    }
    forall b, c | SameOutcome(attempts', b, c) ensures b == c {
      assert SameOutcome(attempts, b, c);
    }
    forall m, n | SameRenewal(leases', m, n) ensures m == n {
      assert SameRenewal(leases, m, n);
    }
  }

  // -------------------------------------------------- submissions and results

  lemma SubmissionsOfJob(jobs: map<Id, Job>, submissions: map<SubmissionKey, Submission>,
                         replays: map<ReplayKey, Id>, j: Id, job: Job)
    requires Submissions(jobs, submissions, replays)
    requires j in jobs ==>
               && !jobs[j].status.StatusDeadLettered?
               && job.scope == jobs[j].scope && job.spec == jobs[j].spec && job.replayedFrom == jobs[j].replayedFrom
    ensures Submissions(jobs[j := job], submissions, replays)
  {
    var jobs' := jobs[j := job];
    forall k | k in replays ensures ReplayedAs(jobs', k, replays[k]) {
      assert ReplayedAs(jobs, k, replays[k]);
    }
  }

  lemma SubmissionAdded(jobs: map<Id, Job>, submissions: map<SubmissionKey, Submission>,
                        replays: map<ReplayKey, Id>, k: SubmissionKey, x: Submission)
    requires Submissions(jobs, submissions, replays)
    requires k !in submissions && SubmittedAs(jobs, k, x.job)
    requires forall m :: m in submissions ==> submissions[m].job != x.job
    ensures Submissions(jobs, submissions[k := x], replays)
  {
    var submissions' := submissions[k := x];
    forall m, n | SameSubmission(submissions', m, n) ensures m == n {
      assert m == k || n == k || SameSubmission(submissions, m, n);
    }
  }

  lemma ReplayAdded(jobs: map<Id, Job>, submissions: map<SubmissionKey, Submission>,
                    replays: map<ReplayKey, Id>, k: ReplayKey, j: Id)
    requires Submissions(jobs, submissions, replays)
    requires k !in replays && ReplayedAs(jobs, k, j)
    requires forall m :: m in replays ==> replays[m] != j
    ensures Submissions(jobs, submissions, replays[k := j])
  {
    var replays' := replays[k := j];
    forall m, n | SameReplacement(replays', m, n) ensures m == n {
      assert m == k || n == k || SameReplacement(replays, m, n);
    }
  }

  lemma SourcesOfJob(queues: map<Name, Queue>, jobs: map<Id, Job>, submissions: map<SubmissionKey, Submission>,
                     replays: map<ReplayKey, Id>, j: Id, job: Job)
    requires Sources(queues, jobs, submissions, replays)
    requires j in jobs && job.spec == jobs[j].spec
    ensures Sources(queues, jobs[j := job], submissions, replays)
  {
  }

  lemma SourcesAdded(queues: map<Name, Queue>, jobs: map<Id, Job>, submissions: map<SubmissionKey, Submission>,
                     replays: map<ReplayKey, Id>, j: Id, job: Job,
                     submissions': map<SubmissionKey, Submission>, replays': map<ReplayKey, Id>)
    requires Sources(queues, jobs, submissions, replays)
    requires job.spec.queue in queues && HasSource(submissions', replays', j)
    requires forall k :: k in submissions ==> k in submissions' && submissions'[k] == submissions[k]
    requires forall k :: k in replays ==> k in replays' && replays'[k] == replays[k]
    ensures Sources(queues, jobs[j := job], submissions', replays')
  {
    forall i | i in jobs ensures HasSource(submissions', replays', i) {
      assert HasSource(submissions, replays, i);
      if k :| k in submissions && submissions[k].job == i {
        assert k in submissions' && submissions'[k].job == i;
      } else {
        var k :| k in replays && replays[k] == i;
        assert k in replays' && replays'[k] == i;
      }
    }
  }

  lemma ResultsUntouched(jobs: map<Id, Job>, attempts: map<Id, Attempt>, results: map<Id, Result>,
                         j: Id, job: Job, a: Id, attempt: Attempt)
    requires Results(jobs, attempts, results)
    requires j in jobs ==> !jobs[j].status.StatusSucceeded?
    requires a in attempts ==> !attempts[a].status.AttemptSucceeded?
    ensures Results(jobs[j := job], attempts[a := attempt], results)
  {
  }

  lemma ResultsOfJob(jobs: map<Id, Job>, attempts: map<Id, Attempt>, results: map<Id, Result>, j: Id, job: Job)
    requires Results(jobs, attempts, results)
    requires j in jobs ==> !jobs[j].status.StatusSucceeded?
    ensures Results(jobs[j := job], attempts, results)
  {
  }

  lemma ResultsGranted(jobs: map<Id, Job>, attempts: map<Id, Attempt>, results: map<Id, Result>,
                       j: Id, job: Job, a: Id, attempt: Attempt)
    requires Results(jobs, attempts, results)
    requires j in jobs && !jobs[j].status.StatusSucceeded? && a !in attempts
    ensures Results(jobs[j := job], attempts[a := attempt], results)
  {
  }

  lemma ResultAdded(jobs: map<Id, Job>, attempts: map<Id, Attempt>, results: map<Id, Result>, j: Id, r: Result)
    requires Results(jobs, attempts, results)
    requires j in jobs && jobs[j].status.StatusSucceeded? && r.scope == jobs[j].scope
    requires SucceededAttempt(attempts, r.attempt, j)
    ensures Results(jobs, attempts, results[j := r])
  {
  }
}
