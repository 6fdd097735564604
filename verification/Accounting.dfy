/** What the laws say about single jobs, queues, workers and sessions of any reachable state. */
module Accounting {
  import opened Base
  import opened Schema
  import opened Transactions
  import opened Invariants
  import opened Effects
  import opened Endings
  import opened Progress

  // ---------------------------------------------------------------- authority

  predicate ActiveLeaseOf(s: State, l: Id, j: Id) {
    l in s.leases && s.leases[l].status.LeaseActive? && s.leases[l].binding.job == j
  }

  lemma ActiveLeaseExecutes(s: State, l: Id, j: Id)
    requires Valid(s) && ActiveLeaseOf(s, l, j)
    ensures Executes(s, FenceOf(s.leases, l)) && FenceOf(s.leases, l).job == j
  {
    assert Holds(BindingLaw, s) && Holds(AuthorityLaw, s);
  }

  /** A job has an ACTIVE lease exactly while it is LEASED, RUNNING or CANCEL_REQUESTED. */
  lemma HeldIffActiveLease(s: State, j: Id)
    requires Valid(s) && j in s.jobs
    ensures s.jobs[j].status.Held() <==> exists l :: ActiveLeaseOf(s, l, j)
  {
    if s.jobs[j].status.Held() {
      var f := HeldJobHasFence(s, j);
      assert ActiveLeaseOf(s, f.lease, j);
    }
    forall l | ActiveLeaseOf(s, l, j) ensures s.jobs[j].status.Held() {
      ActiveLeaseExecutes(s, l, j);
      ExecutingStatuses(s, FenceOf(s.leases, l));
    }
  }

  /** That lease is unique and bound to the only executing attempt, whose status matches the job's. */
  lemma ActiveLeaseIsUnique(s: State, l: Id, m: Id, j: Id)
    requires Valid(s) && ActiveLeaseOf(s, l, j) && ActiveLeaseOf(s, m, j)
    ensures l == m
    ensures s.leases[l].attempt in s.attempts && j in s.jobs
    ensures StatusesAgree(s.jobs[j].status, s.attempts[s.leases[l].attempt].status)
    ensures forall a :: ExecutingAttempt(s.attempts, a, j) ==> a == s.leases[l].attempt
  {
    ActiveLeaseExecutes(s, l, j);
    ActiveLeaseExecutes(s, m, j);
    ExecutingAlone(s, FenceOf(s.leases, l));
    ExecutingStatuses(s, FenceOf(s.leases, l));
    assert ExecutingAttempt(s.attempts, s.leases[m].attempt, j);
  }

  // ----------------------------------------------------------------- attempts

  ghost function NumbersOf(attempts: map<Id, Attempt>, mine: set<Id>): set<int> {
    set a | a in mine && a in attempts :: attempts[a].number
  }

  lemma {:induction false} DistinctNumbers(attempts: map<Id, Attempt>, mine: set<Id>, j: Id)
    requires mine <= AttemptsOf(attempts, j)
    requires forall a, b :: SameNumber(attempts, a, b) ==> a == b
    ensures |NumbersOf(attempts, mine)| == |mine|
  {
    if mine != {} {
      var a :| a in mine;
      DistinctNumbers(attempts, mine - {a}, j);
      assert NumbersOf(attempts, mine) == NumbersOf(attempts, mine - {a}) + {attempts[a].number};
      forall b | b in mine - {a} ensures attempts[b].number != attempts[a].number {
        assert !SameNumber(attempts, a, b);
      }
    }
  }

  lemma NumbersAreAll(attempts: map<Id, Attempt>, j: Id)
    requires Numbers(attempts)
    ensures NumbersOf(attempts, AttemptsOf(attempts, j)) == UpTo(Used(attempts, j))
  {
    DistinctNumbers(attempts, AttemptsOf(attempts, j), j);
    FullSubset(NumbersOf(attempts, AttemptsOf(attempts, j)), Used(attempts, j));
  }

  /** A job's attempt numbers are exactly 1..n with n within budget, and an executing attempt is number n. */
  lemma AttemptNumbersAreConsecutive(s: State, j: Id)
    requires Valid(s) && j in s.jobs
    ensures NumbersOf(s.attempts, AttemptsOf(s.attempts, j)) == UpTo(Used(s.attempts, j))
    ensures Used(s.attempts, j) <= s.jobs[j].spec.maxAttempts
    ensures s.jobs[j].status.Waiting() ==> Used(s.attempts, j) < s.jobs[j].spec.maxAttempts
    ensures forall a :: ExecutingAttempt(s.attempts, a, j) ==> s.attempts[a].number == Used(s.attempts, j)
  {
    assert Holds(NumberLaw, s);
    NumbersAreAll(s.attempts, j);
    assert Holds(BudgetLaw, s);
  }

  predicate EntryOf(s: State, d: Id, j: Id) {
    d in s.dlq && s.dlq[d].job == j
  }

  /** A job is DEAD_LETTERED exactly when it has a dead-letter entry. */
  lemma DeadLetteredIffEntry(s: State, j: Id)
    requires Valid(s) && j in s.jobs
    ensures s.jobs[j].status.StatusDeadLettered? <==> exists d :: EntryOf(s, d, j)
  {
    assert Holds(DeadLetterLaw, s);
    if s.jobs[j].status.StatusDeadLettered? {
      assert HasEntry(s.dlq, j);
      var d :| d in s.dlq && s.dlq[d].job == j;
      assert EntryOf(s, d, j);
    }
  }

  /** The entry is unique, names the job's last attempt, and states the reason that attempt's outcome gives. */
  lemma EntryNamesLastAttempt(s: State, d: Id, e: Id, j: Id)
    requires Valid(s) && EntryOf(s, d, j) && EntryOf(s, e, j)
    ensures d == e
    ensures j in s.jobs && s.dlq[d].attempt in s.attempts
    ensures s.attempts[s.dlq[d].attempt].binding.job == j
    ensures s.attempts[s.dlq[d].attempt].number == Used(s.attempts, j)
    ensures s.dlq[d].reason.ReasonPermanentFailure? <==> s.attempts[s.dlq[d].attempt].failureClass == Some(ClassPermanent)
    ensures s.dlq[d].reason.ReasonAttemptsExhausted? ==> Used(s.attempts, j) == s.jobs[j].spec.maxAttempts
  {
    assert Holds(DeadLetterLaw, s);
    assert SameDeadJob(s.dlq, d, e);
    assert s.attempts[s.dlq[d].attempt].number == Used(s.attempts, j) by { assert Holds(SettledLaw, s); }
  }

  // ----------------------------------------------------------------- capacity

  /** A queue never runs more leases than its limit, nor a worker more than some session of it registered. */
  lemma CapacityHolds(s: State, q: Name, w: Id)
    requires Valid(s) && q in s.queues
    ensures |ActiveInQueue(s.leases, q)| <= s.queues[q].maxConcurrency
    ensures |ActiveOfWorker(s.leases, w)| == 0
            || exists i :: i in s.sessions && s.sessions[i].worker == w
                           && |ActiveOfWorker(s.leases, w)| <= s.sessions[i].reg.concurrencyLimit
  {
    assert Holds(CapacityLaw, s);
    assert WithinLimit(s.sessions, s.leases, w);
  }

  lemma OneCurrentSession(s: State, i: Id, k: Id)
    requires Valid(s) && i in s.sessions && k in s.sessions && s.sessions[i].worker == s.sessions[k].worker
    requires s.sessions[i].status.Current() && s.sessions[k].status.Current()
    ensures i == k
  {
    assert Holds(SessionLaw, s);
    assert BothCurrent(s.sessions, i, k);
  }

  lemma WorkerHoldsAtMost256(s: State, w: Id)
    requires Valid(s)
    ensures |ActiveOfWorker(s.leases, w)| <= 256
  {
    assert Holds(SessionRowLaw, s);
    assert WithinLimit(s.sessions, s.leases, w) by { assert Holds(CapacityLaw, s); }
  }

  lemma {:induction false} DirectivesOf(s: State, session: Id, held: set<Id>)
    requires forall l :: l in s.leases && s.leases[l].status.LeaseActive? && s.leases[l].binding.session == session ==> l in held
    ensures |Directives(s, session)| <= |held|
  {
    var directive := (l: Id) =>
      if l in s.leases then Directive(s.leases[l].binding.job, s.leases[l].attempt, l) else Directive(NIL, NIL, l);
    ImageSize(held, directive);
    SubsetSize(Directives(s, session), Image(held, directive));
  }

  /** The heartbeat's limit of 256 directives never cuts off a cancellation. */
  lemma DirectivesFitTheLimit(s: State, session: Id)
    requires Valid(s) && session in s.sessions
    ensures |Directives(s, session)| <= 256
  {
    var held := ActiveOfWorker(s.leases, s.sessions[session].worker);
    WorkerHoldsAtMost256(s, s.sessions[session].worker);
    assert Holds(BindingLaw, s);
    DirectivesOf(s, session, held);
  }

  // ------------------------------------------------------------ notifications

  /** Every generation has an event, none has two pending, and a claimable job was advertised. */
  lemma GenerationsAreAdvertised(s: State, j: Id)
    requires Valid(s) && j in s.jobs
    ensures forall g: nat :: 1 <= g <= s.jobs[j].generation ==> Notified(s.events, j, g)
    ensures forall e, f, g :: PendingEvent(s.events, e, j, g) && PendingEvent(s.events, f, j, g) ==> e == f
    ensures s.jobs[j].status.StatusQueued? ==> 1 <= s.jobs[j].generation && s.jobs[j].lastNotificationAt.Some?
  {
    assert Holds(NotificationLaw, s) && Holds(JobRowLaw, s);
    forall e, f, g | PendingEvent(s.events, e, j, g) && PendingEvent(s.events, f, j, g) ensures e == f {
      assert BothPending(s.events, e, f);
    }
  }
}
