/**
 How often a job is advertised. A new event opens a new generation, except for a
 re-notification, so events of one generation are further apart than the interval
 that every scheduler replica is configured with.
 */
module Spacing {
  import opened Base
  import opened Schema
  import opened Transactions
  import opened Invariants
  import opened Footprints
  import opened Steps
  import opened History

  predicate SameGeneration(events: map<Id, Event>, e: Id, f: Id) {
    && e in events && f in events && e != f
    && events[e].job == events[f].job && events[e].generation == events[f].generation
  }

  /** Events of one generation are created more than the interval apart, the last one no later than recorded. */
  ghost predicate Spaced(jobs: map<Id, Job>, events: map<Id, Event>, interval: nat) {
    && (forall e, f :: SameGeneration(events, e, f) ==>
          || events[e].createdAt + interval < events[f].createdAt
          || events[f].createdAt + interval < events[e].createdAt)
    && (forall e :: e in events && events[e].job in jobs && events[e].generation == jobs[events[e].job].generation ==>
          && jobs[events[e].job].lastNotificationAt.Some?
          && events[e].createdAt <= jobs[events[e].job].lastNotificationAt.value)
  }

  // ------------------------------------------------------- kinds of steps

  ghost predicate SameNotices(m: map<Id, Job>, n: map<Id, Job>) {
    forall j :: j in m ==> j in n && n[j].generation == m[j].generation && n[j].lastNotificationAt == m[j].lastNotificationAt
  }

  /** No event is touched and no job's notification columns move. */
  ghost predicate Quiet(s: State, t: State) {
    SameNotices(s.jobs, t.jobs) && t.events == s.events
  }

  /** One new event advertises one job at the current time. */
  predicate Advertises(s: State, t: State, j: Id, e: Id) {
    && e !in s.events && j in t.jobs && t.jobs == s.jobs[j := t.jobs[j]]
    && t.events == s.events[e := NewEvent(j, t.jobs[j].spec.queue, t.jobs[j].generation, s.now)]
    && t.jobs[j].lastNotificationAt == Some(s.now)
  }

  function GenerationOf(s: State, j: Id): nat {
    if j in s.jobs then s.jobs[j].generation else 0
  }

  ghost predicate OpensGeneration(s: State, t: State) {
    exists j, e :: Advertises(s, t, j, e) && t.jobs[j].generation == GenerationOf(s, j) + 1
  }

  ghost predicate Noticed(s: State, t: State) {
    Quiet(s, t) || OpensGeneration(s, t)
  }

  lemma QuietItself(s: State)
    ensures Noticed(s, s)
  {
  }

  lemma QuietCommit(s: State, f: Fence, job: Job, attempt: Attempt, lease: Lease, dlq: map<Id, DlqEntry>, results: map<Id, Result>)
    requires f.job in s.jobs && job.generation == s.jobs[f.job].generation
    requires job.lastNotificationAt == s.jobs[f.job].lastNotificationAt
    ensures Noticed(s, Commit(s, f, job, attempt, lease, s.events, dlq, results))
  {
  }

  lemma FinalizeNotices(s: State, f: Fence, o: AttemptOutcome, d: Decision, ids: NewIds)
    requires f.job in s.jobs && f.attempt in s.attempts && f.lease in s.leases
    ensures Noticed(s, FinalizeAttempt(s, f, o, d, ids).0)
  {
    QuietItself(s);
    var r := FinalizeAttempt(s, f, o, d, ids);
    if r.1.Ok? {
      if d == Retry(0) {
        assert Advertises(s, r.0, f.job, ids.event);
      } else {
        var dlq := if d.DeadLetter?
        then s.dlq[ids.dlq := DlqEntry(s.jobs[f.job].scope, s.jobs[f.job].spec.queue, f.job, f.attempt, d.reason, s.now)] else s.dlq;
        QuietCommit(s, f, FinalJob(s.jobs[f.job], d, s.now), Finished(s.attempts[f.attempt], o, d, s.now),
                    Closed(s.leases[f.lease], o.leaseStatus, s.now), dlq, s.results);
      }
    }
  }

  lemma CancellationNotices(s: State, f: Fence, outcomeId: Option<Id>, leaseStatus: LeaseStatus)
    requires f.job in s.jobs && f.attempt in s.attempts && f.lease in s.leases
    ensures Noticed(s, FinalizeCancellation(s, f, outcomeId, leaseStatus).0)
  {
    QuietCommit(s, f, s.jobs[f.job].(status := StatusCanceled, updatedAt := s.now),
                CanceledAttempt(s.attempts[f.attempt], outcomeId, s.now), Closed(s.leases[f.lease], leaseStatus, s.now),
                s.dlq, s.results);
  }

  lemma StartNotices(s: State, scope: Name, f: Fence)
    ensures Noticed(s, Start(s, scope, f).0)
  {
    QuietItself(s);
    var r := Start(s, scope, f);
    if r.1.Ok? && !r.1.value.replayed {
      assert r.0.jobs == s.jobs[f.job := s.jobs[f.job].(status := StatusRunning, updatedAt := s.now)];
      assert Quiet(s, r.0);
    }
  }

  lemma RenewNotices(s: State, scope: Name, f: Fence, renewalId: Id, expected: int)
    ensures Noticed(s, RenewLease(s, scope, f, renewalId, expected).0)
  {
    QuietItself(s);
    var r := RenewLease(s, scope, f, renewalId, expected);
    if r.1.Ok? && !r.1.value.replayed {
      assert Quiet(s, r.0);
    }
  }

  lemma SucceedNotices(s: State, scope: Name, f: Fence, body: Option<Document>)
    ensures Noticed(s, Succeed(s, scope, f, body).0)
  {
    QuietItself(s);
    if Fenced(s, scope, f) {
      QuietCommit(s, f, s.jobs[f.job].(status := StatusSucceeded, updatedAt := s.now),
                  s.attempts[f.attempt].(status := AttemptSucceeded, finishedAt := Some(s.now)),
                  Closed(s.leases[f.lease], LeaseCompleted, s.now), s.dlq,
                  if body.Some? then s.results[f.job := Result(f.attempt, scope, body.value)] else s.results);
    }
  }

  lemma FailNotices(s: State, scope: Name, r: FailureReport, delayMillis: nat, ids: NewIds)
    ensures Noticed(s, Fail(s, scope, r, delayMillis, ids).0)
  {
    QuietItself(s);
    if Fenced(s, scope, r.fence) {
      var d := Decide(r.failureClass, s.attempts[r.fence.attempt].number, s.jobs[r.fence.job].spec.maxAttempts, delayMillis);
      if d.Some? {
        FinalizeNotices(s, r.fence, ReportedOutcome(r), d.value, ids);
      }
    }
  }

  lemma AcknowledgeNotices(s: State, scope: Name, f: Fence, outcomeId: Id)
    ensures Noticed(s, AcknowledgeCancellation(s, scope, f, outcomeId).0)
  {
    QuietItself(s);
    if Fenced(s, scope, f) {
      CancellationNotices(s, f, Some(outcomeId), LeaseReleased);
    }
  }

  lemma DueTimeoutNotices(s: State, attempt: Id, delayMillis: nat, ids: NewIds)
    ensures Noticed(s, ReconcileDueTimeout(s, attempt, delayMillis, ids).0)
  {
    QuietItself(s);
    if HasLease(s.leases, attempt) {
      var f := FenceOf(s.leases, LeaseOf(s.leases, attempt));
      if f.job in s.jobs && f.attempt in s.attempts {
        FinalizeNotices(s, f, TimeoutOutcome(s.leases[f.lease], s.now),
                        Decide(ClassTimedOut, s.attempts[f.attempt].number, s.jobs[f.job].spec.maxAttempts, delayMillis).value, ids);
      }
    }
  }

  lemma ExpiredLeaseNotices(s: State, l: Id, delayMillis: nat, ids: NewIds)
    ensures Noticed(s, ReconcileExpiredLease(s, l, delayMillis, ids).0)
  {
    QuietItself(s);
    if l in s.leases {
      var f := FenceOf(s.leases, l);
      if f.job in s.jobs && f.attempt in s.attempts {
        var n, max := s.attempts[f.attempt].number, s.jobs[f.job].spec.maxAttempts;
        if s.jobs[f.job].status.StatusCancelRequested? {
          CancellationNotices(s, f, None, LeaseExpired);
        } else if TimedOutBeforeLapse(s.attempts[f.attempt], s.leases[l], s.now) {
          FinalizeNotices(s, f, TimeoutOutcome(s.leases[l], s.now), Decide(ClassTimedOut, n, max, delayMillis).value, ids);
        } else {
          FinalizeNotices(s, f, ABANDONED, Decide(ClassAbandoned, n, max, delayMillis).value, ids);
        }
      }
    }
  }

  lemma ClaimNotices(s: State, scope: Name, req: ClaimRequest, locked: set<Id>, attempt: Id, lease: Id)
    ensures Noticed(s, Claim(s, scope, req, locked, attempt, lease).0)
  {
    QuietItself(s);
    ClaimFrame(s, scope, req, locked, attempt, lease);
    var t := Claim(s, scope, req, locked, attempt, lease).0;
    if t != s {
      assert Quiet(s, t);
    }
  }

  lemma CancelNotices(s: State, scope: Name, j: Id)
    ensures Noticed(s, RequestCancel(s, scope, j).0)
  {
    QuietItself(s);
    if j in s.jobs {
      assert Quiet(s, s.(jobs := s.jobs[j := CancelRequested(s.jobs[j], s.now)]));
    }
  }

  lemma SubmitNotices(s: State, scope: Name, key: Name, req: SubmitRequest, j: Id, event: Id)
    ensures Noticed(s, Submit(s, scope, key, req, j, event).0)
  {
    QuietItself(s);
    var r := Submit(s, scope, key, req, j, event);
    if r.1.Ok? && !r.1.value.replayed {
      if r.1.value.row.status.StatusQueued? {
        assert Advertises(s, r.0, j, event);
      } else {
        assert Quiet(s, r.0);
      }
    }
  }

  lemma ReplayNotices(s: State, scope: Name, original: Id, key: Name, j: Id, event: Id)
    ensures Noticed(s, Replay(s, scope, original, key, j, event).0)
  {
    QuietItself(s);
    var r := Replay(s, scope, original, key, j, event);
    if r.1.Ok? && !r.1.value.replayed {
      assert Advertises(s, r.0, j, event);
    }
  }

  lemma PromoteNotices(s: State, j: Id, event: Id)
    ensures Noticed(s, PromoteDueJob(s, j, event).0)
  {
    QuietItself(s);
    var r := PromoteDueJob(s, j, event);
    if r.1 == Ok(true) {
      assert Advertises(s, r.0, j, event);
    }
  }

  lemma SessionNotices(s: State, step: Step)
    requires step.RegisterStep? || step.HeartbeatStep? || step.MarkStaleStep? || step.TickStep?
    ensures Noticed(s, Apply(s, step))
  {
    QuietItself(s);
    JobFrame(s, step);
    assert Apply(s, step).events == s.events;
  }

  predicate PublisherStep(step: Step) {
    step.ClaimEventsStep? || step.MarkPublishedStep? || step.RecordFailureStep?
  }

  lemma WorkerStepNotices(s: State, step: Step)
    requires WorkerSide(step)
    ensures Noticed(s, Apply(s, step))
  {
    match step
    case StartStep(scope, f) => StartNotices(s, scope, f);
    case RenewStep(scope, f, renewalId, expected) => RenewNotices(s, scope, f, renewalId, expected);
    case SucceedStep(scope, f, body) => SucceedNotices(s, scope, f, body);
    case FailStep(scope, r, delayMillis, ids) => FailNotices(s, scope, r, delayMillis, ids);
    case AcknowledgeStep(scope, f, outcomeId) => AcknowledgeNotices(s, scope, f, outcomeId);
    case DueTimeoutStep(attempt, delayMillis, ids) => DueTimeoutNotices(s, attempt, delayMillis, ids);
    case ExpiredLeaseStep(l, delayMillis, ids) => ExpiredLeaseNotices(s, l, delayMillis, ids);
    case ClaimStep(scope, req, locked, attempt, lease) => ClaimNotices(s, scope, req, locked, attempt, lease);
    case _ => SessionNotices(s, step);
  }

  /** Outside the publisher, every step but a re-notification adds an event only with a new generation. */
  lemma StepNotices(s: State, step: Step)
    requires !step.RenotifyStep? && !PublisherStep(step)
    ensures Noticed(s, Apply(s, step))
  {
    if WorkerSide(step) {
      WorkerStepNotices(s, step);
    } else {
      match step
      case CancelStep(scope, j) => CancelNotices(s, scope, j);
      case SubmitStep(scope, key, req, j, event) => SubmitNotices(s, scope, key, req, j, event);
      case ReplayStep(scope, original, key, j, event) => ReplayNotices(s, scope, original, key, j, event);
      case PromoteStep(j, event) => PromoteNotices(s, j, event);
      case TickStep(_) => SessionNotices(s, step);
    }
  }

  // ------------------------------------------------------------------ spacing

  lemma QuietSpaced(s: State, t: State, interval: nat)
    requires Notifications(s.jobs, s.events) && Spaced(s.jobs, s.events, interval)
    requires SameNotices(s.jobs, t.jobs) && t.events.Keys == s.events.Keys && EventsGrow(s.events, t.events)
    ensures Spaced(t.jobs, t.events, interval)
  {
    forall e, f | SameGeneration(t.events, e, f)
      ensures t.events[e].createdAt + interval < t.events[f].createdAt || t.events[f].createdAt + interval < t.events[e].createdAt
    {
      assert SameGeneration(s.events, e, f);
    }
  }

  /** A new event is spaced: it opens a generation, or it comes later than the interval after the last notice. */
  lemma AdvertiseSpaced(s: State, t: State, j: Id, e: Id, interval: nat)
    requires Notifications(s.jobs, s.events) && Spaced(s.jobs, s.events, interval) && Advertises(s, t, j, e)
    requires || t.jobs[j].generation == GenerationOf(s, j) + 1
             || (&& j in s.jobs && t.jobs[j].generation == s.jobs[j].generation && s.jobs[j].lastNotificationAt.Some?
                 && s.jobs[j].lastNotificationAt.value < s.now - interval)
    ensures Spaced(t.jobs, t.events, interval)
  {
    forall x, y | SameGeneration(t.events, x, y)
      ensures t.events[x].createdAt + interval < t.events[y].createdAt || t.events[y].createdAt + interval < t.events[x].createdAt
    {
      assert x == e || y == e || SameGeneration(s.events, x, y);
    }
  }

  lemma RenotifySpaced(s: State, j: Id, after: int, event: Id, interval: nat)
    requires Notifications(s.jobs, s.events) && Spaced(s.jobs, s.events, interval) && interval <= after
    ensures var t := RenotifyStrandedJob(s, j, after, event).0; Spaced(t.jobs, t.events, interval)
  {
    var r := RenotifyStrandedJob(s, j, after, event);
    if r.1 == Ok(true) {
      assert Advertises(s, r.0, j, event);
      AdvertiseSpaced(s, r.0, j, event, interval);
    }
  }

  lemma PublisherKeepsRows(s: State, step: Step)
    requires PublisherStep(step)
    ensures SameNotices(s.jobs, Apply(s, step).jobs)
    ensures Apply(s, step).events.Keys == s.events.Keys && EventsGrow(s.events, Apply(s, step).events)
  {
    var t := Apply(s, step);
    OutboxExtends(s, step);
    assert EventsGrow(s.events, t.events) by { assert Grows(OutboxEvents, s, t); }
    JobFrame(s, step);
  }

  lemma PublisherSpaced(s: State, step: Step, interval: nat)
    requires Notifications(s.jobs, s.events) && Spaced(s.jobs, s.events, interval) && PublisherStep(step)
    ensures Spaced(Apply(s, step).jobs, Apply(s, step).events, interval)
  {
    PublisherKeepsRows(s, step);
    QuietSpaced(s, Apply(s, step), interval);
  }

  lemma NoticedSpaced(s: State, t: State, interval: nat)
    requires Notifications(s.jobs, s.events) && Spaced(s.jobs, s.events, interval) && Noticed(s, t)
    ensures Spaced(t.jobs, t.events, interval)
  {
    if Quiet(s, t) {
      QuietSpaced(s, t, interval);
    } else {
      var j, e :| Advertises(s, t, j, e) && t.jobs[j].generation == GenerationOf(s, j) + 1;
      AdvertiseSpaced(s, t, j, e, interval);
    }
  }

  lemma RenotifyStepSpaced(s: State, step: Step, interval: nat)
    requires Notifications(s.jobs, s.events) && Spaced(s.jobs, s.events, interval)
    requires step.RenotifyStep? && interval <= step.after
    ensures Spaced(Apply(s, step).jobs, Apply(s, step).events, interval)
  {
    RenotifySpaced(s, step.job, step.after, step.newEvent, interval);
  }

  lemma OtherStepSpaced(s: State, step: Step, interval: nat)
    requires Notifications(s.jobs, s.events) && Spaced(s.jobs, s.events, interval)
    requires !step.RenotifyStep? && !PublisherStep(step)
    ensures Spaced(Apply(s, step).jobs, Apply(s, step).events, interval)
  {
    var t := Apply(s, step);
    assert Noticed(s, t) by { StepNotices(s, step); }
    NoticedSpaced(s, t, interval);
  }

  lemma AnyStepSpaced(s: State, step: Step, interval: nat)
    requires Notifications(s.jobs, s.events) && Spaced(s.jobs, s.events, interval)
    requires step.RenotifyStep? ==> interval <= step.after
    ensures Spaced(Apply(s, step).jobs, Apply(s, step).events, interval)
  {
    if step.RenotifyStep? {
      RenotifyStepSpaced(s, step, interval);
    } else if PublisherStep(step) {
      PublisherSpaced(s, step, interval);
    } else {
      OtherStepSpaced(s, step, interval);
    }
  }

  lemma StepSpaced(s: State, step: Step, interval: nat)
    requires Valid(s) && Spaced(s.jobs, s.events, interval)
    requires step.RenotifyStep? ==> interval <= step.after
    ensures Spaced(Apply(s, step).jobs, Apply(s, step).events, interval)
  {
    assert Notifications(s.jobs, s.events) by { assert Holds(NotificationLaw, s); }
    AnyStepSpaced(s, step, interval);
  }

  /** Over any run in which every replica re-notifies no sooner than the interval, no generation is advertised faster. */
  lemma {:induction false} RunSpaced(s: State, steps: seq<Step>, interval: nat)
    requires Valid(s) && Spaced(s.jobs, s.events, interval)
    requires forall i :: 0 <= i < |steps| && steps[i].RenotifyStep? ==> interval <= steps[i].after
    ensures Spaced(Run(s, steps).jobs, Run(s, steps).events, interval)
    decreases |steps|
  {
    if steps != [] {
      StepSpaced(s, steps[0], interval);
      StepValid(s, steps[0]);
      RunSpaced(Apply(s, steps[0]), steps[1..], interval);
    }
  }
}
