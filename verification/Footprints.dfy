/** Which rows a transaction may write: those its fence names, and only while the attempt executes. */
module Footprints {
  import opened Base
  import opened Schema
  import opened Transactions
  import opened Steps

  ghost predicate OnlyRows(s: State, t: State, g: Fence) {
    && t.jobs.Keys == s.jobs.Keys && t.attempts.Keys == s.attempts.Keys && t.leases.Keys == s.leases.Keys
    && (forall j :: j in s.jobs && j != g.job ==> j in t.jobs && t.jobs[j] == s.jobs[j])
    && (forall a :: a in s.attempts && a != g.attempt ==> a in t.attempts && t.attempts[a] == s.attempts[a])
    && (forall l :: l in s.leases && l != g.lease ==> l in t.leases && t.leases[l] == s.leases[l])
  }

  /** The transaction did nothing, or it wrote only under a fence whose attempt was executing. */
  ghost predicate Footprint(s: State, t: State, scope: Name, g: Fence) {
    t == s || (Fenced(s, scope, g) && s.attempts[g.attempt].status.Executing() && OnlyRows(s, t, g))
  }

  lemma FinalizeFootprint(s: State, g: Fence, o: AttemptOutcome, d: Decision, ids: NewIds)
    requires g.job in s.jobs && g.attempt in s.attempts && g.lease in s.leases
    ensures OnlyRows(s, FinalizeAttempt(s, g, o, d, ids).0, g)
  {
  }

  lemma CancellationFootprint(s: State, g: Fence, outcomeId: Option<Id>, leaseStatus: LeaseStatus)
    requires g.job in s.jobs && g.attempt in s.attempts && g.lease in s.leases
    ensures OnlyRows(s, FinalizeCancellation(s, g, outcomeId, leaseStatus).0, g)
  {
  }

  lemma StartFootprint(s: State, scope: Name, g: Fence)
    ensures Footprint(s, Start(s, scope, g).0, scope, g)
  {
  }

  lemma RenewFootprint(s: State, scope: Name, g: Fence, renewalId: Id, expected: int)
    ensures Footprint(s, RenewLease(s, scope, g, renewalId, expected).0, scope, g)
  {
  }

  lemma SucceedFootprint(s: State, scope: Name, g: Fence, body: Option<Document>)
    ensures Footprint(s, Succeed(s, scope, g, body).0, scope, g)
  {
  }

  lemma FailFootprint(s: State, scope: Name, r: FailureReport, delayMillis: nat, ids: NewIds)
    ensures Footprint(s, Fail(s, scope, r, delayMillis, ids).0, scope, r.fence)
  {
    var g := r.fence;
    if Fenced(s, scope, g) {
      var d := Decide(r.failureClass, s.attempts[g.attempt].number, s.jobs[g.job].spec.maxAttempts, delayMillis);
      if d.Some? {
        FinalizeFootprint(s, g, ReportedOutcome(r), d.value, ids);
      }
    }
  }

  lemma AcknowledgeFootprint(s: State, scope: Name, g: Fence, outcomeId: Id)
    ensures Footprint(s, AcknowledgeCancellation(s, scope, g, outcomeId).0, scope, g)
  {
    if Fenced(s, scope, g) {
      CancellationFootprint(s, g, Some(outcomeId), LeaseReleased);
    }
  }

  lemma DueTimeoutFootprint(s: State, attempt: Id, delayMillis: nat, ids: NewIds)
    ensures var t := ReconcileDueTimeout(s, attempt, delayMillis, ids).0;
            t == s
            || (HasLease(s.leases, attempt)
                && var l := LeaseOf(s.leases, attempt); Footprint(s, t, s.leases[l].binding.scope, FenceOf(s.leases, l)))
  {
    if HasLease(s.leases, attempt) {
      var l := LeaseOf(s.leases, attempt);
      var g := FenceOf(s.leases, l);
      if Fenced(s, s.leases[l].binding.scope, g) {
        FinalizeFootprint(s, g, TimeoutOutcome(s.leases[l], s.now),
                          Decide(ClassTimedOut, s.attempts[g.attempt].number, s.jobs[g.job].spec.maxAttempts, delayMillis).value, ids);
      }
    }
  }

  lemma ExpiredLeaseFootprint(s: State, l: Id, delayMillis: nat, ids: NewIds)
    ensures var t := ReconcileExpiredLease(s, l, delayMillis, ids).0;
            t == s || (l in s.leases && Footprint(s, t, s.leases[l].binding.scope, FenceOf(s.leases, l)))
  {
    if l in s.leases {
      var g := FenceOf(s.leases, l);
      if Fenced(s, s.leases[l].binding.scope, g) {
        var n, max := s.attempts[g.attempt].number, s.jobs[g.job].spec.maxAttempts;
        if s.jobs[g.job].status.StatusCancelRequested? {
          CancellationFootprint(s, g, None, LeaseExpired);
        } else if TimedOutBeforeLapse(s.attempts[g.attempt], s.leases[l], s.now) {
          FinalizeFootprint(s, g, TimeoutOutcome(s.leases[l], s.now), Decide(ClassTimedOut, n, max, delayMillis).value, ids);
        } else {
          FinalizeFootprint(s, g, ABANDONED, Decide(ClassAbandoned, n, max, delayMillis).value, ids);
        }
      }
    }
  }

  /** No attempt and no lease differs. */
  predicate SameAuthorityRows(s: State, t: State) {
    t.attempts == s.attempts && t.leases == s.leases
  }

  lemma SubmitFrame(s: State, scope: Name, key: Name, req: SubmitRequest, j: Id, event: Id)
    ensures SameAuthorityRows(s, Submit(s, scope, key, req, j, event).0)
  {
  }

  lemma ReplayFrame(s: State, scope: Name, original: Id, key: Name, j: Id, event: Id)
    ensures SameAuthorityRows(s, Replay(s, scope, original, key, j, event).0)
  {
  }

  lemma RequestFrame(s: State, scope: Name, j: Id)
    ensures SameAuthorityRows(s, RequestCancel(s, scope, j).0)
  {
  }

  lemma PromotionFrame(s: State, j: Id, event: Id)
    ensures SameAuthorityRows(s, PromoteDueJob(s, j, event).0)
  {
  }

  lemma RenotificationFrame(s: State, j: Id, after: int, event: Id)
    ensures SameAuthorityRows(s, RenotifyStrandedJob(s, j, after, event).0)
  {
  }

  lemma SessionFrame(s: State, step: Step)
    requires step.RegisterStep? || step.HeartbeatStep? || step.MarkStaleStep?
    ensures SameAuthorityRows(s, Apply(s, step))
  {
  }

  lemma OutboxFrame(s: State, step: Step)
    requires step.ClaimEventsStep? || step.MarkPublishedStep? || step.RecordFailureStep? || step.TickStep?
    ensures SameAuthorityRows(s, Apply(s, step))
  {
  }

  /** No attempt or lease is touched by clients, the scheduler, the session registry, the outbox or the clock. */
  lemma AuthorityFrame(s: State, step: Step)
    requires step.RegisterStep? || step.HeartbeatStep? || step.MarkStaleStep? || step.CancelStep? || step.SubmitStep?
             || step.ReplayStep? || step.PromoteStep? || step.RenotifyStep? || step.ClaimEventsStep?
             || step.MarkPublishedStep? || step.RecordFailureStep? || step.TickStep?
    ensures Apply(s, step).attempts == s.attempts
    ensures Apply(s, step).leases == s.leases
  {
    var t := Apply(s, step);
    assert SameAuthorityRows(s, t) by {
      if step.SubmitStep? {
        SubmitFrame(s, step.scope, step.key, step.submission, step.newJob, step.newEvent);
      } else if step.ReplayStep? {
        ReplayFrame(s, step.scope, step.original, step.key, step.newJob, step.newEvent);
      } else if step.CancelStep? {
        RequestFrame(s, step.scope, step.job);
      } else if step.PromoteStep? {
        PromotionFrame(s, step.job, step.newEvent);
      } else if step.RenotifyStep? {
        RenotificationFrame(s, step.job, step.after, step.newEvent);
      } else if step.RegisterStep? || step.HeartbeatStep? || step.MarkStaleStep? {
        SessionFrame(s, step);
      } else {
        OutboxFrame(s, step);
      }
    }
  }

  lemma JobFrame(s: State, step: Step)
    requires step.RegisterStep? || step.HeartbeatStep? || step.MarkStaleStep? || step.ClaimEventsStep?
             || step.MarkPublishedStep? || step.RecordFailureStep? || step.TickStep?
    ensures Apply(s, step).jobs == s.jobs
  {
  }

  /** Every job but one is unchanged. */
  ghost predicate OnlyJob(jobs: map<Id, Job>, jobs': map<Id, Job>, j: Id) {
    forall k :: k in jobs && k != j ==> k in jobs' && jobs'[k] == jobs[k]
  }

  lemma CancelFrame(s: State, scope: Name, j: Id)
    ensures OnlyJob(s.jobs, RequestCancel(s, scope, j).0.jobs, j)
  {
    var r := RequestCancel(s, scope, j);
    if r.1.Ok? && !r.1.value.alreadyRequested {
      assert r.0.jobs == s.jobs[j := CancelRequested(s.jobs[j], s.now)];
    } else {
      assert r.0.jobs == s.jobs;
    }
  }

  lemma PromoteFrame(s: State, j: Id, event: Id)
    ensures OnlyJob(s.jobs, PromoteDueJob(s, j, event).0.jobs, j)
  {
  }

  lemma RenotifyFrame(s: State, j: Id, after: int, event: Id)
    ensures OnlyJob(s.jobs, RenotifyStrandedJob(s, j, after, event).0.jobs, j)
  {
  }

  lemma InsertFrame(s: State, step: Step)
    requires step.SubmitStep? || step.ReplayStep?
    ensures Submap(s.jobs, Apply(s, step).jobs)
  {
  }

  /** A claim grants one queued job or changes nothing. */
  lemma ClaimFrame(s: State, scope: Name, req: ClaimRequest, locked: set<Id>, attempt: Id, lease: Id)
    ensures var t := Claim(s, scope, req, locked, attempt, lease).0;
            || t == s
            || (&& attempt !in s.attempts && lease !in s.leases
                && exists j :: j in s.jobs && s.jobs[j].status.StatusQueued? && t == Grant(s, req, j, attempt, lease))
  {
    var r := Claim(s, scope, req, locked, attempt, lease);
    if r.1.Ok? && r.1.value.Claimed? && !r.1.value.replayed {
      var j := First(s.jobs, Candidates(s, scope, req.queue, s.sessions[req.session].reg, locked));
      assert j in s.jobs && s.jobs[j].status.StatusQueued? && r.0 == Grant(s, req, j, attempt, lease);
    }
  }
}
