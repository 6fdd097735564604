/**
 Lease renewal between one worker loop and the control plane. Requests are lost, delayed and
 executed any number of times; answers are lost; everything else in the system keeps running.
 The worker's clock runs at the rate of the database clock, with an arbitrary offset.
 */
module Renewal {
  import opened Base
  import opened Schema
  import opened Transactions
  import opened Invariants
  import opened Footprints
  import opened Steps
  import opened History

  // -------------------------------------------------- who changes a lease's window

  predicate SameWindow(a: Lease, b: Lease) {
    b.renewalVersion == a.renewalVersion && b.lastRenewalId == a.lastRenewalId && b.expiresAt == a.expiresAt
  }

  /** Known leases keep their windows and new ones have not been renewed. */
  ghost predicate SameWindows(m: map<Id, Lease>, n: map<Id, Lease>) {
    && (forall l :: l in m ==> l in n && SameWindow(m[l], n[l]))
    && (forall l :: l in n && l !in m ==> n[l].lastRenewalId.None?)
  }

  lemma WindowsItself(m: map<Id, Lease>)
    ensures SameWindows(m, m)
  {
  }

  lemma WindowsClosed(m: map<Id, Lease>, l: Id, status: LeaseStatus, now: Time)
    requires l in m
    ensures SameWindows(m, m[l := Closed(m[l], status, now)])
  {
  }

  lemma FinalizeWindows(s: State, f: Fence, o: AttemptOutcome, d: Decision, ids: NewIds)
    requires f.job in s.jobs && f.attempt in s.attempts && f.lease in s.leases
    ensures SameWindows(s.leases, FinalizeAttempt(s, f, o, d, ids).0.leases)
  {
    WindowsItself(s.leases);
    WindowsClosed(s.leases, f.lease, o.leaseStatus, s.now);
  }

  lemma StartWindows(s: State, scope: Name, f: Fence)
    ensures SameWindows(s.leases, Start(s, scope, f).0.leases)
  {
    WindowsItself(s.leases);
  }

  lemma SucceedWindows(s: State, scope: Name, f: Fence, body: Option<Document>)
    ensures SameWindows(s.leases, Succeed(s, scope, f, body).0.leases)
  {
    WindowsItself(s.leases);
    if f.lease in s.leases {
      WindowsClosed(s.leases, f.lease, LeaseCompleted, s.now);
    }
  }

  lemma CancellationWindows(s: State, f: Fence, outcomeId: Option<Id>, leaseStatus: LeaseStatus)
    requires f.job in s.jobs && f.attempt in s.attempts && f.lease in s.leases
    ensures SameWindows(s.leases, FinalizeCancellation(s, f, outcomeId, leaseStatus).0.leases)
  {
    WindowsClosed(s.leases, f.lease, leaseStatus, s.now);
  }

  lemma AcknowledgeWindows(s: State, scope: Name, f: Fence, outcomeId: Id)
    ensures SameWindows(s.leases, AcknowledgeCancellation(s, scope, f, outcomeId).0.leases)
  {
    WindowsItself(s.leases);
    if Fenced(s, scope, f) {
      CancellationWindows(s, f, Some(outcomeId), LeaseReleased);
    }
  }

  lemma FailWindows(s: State, scope: Name, r: FailureReport, delayMillis: nat, ids: NewIds)
    ensures SameWindows(s.leases, Fail(s, scope, r, delayMillis, ids).0.leases)
  {
    WindowsItself(s.leases);
    if Fenced(s, scope, r.fence) {
      var d := Decide(r.failureClass, s.attempts[r.fence.attempt].number, s.jobs[r.fence.job].spec.maxAttempts, delayMillis);
      if d.Some? {
        FinalizeWindows(s, r.fence, ReportedOutcome(r), d.value, ids);
      }
    }
  }

  lemma DueTimeoutWindows(s: State, attempt: Id, delayMillis: nat, ids: NewIds)
    ensures SameWindows(s.leases, ReconcileDueTimeout(s, attempt, delayMillis, ids).0.leases)
  {
    WindowsItself(s.leases);
    if HasLease(s.leases, attempt) {
      var f := FenceOf(s.leases, LeaseOf(s.leases, attempt));
      if f.job in s.jobs && f.attempt in s.attempts {
        FinalizeWindows(s, f, TimeoutOutcome(s.leases[f.lease], s.now),
                        Decide(ClassTimedOut, s.attempts[f.attempt].number, s.jobs[f.job].spec.maxAttempts, delayMillis).value, ids);
      }
    }
  }

  lemma LapseWindows(s: State, f: Fence, delayMillis: nat, ids: NewIds)
    requires f.job in s.jobs && f.attempt in s.attempts && f.lease in s.leases
    ensures SameWindows(s.leases, FinalizeCancellation(s, f, None, LeaseExpired).0.leases)
    ensures SameWindows(s.leases, FinalizeTimeout(s, f, delayMillis, ids).0.leases)
    ensures forall d :: SameWindows(s.leases, FinalizeAttempt(s, f, ABANDONED, d, ids).0.leases)
  {
    CancellationWindows(s, f, None, LeaseExpired);
    FinalizeWindows(s, f, TimeoutOutcome(s.leases[f.lease], s.now),
                    Decide(ClassTimedOut, s.attempts[f.attempt].number, s.jobs[f.job].spec.maxAttempts, delayMillis).value, ids);
    forall d ensures SameWindows(s.leases, FinalizeAttempt(s, f, ABANDONED, d, ids).0.leases) {
      FinalizeWindows(s, f, ABANDONED, d, ids);
    }
  }

  lemma ExpiredLeaseWindows(s: State, l: Id, delayMillis: nat, ids: NewIds)
    ensures SameWindows(s.leases, ReconcileExpiredLease(s, l, delayMillis, ids).0.leases)
  {
    WindowsItself(s.leases);
    if l in s.leases && Fenced(s, s.leases[l].binding.scope, FenceOf(s.leases, l)) {
      LapseWindows(s, FenceOf(s.leases, l), delayMillis, ids);
    }
  }

  lemma ClaimWindows(s: State, scope: Name, req: ClaimRequest, locked: set<Id>, attempt: Id, lease: Id)
    ensures SameWindows(s.leases, Claim(s, scope, req, locked, attempt, lease).0.leases)
  {
    WindowsItself(s.leases);
    ClaimFrame(s, scope, req, locked, attempt, lease);
  }

  /** No transaction but a renewal moves any lease's version, identity or expiry. */
  lemma OnlyRenewalMoves(s: State, step: Step)
    requires !step.RenewStep?
    ensures SameWindows(s.leases, Apply(s, step).leases)
  {
    match step
    case StartStep(scope, f) => StartWindows(s, scope, f);
    case SucceedStep(scope, f, body) => SucceedWindows(s, scope, f, body);
    case AcknowledgeStep(scope, f, outcomeId) => AcknowledgeWindows(s, scope, f, outcomeId);
    case FailStep(scope, r, delayMillis, ids) => FailWindows(s, scope, r, delayMillis, ids);
    case DueTimeoutStep(attempt, delayMillis, ids) => DueTimeoutWindows(s, attempt, delayMillis, ids);
    case ExpiredLeaseStep(l, delayMillis, ids) => ExpiredLeaseWindows(s, l, delayMillis, ids);
    case ClaimStep(scope, req, locked, attempt, lease) => ClaimWindows(s, scope, req, locked, attempt, lease);
    case _ =>
      AuthorityFrame(s, step);
      WindowsItself(s.leases);
  }

  // ------------------------------------------------------------------ protocol

  datatype PendingRenewal = PendingRenewal(id: Id, expected: nat)

  /** A renewal request in flight, with the server time at which its call began. */
  datatype Request = Request(call: nat, id: Id, expected: nat, sentAt: Time)

  datatype Answer =
    | Renewed(call: nat, expected: nat, version: nat, remainingMillis: nat, sentAt: Time)
    | Refused(call: nat, error: Error)

  /**
   The worker's loop, the database, and the network between them. Requests and answers are never
   taken away: an undelivered one was lost, one delivered twice was duplicated. foreign records that
   somebody else, such as a late request of an earlier loop, has renewed this lease.
   */
  datatype Link = Link(
    db: State, offset: int,
    version: nat, pending: Option<PendingRenewal>, deadline: Time, startedAt: Time, calls: nat, open: bool, lost: bool,
    used: set<Id>, requests: set<Request>, answers: set<Answer>, foreign: bool)
  {
    function WorkerNow(): Time {
      db.now + offset
    }
  }

  datatype Event =
    | Other(step: Step)
    | Call(newId: Id)
    | Serve(request: Request)
    | Hear(answer: Answer)
    | GiveUpCall

  /** How long the worker trusts a lease window: all of it but a tenth, or all but a second. */
  function ExecutionBudget(remaining: int): int {
    if remaining <= 0 then 0 else remaining - (if remaining / 10 > SECOND then SECOND else remaining / 10)
  }

  predicate AuthorityLost(error: Error) {
    || error.ErrSessionUnavailable? || error.ErrFenceRejected? || error.ErrLeaseExpired?
    || error.ErrRenewalConflict? || error.ErrStateConflict?
  }

  ghost predicate Carried(leases: map<Id, Lease>, id: Id) {
    exists m :: m in leases && leases[m].lastRenewalId == Some(id)
  }

  /** Identities are fresh UUIDs that nobody shares, and the network invents nothing. */
  ghost predicate Possible(k: Link, f: Fence, e: Event) {
    match e
    case Other(step) => step.RenewStep? ==> step.renewalId !in k.used
    case Call(newId) => !k.open && (k.pending.None? ==> newId != NIL && newId !in k.used && !Carried(k.db.leases, newId))
    case Serve(request) => request in k.requests
    case Hear(answer) => answer in k.answers && k.open && answer.call == k.calls
    case GiveUpCall => true
  }

  function BeginCall(k: Link, newId: Id): Link {
    if k.lost || k.deadline <= k.WorkerNow() then k.(lost := true)
    else
      var p := if k.pending.Some? then k.pending.value else PendingRenewal(newId, k.version);
      k.(pending := Some(p), startedAt := k.WorkerNow(), calls := k.calls + 1, open := true, used := k.used + {p.id},
         requests := k.requests + {Request(k.calls + 1, p.id, p.expected, k.db.now)})
  }

  ghost function ServeRequest(k: Link, scope: Name, f: Fence, r: Request): Link {
    var done := RenewLease(k.db, scope, f, r.id, r.expected);
    var answer := if done.1.Ok?
    then Renewed(r.call, r.expected, done.1.value.renewalVersion, Millis(done.1.value.remaining), r.sentAt)
    else Refused(r.call, done.1.error);
    k.(db := done.0, answers := k.answers + {answer})
  }

  function Millis(remaining: int): nat {
    if remaining <= 0 then 0 else remaining / MILLISECOND
  }

  /** A confirmation counts only if it names the next version and arrives inside both deadlines. */
  function HearAnswer(k: Link, answer: Answer): Link {
    match answer
    case Refused(_, error) => if AuthorityLost(error) then k.(lost := true, open := false) else k.(open := false)
    case Renewed(_, _, version, remainingMillis, _) =>
      if k.pending.None? || version != k.pending.value.expected + 1 then k.(open := false)
      else
        var until := k.startedAt + ExecutionBudget(remainingMillis * MILLISECOND);
        if k.deadline <= k.WorkerNow() || until <= k.WorkerNow() then k.(lost := true, open := false)
        else k.(pending := None, version := version, deadline := until, open := false)
  }

  /** Somebody else's renewal of the lease commits. */
  ghost predicate Overtakes(s: State, f: Fence, step: Step) {
    && step.RenewStep? && f.lease in s.leases && f.lease in Apply(s, step).leases
    && Apply(s, step).leases[f.lease].renewalVersion != s.leases[f.lease].renewalVersion
  }

  ghost function Next(k: Link, scope: Name, f: Fence, e: Event): Link {
    match e
    case Other(step) => k.(db := Apply(k.db, step), foreign := k.foreign || Overtakes(k.db, f, step))
    case Call(newId) => BeginCall(k, newId)
    case Serve(request) => ServeRequest(k, scope, f, request)
    case Hear(answer) => HearAnswer(k, answer)
    case GiveUpCall => k.(open := false)
  }

  // ----------------------------------------------------------------- invariant

  /** The server is where the worker is, or one ahead under the pending identity. */
  predicate InStep(lease: Lease, version: nat, pending: Option<PendingRenewal>) {
    || (lease.renewalVersion == version && (pending.Some? ==> lease.lastRenewalId != Some(pending.value.id)))
    || (lease.renewalVersion == version + 1 && pending.Some? && lease.lastRenewalId == Some(pending.value.id))
  }

  /** The server is past anything this loop can confirm, under an identity that is not this loop's. */
  predicate Overtaken(lease: Lease, version: nat, used: set<Id>) {
    version < lease.renewalVersion && (lease.lastRenewalId.Some? ==> lease.lastRenewalId.value !in used)
  }

  /** A request is the pending one, or belongs to a generation already confirmed. */
  predicate RequestFits(k: Link, r: Request) {
    && r.call <= k.calls && r.sentAt <= k.db.now && r.id in k.used
    && (|| (r.expected < k.version && (k.pending.Some? ==> r.id != k.pending.value.id))
        || (k.pending == Some(PendingRenewal(r.id, r.expected)) && r.expected == k.version))
    && (r.call == k.calls && k.open ==> r.expected == k.version && r.sentAt == k.startedAt - k.offset)
  }

  /** An answer never promises more than the lease still has, counted from when its call began. */
  predicate AnswerFits(k: Link, a: Answer, lease: Lease) {
    && a.call <= k.calls
    && (a.Renewed? ==>
          && a.version == a.expected + 1 <= lease.renewalVersion
          && a.sentAt + a.remainingMillis * MILLISECOND <= lease.expiresAt
          && (k.foreign ==> a.version < lease.renewalVersion)
          && (a.call == k.calls && k.open ==> a.expected == k.version && a.sentAt == k.startedAt - k.offset))
    && (a.Refused? ==> !a.error.ErrRenewalConflict? || a.call < k.calls || !k.open || k.foreign)
  }

  ghost predicate Sound(k: Link, f: Fence) {
    && Valid(k.db) && f.lease in k.db.leases
    && (if k.foreign then Overtaken(k.db.leases[f.lease], k.version, k.used)
        else InStep(k.db.leases[f.lease], k.version, k.pending))
    && (k.pending.Some? ==> k.pending.value.expected == k.version && k.pending.value.id in k.used && k.pending.value.id != NIL)
    && (forall id :: id in k.used ==> !RenewalTaken(k.db.leases, f.lease, id))
    && k.deadline - k.offset <= k.db.leases[f.lease].expiresAt
    && (k.open ==> k.startedAt <= k.WorkerNow())
    && (forall r :: r in k.requests ==> RequestFits(k, r))
    && (forall a :: a in k.answers ==> AnswerFits(k, a, k.db.leases[f.lease]))
  }

  lemma OtherSound(k: Link, scope: Name, f: Fence, step: Step)
    requires Sound(k, f) && Possible(k, f, Other(step)) && (step.RenewStep? ==> step.fence.lease != f.lease)
    ensures Sound(Next(k, scope, f, Other(step)), f)
  {
    var t := Apply(k.db, step);
    StepValid(k.db, step);
    OtherKeepsWindow(k, f, step);
    forall id | id in k.used ensures !RenewalTaken(t.leases, f.lease, id) {
      OtherTakesNothing(k, f, step, id);
    }
  }

  /** Somebody else's renewal of this lease is refused, repeated, or overtakes the loop for good. */
  lemma ForeignSound(k: Link, scope: Name, f: Fence, step: Step)
    requires Sound(k, f) && Possible(k, f, Other(step)) && step.RenewStep? && step.fence.lease == f.lease
    ensures Sound(Next(k, scope, f, Other(step)), f)
  {
    var n := Next(k, scope, f, Other(step));
    StepValid(k.db, step);
    RenewShape(k.db, step.scope, step.fence, step.renewalId, step.expected);
    if n.db != k.db {
      assert k.db.leases[f.lease].expiresAt <= n.db.leases[f.lease].expiresAt by {
        StepExtends(k.db, step);
        assert Grows(Leases, k.db, n.db);
      }
    }
  }

  lemma OtherKeepsWindow(k: Link, f: Fence, step: Step)
    requires Valid(k.db) && f.lease in k.db.leases && (step.RenewStep? ==> step.fence.lease != f.lease)
    ensures f.lease in Apply(k.db, step).leases
    ensures SameWindow(k.db.leases[f.lease], Apply(k.db, step).leases[f.lease])
    ensures k.db.now <= Apply(k.db, step).now
  {
    if step.RenewStep? {
      RenewFootprint(k.db, step.scope, step.fence, step.renewalId, step.expected);
    } else {
      OnlyRenewalMoves(k.db, step);
    }
    StepExtends(k.db, step);
    assert Grows(Settings, k.db, Apply(k.db, step));
  }

  lemma OtherTakesNothing(k: Link, f: Fence, step: Step, id: Id)
    requires Possible(k, f, Other(step)) && id in k.used && !RenewalTaken(k.db.leases, f.lease, id)
    ensures !RenewalTaken(Apply(k.db, step).leases, f.lease, id)
  {
    if step.RenewStep? {
      var r := RenewLease(k.db, step.scope, step.fence, step.renewalId, step.expected);
    } else {
      OnlyRenewalMoves(k.db, step);
    }
  }

  lemma CallSound(k: Link, f: Fence, newId: Id)
    requires Sound(k, f) && Possible(k, f, Call(newId))
    ensures Sound(BeginCall(k, newId), f)
  {
  }

  lemma HearSound(k: Link, f: Fence, answer: Answer)
    requires Sound(k, f) && Possible(k, f, Hear(answer))
    ensures Sound(HearAnswer(k, answer), f)
  {
    assert AnswerFits(k, answer, k.db.leases[f.lease]);
  }

  function RenewedLease(l: Lease, s: State, id: Id): Lease {
    l.(renewedAt := s.now, expiresAt := s.now + s.leaseDuration,
       renewalVersion := l.renewalVersion + 1, lastRenewalId := Some(id))
  }

  /** The three things a renewal can do: refuse, repeat its answer, or extend the lease by one version. */
  lemma RenewShape(s: State, scope: Name, f: Fence, id: Id, expected: int)
    requires f.lease in s.leases
    ensures var r := RenewLease(s, scope, f, id, expected);
            var l := s.leases[f.lease];
            if r.1.Err? then r.0 == s
            else
              && r.1.value.renewalVersion == expected + 1 && s.now < l.expiresAt
              && if r.1.value.replayed then
                   r.0 == s && l.lastRenewalId == Some(id) && l.renewalVersion == expected + 1
                   && r.1.value.remaining == l.expiresAt - s.now
                 else
                   && l.lastRenewalId != Some(id) && l.renewalVersion == expected && !RenewalTaken(s.leases, f.lease, id)
                   && r.0 == s.(leases := s.leases[f.lease := RenewedLease(l, s, id)])
                   && (0 <= s.leaseDuration ==> r.1.value.remaining == s.leaseDuration)
  {
  }

  /** Under the protocol's identities a current request is never refused as a renewal conflict. */
  lemma CurrentNeverConflicts(k: Link, scope: Name, f: Fence, id: Id, expected: nat)
    requires Sound(k, f) && !k.foreign && k.pending == Some(PendingRenewal(id, expected))
    ensures RenewLease(k.db, scope, f, id, expected).1 != Err(ErrRenewalConflict)
  {
  }

  /** Once overtaken, no request of this loop changes anything any more. */
  lemma OvertakenIsRefused(k: Link, scope: Name, f: Fence, r: Request)
    requires Sound(k, f) && k.foreign && r in k.requests
    ensures RenewLease(k.db, scope, f, r.id, r.expected).1.Err?
    ensures RenewLease(k.db, scope, f, r.id, r.expected).0 == k.db
  {
    assert RequestFits(k, r);
    RenewShape(k.db, scope, f, r.id, r.expected);
  }

  lemma ServeKeepsLease(k: Link, scope: Name, f: Fence, r: Request)
    requires Sound(k, f) && r in k.requests
    ensures var t := ServeRequest(k, scope, f, r).db;
            && f.lease in t.leases && t.now == k.db.now
            && (if k.foreign then t == k.db else InStep(t.leases[f.lease], k.version, k.pending))
            && k.db.leases[f.lease].expiresAt <= t.leases[f.lease].expiresAt
            && k.db.leases[f.lease].renewalVersion <= t.leases[f.lease].renewalVersion
            && (forall m :: m in t.leases && m != f.lease ==> m in k.db.leases && t.leases[m] == k.db.leases[m])
  {
    assert RequestFits(k, r);
    RenewShape(k.db, scope, f, r.id, r.expected);
    if k.foreign {
      OvertakenIsRefused(k, scope, f, r);
    }
    assert LeaseRow(k.db.leases[f.lease], k.db.now, k.db.leaseDuration) by { assert Holds(LeaseRowLaw, k.db); }
  }

  lemma ServeAnswers(k: Link, scope: Name, f: Fence, r: Request, a: Answer)
    requires Sound(k, f) && r in k.requests
    requires a in ServeRequest(k, scope, f, r).answers && a !in k.answers
    ensures var t := ServeRequest(k, scope, f, r).db; f.lease in t.leases && AnswerFits(k, a, t.leases[f.lease])
  {
    assert RequestFits(k, r);
    RenewShape(k.db, scope, f, r.id, r.expected);
    assert 0 < k.db.leaseDuration by { assert Holds(LeaseDurationLaw, k.db); }
    if k.foreign {
      OvertakenIsRefused(k, scope, f, r);
    } else if r.call == k.calls && k.open {
      CurrentNeverConflicts(k, scope, f, r.id, r.expected);
    }
  }

  lemma ServeSound(k: Link, scope: Name, f: Fence, r: Request)
    requires Sound(k, f) && r in k.requests
    ensures Sound(ServeRequest(k, scope, f, r), f)
  {
    var n := ServeRequest(k, scope, f, r);
    StepValid(k.db, RenewStep(scope, f, r.id, r.expected));
    ServeKeepsLease(k, scope, f, r);
    forall a | a in n.answers ensures AnswerFits(n, a, n.db.leases[f.lease]) {
      if a !in k.answers {
        ServeAnswers(k, scope, f, r, a);
      }
    }
  }

  lemma NextSound(k: Link, scope: Name, f: Fence, e: Event)
    requires Sound(k, f) && Possible(k, f, e)
    ensures Sound(Next(k, scope, f, e), f)
  {
    match e
    case Other(step) =>
      if step.RenewStep? && step.fence.lease == f.lease {
        ForeignSound(k, scope, f, step);
      } else {
        OtherSound(k, scope, f, step);
      }
    case Call(newId) => CallSound(k, f, newId);
    case Serve(request) => ServeSound(k, scope, f, request);
    case Hear(answer) => HearSound(k, f, answer);
    case GiveUpCall =>
  }

  // ------------------------------------------------------------------ all runs

  ghost function RunLink(k: Link, scope: Name, f: Fence, events: seq<Event>): Link
    decreases |events|
  {
    if events == [] then k else RunLink(Next(k, scope, f, events[0]), scope, f, events[1..])
  }

  ghost predicate AllPossible(k: Link, scope: Name, f: Fence, events: seq<Event>)
    decreases |events|
  {
    events != [] ==> Possible(k, f, events[0]) && AllPossible(Next(k, scope, f, events[0]), scope, f, events[1..])
  }

  lemma {:induction false} RunSound(k: Link, scope: Name, f: Fence, events: seq<Event>)
    requires Sound(k, f) && AllPossible(k, scope, f, events)
    ensures Sound(RunLink(k, scope, f, events), f)
    decreases |events|
  {
    if events != [] {
      NextSound(k, scope, f, events[0]);
      RunSound(Next(k, scope, f, events[0]), scope, f, events[1..]);
    }
  }

  /** A loop starts at version 0 with the claim's deadline; on a lease already renewed it starts overtaken. */
  ghost predicate Fresh(k: Link, f: Fence) {
    && Valid(k.db) && f.lease in k.db.leases && k.foreign == (k.db.leases[f.lease].renewalVersion != 0)
    && k.version == 0 && k.pending.None? && !k.open && k.used == {} && k.requests == {} && k.answers == {}
    && k.deadline - k.offset <= k.db.leases[f.lease].expiresAt
  }

  /**
   Whatever the network and the rest of the system do, the worker's deadline never passes the server's expiry.
   As long as nobody else has renewed the lease, the server is at the worker's version or one ahead under the
   pending identity, and retrying is never a conflict. From somebody else's renewal on, every request of this
   loop is refused and changes nothing.
   */
  lemma RenewalStaysInStep(k: Link, scope: Name, f: Fence, events: seq<Event>)
    requires Fresh(k, f) && AllPossible(k, scope, f, events)
    ensures var n := RunLink(k, scope, f, events);
            && f.lease in n.db.leases && n.deadline - n.offset <= n.db.leases[f.lease].expiresAt
            && (!n.foreign ==> InStep(n.db.leases[f.lease], n.version, n.pending))
            && (!n.foreign && n.pending.Some? ==>
                  RenewLease(n.db, scope, f, n.pending.value.id, n.pending.value.expected).1 != Err(ErrRenewalConflict))
            && (n.foreign ==> n.version < n.db.leases[f.lease].renewalVersion)
            && (n.foreign ==> forall r :: r in n.requests ==>
                  var done := RenewLease(n.db, scope, f, r.id, r.expected); done.1.Err? && done.0 == n.db)
  {
    RunSound(k, scope, f, events);
    var n := RunLink(k, scope, f, events);
    if n.foreign {
      forall r | r in n.requests
        ensures RenewLease(n.db, scope, f, r.id, r.expected).1.Err? && RenewLease(n.db, scope, f, r.id, r.expected).0 == n.db
      {
        OvertakenIsRefused(n, scope, f, r);
      }
    } else if n.pending.Some? {
      CurrentNeverConflicts(n, scope, f, n.pending.value.id, n.pending.value.expected);
    }
  }

  /** Nobody has overtaken a loop on a never renewed lease unless a renewal of that lease by somebody else is in the run. */
  lemma {:induction false} OvertakenOnlyByRenewal(k: Link, scope: Name, f: Fence, events: seq<Event>)
    requires Sound(k, f) && AllPossible(k, scope, f, events) && !k.foreign
    requires forall i :: 0 <= i < |events| && events[i].Other? && events[i].step.RenewStep? ==> events[i].step.fence.lease != f.lease
    ensures !RunLink(k, scope, f, events).foreign
    decreases |events|
  {
    if events != [] {
      NextSound(k, scope, f, events[0]);
      if events[0].Other? {
        OtherKeepsWindow(k, f, events[0].step);
      }
      OvertakenOnlyByRenewal(Next(k, scope, f, events[0]), scope, f, events[1..]);
    }
  }

  /** The worker keeps at least nine tenths of a window, and gives up at most a second of it. */
  lemma BudgetKeepsTheWindow(remaining: int)
    ensures remaining <= 0 ==> ExecutionBudget(remaining) == 0
    ensures 0 < remaining ==> 9 * remaining <= 10 * ExecutionBudget(remaining) && ExecutionBudget(remaining) <= remaining
    ensures 0 < remaining ==> remaining - ExecutionBudget(remaining) <= SECOND
    ensures 11 * SECOND <= remaining ==> remaining - ExecutionBudget(remaining) == SECOND
  {
  }

  /**
   A round trip works: called before the deadline, granted by the server and heard in time, it moves the loop to the
   next version and its deadline to the budget of a full window from the moment of the call.
   */
  lemma RoundTripRenews(k: Link, scope: Name, f: Fence, newId: Id, delay: nat)
    requires f.lease in k.db.leases && 0 < k.db.leaseDuration
    requires Possible(k, f, Call(newId)) && !k.lost && k.pending.None? && k.WorkerNow() + delay < k.deadline
    requires var r := RenewLease(k.db, scope, f, newId, k.version).1; r.Ok? && !r.value.replayed
    requires delay < ExecutionBudget(Millis(k.db.leaseDuration) * MILLISECOND)
    ensures var called := Next(k, scope, f, Call(newId));
            var request := Request(called.calls, newId, k.version, k.db.now);
            var answer := Renewed(called.calls, k.version, k.version + 1, Millis(k.db.leaseDuration), k.db.now);
            var served := Next(called, scope, f, Serve(request));
            var n := Next(Next(served, scope, f, Other(TickStep(delay))), scope, f, Hear(answer));
            && request in called.requests && answer in served.answers
            && n.version == k.version + 1 && n.pending.None? && !n.lost && !n.open
            && n.deadline == k.WorkerNow() + ExecutionBudget(Millis(k.db.leaseDuration) * MILLISECOND)
  {
    RenewShape(k.db, scope, f, newId, k.version);
  }

  /** The claim's own deadline obeys the bound: it is counted from before the request was sent. */
  lemma ClaimDeadlineIsSafe(s: State, scope: Name, req: ClaimRequest, locked: set<Id>, attempt: Id, lease: Id, sentAt: Time)
    requires Valid(s) && sentAt <= s.now
    requires var r := Claim(s, scope, req, locked, attempt, lease).1; r.Ok? && r.value.Claimed?
    ensures var r := Claim(s, scope, req, locked, attempt, lease);
            var a := r.1.value.assignment;
            var deadline := sentAt + ExecutionBudget(Millis(a.leaseRemaining) * MILLISECOND);
            && a.lease in r.0.leases
            && (deadline <= r.0.leases[a.lease].expiresAt || (r.0.leases[a.lease].expiresAt <= s.now && deadline <= s.now))
  {
    assert Holds(LeaseDurationLaw, s);
  }

  /** A loop restarted at version 0 can renew only a lease that was never renewed. */
  lemma RestartNeedsVersionZero(s: State, scope: Name, f: Fence, newId: Id)
    requires f.lease in s.leases && !Carried(s.leases, newId)
    ensures RenewLease(s, scope, f, newId, 0).1.Ok? ==> s.leases[f.lease].renewalVersion == 0
    ensures s.leases[f.lease].renewalVersion == 0 ==> RenewLease(s, scope, f, newId, 0).1 != Err(ErrRenewalConflict)
  {
    assert s.leases[f.lease].lastRenewalId != Some(newId);
    assert !RenewalTaken(s.leases, f.lease, newId);
  }
}
