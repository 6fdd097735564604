/** The outbox publisher: any number of publishers race and crash, the broker may refuse. */
module Publishing {
  import opened Base
  import opened Schema
  import opened Transactions
  import opened Steps
  import opened History
  import opened Spacing
  import opened ControlPlane
  import opened Scans

  // ------------------------------------------------------------- event frames

  predicate PublishedEvent(events: map<Id, Event>, e: Id) {
    e in events && events[e].status.EventPublished?
  }

  /** Outside the publisher existing events are untouched and new ones are pending. */
  lemma EventFrame(s: State, step: Step, e: Id)
    requires !PublisherStep(step)
    ensures e in s.events ==> e in Apply(s, step).events && Apply(s, step).events[e] == s.events[e]
    ensures e !in s.events ==> !PublishedEvent(Apply(s, step).events, e)
  {
    if step.RenotifyStep? {
      RenotifyFrame(s, step.job, step.after, step.newEvent, e);
    } else {
      StepNotices(s, step);
    }
  }

  lemma RenotifyFrame(s: State, j: Id, after: int, event: Id, e: Id)
    ensures var t := RenotifyStrandedJob(s, j, after, event).0;
            && (e in s.events ==> e in t.events && t.events[e] == s.events[e])
            && (e !in s.events ==> !PublishedEvent(t.events, e))
  {
  }

  /** Only marking makes an event PUBLISHED. */
  lemma OnlyMarkingPublishes(s: State, step: Step, e: Id)
    requires PublishedEvent(Apply(s, step).events, e) && !PublishedEvent(s.events, e)
    ensures step == MarkPublishedStep(e)
  {
    if !PublisherStep(step) {
      EventFrame(s, step, e);
    }
  }

  // ---------------------------------------------------------- a publisher fleet

  /** Publishers share the database and the broker; holding[p] was accepted for p and is not yet marked. */
  datatype Fleet = Fleet(db: State, sent: set<Id>, holding: map<nat, Id>)

  datatype FleetStep =
    | Accepted(publisher: nat, event: Id)
    | Mark(publisher: nat)
    | Crash(publisher: nat)
    | Other(step: Step)

  predicate Possible(step: FleetStep) {
    step.Other? ==> !step.step.MarkPublishedStep?
  }

  ghost function ApplyFleet(f: Fleet, step: FleetStep): Fleet {
    match step
    case Accepted(p, e) => f.(sent := f.sent + {e}, holding := f.holding[p := e])
    case Mark(p) =>
      if p !in f.holding then f
      else f.(db := MarkPublished(f.db, f.holding[p]).0, holding := f.holding - {p})
    case Crash(p) => f.(holding := f.holding - {p})
    case Other(step) => f.(db := Apply(f.db, step))
  }

  ghost function RunFleet(f: Fleet, steps: seq<FleetStep>): Fleet
    decreases |steps|
  {
    if steps == [] then f else RunFleet(ApplyFleet(f, steps[0]), steps[1..])
  }

  ghost predicate AllSent(f: Fleet) {
    && (forall e :: PublishedEvent(f.db.events, e) ==> e in f.sent)
    && (forall p :: p in f.holding ==> f.holding[p] in f.sent)
  }

  lemma FleetStepSent(f: Fleet, step: FleetStep)
    requires AllSent(f) && Possible(step)
    ensures AllSent(ApplyFleet(f, step))
  {
    if step.Other? {
      var t := ApplyFleet(f, step);
      forall e | PublishedEvent(t.db.events, e) ensures e in t.sent {
        if !PublishedEvent(f.db.events, e) {
          OnlyMarkingPublishes(f.db, step.step, e);
        }
      }
    }
  }

  /** However publishers interleave and crash, every PUBLISHED event was accepted by the broker at least once. */
  lemma {:induction false} PublishedWasSent(f: Fleet, steps: seq<FleetStep>)
    requires AllSent(f) && forall i :: 0 <= i < |steps| ==> Possible(steps[i])
    ensures AllSent(RunFleet(f, steps))
    decreases |steps|
  {
    if steps != [] {
      FleetStepSent(f, steps[0]);
      PublishedWasSent(ApplyFleet(f, steps[0]), steps[1..]);
    }
  }

  // ------------------------------------------------------------- claim spacing

  /** Not before this time will any publisher claim the event. */
  predicate HeldBack(s: State, e: Id, until: Time) {
    e in s.events && (s.events[e].status.EventPublished? || until <= s.events[e].availableAt)
  }

  lemma StepHoldsBack(s: State, step: Step, e: Id, until: Time)
    requires HeldBack(s, e, until) && !(step.RecordFailureStep? && step.event == e)
    ensures HeldBack(Apply(s, step), e, until)
  {
    if !PublisherStep(step) {
      EventFrame(s, step, e);
    }
  }

  lemma {:induction false} RunHoldsBack(s: State, steps: seq<Step>, e: Id, until: Time)
    requires HeldBack(s, e, until)
    requires forall i :: 0 <= i < |steps| && steps[i].RecordFailureStep? ==> steps[i].event != e
    ensures HeldBack(Run(s, steps), e, until)
    decreases |steps|
  {
    if steps != [] {
      StepHoldsBack(s, steps[0], e, until);
      RunHoldsBack(Apply(s, steps[0]), steps[1..], e, until);
    }
  }

  /** Two claims of one event are at least the first one's timeout apart, unless a failure was recorded between. */
  lemma ClaimsAreSpaced(s: State, picked: set<Id>, claimTimeout: nat, e: Id, steps: seq<Step>)
    requires e in ClaimDue(s, picked, claimTimeout).1
    requires forall i :: 0 <= i < |steps| && steps[i].RecordFailureStep? ==> steps[i].event != e
    ensures var u := Run(ClaimDue(s, picked, claimTimeout).0, steps); EventDue(u, e) ==> s.now + claimTimeout <= u.now
  {
    RunHoldsBack(ClaimDue(s, picked, claimTimeout).0, steps, e, s.now + claimTimeout);
  }

  // ----------------------------------------------------------------- one pass

  /** How one publication attempt ends; a failure's own record may be lost too. */
  datatype Delivery = Refused(cause: string, retryAfter: nat, recorded: bool) | AcceptedUnmarked | AcceptedByBroker

  /**
   What others do before an event's turn and what the broker accepted from them by then,
   whether the pass is canceled, and how the turn ends.
   */
  datatype PublishTurn = PublishTurn(before: seq<Step>, others: set<Id>, canceled: bool, delivery: Delivery)

  /** Other publishers mark only what the broker accepted, as this one does. */
  predicate Honest(turn: PublishTurn) {
    forall k :: 0 <= k < |turn.before| && turn.before[k].MarkPublishedStep? ==> turn.before[k].event in turn.others
  }

  predicate AllHonest(turns: seq<PublishTurn>) {
    forall i :: 0 <= i < |turns| ==> Honest(turns[i])
  }

  /** Every PUBLISHED event was accepted by the broker. */
  ghost predicate OnlySent(s: State, sent: set<Id>) {
    forall e :: PublishedEvent(s.events, e) ==> e in sent
  }

  lemma StepOnlySent(s: State, step: Step, sent: set<Id>)
    requires OnlySent(s, sent) && (step.MarkPublishedStep? ==> step.event in sent)
    ensures OnlySent(Apply(s, step), sent)
  {
    forall e | PublishedEvent(Apply(s, step).events, e) ensures e in sent {
      if !PublishedEvent(s.events, e) {
        OnlyMarkingPublishes(s, step, e);
      }
    }
  }

  lemma {:induction false} RunOnlySent(s: State, steps: seq<Step>, sent: set<Id>)
    requires OnlySent(s, sent) && forall k :: 0 <= k < |steps| && steps[k].MarkPublishedStep? ==> steps[k].event in sent
    ensures OnlySent(Run(s, steps), sent)
    decreases |steps|
  {
    if steps != [] {
      StepOnlySent(s, steps[0], sent);
      RunOnlySent(Apply(s, steps[0]), steps[1..], sent);
    }
  }

  /** What the broker has accepted after the turn. */
  function SentBy(e: Id, delivery: Delivery): set<Id> {
    if delivery.Refused? then {} else {e}
  }

  lemma TurnOnlySent(s: State, e: Id, turn: PublishTurn, sent: set<Id>)
    requires OnlySent(s, sent) && Honest(turn)
    ensures OnlySent(Run(Run(s, turn.before), SettlingSteps(e, turn.delivery)), sent + turn.others + SentBy(e, turn.delivery))
  {
    var later := sent + turn.others + SentBy(e, turn.delivery);
    RunOnlySent(s, turn.before, later);
    RunOnlySent(Run(s, turn.before), SettlingSteps(e, turn.delivery), later);
  }

  datatype PassStats = PassStats(claimed: nat, published: nat, failed: nat, alreadyPublished: nat)

  ghost function Pending(s: State): set<Id> {
    set e | e in s.events && s.events[e].status.EventPending?
  }

  /** Between the turns of this pass only publishers act and time passes: nothing is inserted. */
  predicate NothingInserted(turns: seq<PublishTurn>) {
    forall i, k :: 0 <= i < |turns| && 0 <= k < |turns[i].before| ==>
      PublisherStep(turns[i].before[k]) || turns[i].before[k].TickStep?
  }

  predicate Inert(steps: seq<Step>) {
    forall k :: 0 <= k < |steps| ==> PublisherStep(steps[k]) || steps[k].TickStep?
  }

  lemma InertStepShrinks(s: State, step: Step)
    requires PublisherStep(step) || step.TickStep?
    ensures Pending(Apply(s, step)) <= Pending(s)
  {
  }

  lemma {:induction false} InertShrinks(s: State, steps: seq<Step>)
    requires Inert(steps)
    ensures Pending(Run(s, steps)) <= Pending(s)
    decreases |steps|
  {
    if steps != [] {
      InertStepShrinks(s, steps[0]);
      InertShrinks(Apply(s, steps[0]), steps[1..]);
    }
  }

  /** The due events that no other transaction has locked, under the time the claim sorts by. */
  function DueEvents(s: State, locked: set<Id>): map<Id, Time> {
    map e | e in s.events && EventDue(s, e) && e !in locked :: s.events[e].availableAt
  }

  /** Claims the oldest due events that no other transaction has locked, at most a batch of them. */
  method ClaimBatch(store: Store, batch: nat, locked: set<Id>, claimTimeout: nat) returns (ids: seq<Id>)
    requires store.Consistent()
    modifies store
    ensures store.Consistent() && store.db == ClaimDue(old(store.db), (set e | e in ids), claimTimeout).0
    ensures Pending(store.db) == Pending(old(store.db))
    ensures |ids| <= batch && OldestOf(DueEvents(old(store.db), locked), ids)
    ensures Distinct(ids) && store.db.events.Keys == old(store.db).events.Keys
    ensures forall i :: 0 <= i < |ids| ==> ids[i] in Pending(old(store.db))
    ensures |ids| < batch ==> forall e :: EventDue(old(store.db), e) && e !in locked ==> e in ids
  {
    var s := store.db;
    ids := OldestFirst(DueEvents(s, locked), batch);
    var picked := set e | e in ids;
    var _ := store.ClaimEvents(picked, claimTimeout);
  }

  function SettlingSteps(e: Id, delivery: Delivery): seq<Step> {
    match delivery
    case Refused(cause, retryAfter, recorded) => if recorded then [RecordFailureStep(e, cause, retryAfter)] else []
    case AcceptedUnmarked => []
    case AcceptedByBroker => [MarkPublishedStep(e)]
  }

  predicate PendingEventIn(s: State, e: Id) {
    e in s.events && s.events[e].status.EventPending?
  }

  /** Nobody marks the event in these steps. */
  predicate Unmarked(steps: seq<Step>, e: Id) {
    forall k :: 0 <= k < |steps| ==> steps[k] != MarkPublishedStep(e)
  }

  lemma StepKeepsPending(s: State, step: Step, e: Id)
    requires PendingEventIn(s, e) && step != MarkPublishedStep(e)
    ensures PendingEventIn(Apply(s, step), e)
  {
    if !PublisherStep(step) {
      EventFrame(s, step, e);
    }
  }

  lemma {:induction false} RunKeepsPending(s: State, steps: seq<Step>, e: Id)
    requires PendingEventIn(s, e) && Unmarked(steps, e)
    ensures PendingEventIn(Run(s, steps), e)
    decreases |steps|
  {
    if steps != [] {
      StepKeepsPending(s, steps[0], e);
      RunKeepsPending(Apply(s, steps[0]), steps[1..], e);
    }
  }

  /** An event that nobody else marks stays pending through another event's turn. */
  lemma TurnKeepsPending(s: State, e: Id, turn: PublishTurn, other: Id)
    requires PendingEventIn(s, other) && other != e && Unmarked(turn.before, other)
    ensures PendingEventIn(Run(Run(s, turn.before), SettlingSteps(e, turn.delivery)), other)
  {
    RunKeepsPending(s, turn.before, other);
    RunKeepsPending(Run(s, turn.before), SettlingSteps(e, turn.delivery), other);
  }

  /** Marks the event after the broker accepted it, or records the refusal. */
  method Settle(store: Store, e: Id, delivery: Delivery) returns (failed: bool, marked: bool)
    requires store.Consistent() && e in store.db.events
    modifies store
    ensures store.Consistent() && store.db == Run(old(store.db), SettlingSteps(e, delivery))
    ensures failed <==> !delivery.AcceptedByBroker?
    ensures !failed ==> PublishedEvent(store.db.events, e)
    ensures marked <==> delivery.AcceptedByBroker? && old(store.db).events[e].status.EventPending?
  {
    failed, marked := false, false;
    match delivery
    case Refused(cause, retryAfter, recorded) =>
      failed := true;
      if recorded {
        store.RecordEventFailure(e, cause, retryAfter);
      }
    case AcceptedUnmarked =>
      failed := true;
    case AcceptedByBroker =>
      marked := store.MarkEventPublished(e);
  }

  /** One event's turn: interference, the broker's answer, then the mark or the recorded failure. */
  method PublishEvent(store: Store, e: Id, turn: PublishTurn, ghost sent: set<Id>)
    returns (failed: bool, marked: bool, ghost later: set<Id>)
    requires store.Consistent() && e in store.db.events
    modifies store
    ensures store.Consistent() && Extends(old(store.db), store.db)
    ensures Inert(turn.before) ==> Pending(store.db) <= Pending(old(store.db))
    ensures failed <==> !turn.delivery.AcceptedByBroker?
    ensures !failed ==> PublishedEvent(store.db.events, e)
    ensures later == sent + turn.others + SentBy(e, turn.delivery)
    ensures marked ==> !failed
    ensures PendingEventIn(old(store.db), e) && Unmarked(turn.before, e) ==> (marked <==> !failed)
    ensures forall other :: PendingEventIn(old(store.db), other) && other != e && Unmarked(turn.before, other) ==>
              PendingEventIn(store.db, other)
    ensures Honest(turn) && OnlySent(old(store.db), sent) ==> OnlySent(store.db, later)
  {
    ghost var s := store.db;
    store.ExecuteAll(turn.before);
    ghost var t := store.db;
    RunExtends(s, turn.before);
    assert e in t.events by { assert Grows(OutboxEvents, s, t); }
    failed, marked := Settle(store, e, turn.delivery);
    later := sent + turn.others + SentBy(e, turn.delivery);
    RunExtends(t, SettlingSteps(e, turn.delivery));
    ExtendsTransitive(s, t, store.db);
    InertShrinks(t, SettlingSteps(e, turn.delivery));
    if Inert(turn.before) {
      InertShrinks(s, turn.before);
    }
    if Honest(turn) && OnlySent(s, sent) {
      TurnOnlySent(s, e, turn, sent);
    }
    if PendingEventIn(s, e) && Unmarked(turn.before, e) {
      RunKeepsPending(s, turn.before, e);
    }
    forall other | PendingEventIn(s, other) && other != e && Unmarked(turn.before, other) ensures PendingEventIn(store.db, other) {
      TurnKeepsPending(s, e, turn, other);
    }
  }

  /** How many of the first n turns the broker or the mark let down. */
  function Failures(turns: seq<PublishTurn>, n: nat): nat
    requires n <= |turns|
  {
    if n == 0 then 0 else Failures(turns, n - 1) + if turns[n - 1].delivery.AcceptedByBroker? then 0 else 1
  }

  /** Nobody else marks any of these events during the pass. */
  predicate Undisturbed(turns: seq<PublishTurn>, ids: seq<Id>) {
    forall i, k :: 0 <= i < |turns| && 0 <= k < |ids| ==> Unmarked(turns[i].before, ids[k])
  }

  /** From the i-th on, the claimed events are pending. */
  ghost predicate StillPending(s: State, ids: seq<Id>, i: nat) {
    forall k :: i <= k < |ids| ==> PendingEventIn(s, ids[k])
  }

  /** Who the broker accepted an event from: earlier, this pass, or somebody else meanwhile. */
  ghost predicate AcceptedFrom(e: Id, sent: set<Id>, ids: seq<Id>, turns: seq<PublishTurn>) {
    e in sent || e in ids || exists i :: 0 <= i < |turns| && e in turns[i].others
  }

  lemma PublishedStay(s: State, t: State, ids: seq<Id>)
    requires Extends(s, t) && forall k :: 0 <= k < |ids| ==> ids[k] in s.events
    ensures forall k :: 0 <= k < |ids| ==> ids[k] in t.events
    ensures forall k :: 0 <= k < |ids| && PublishedEvent(s.events, ids[k]) ==> PublishedEvent(t.events, ids[k])
  {
    assert Grows(OutboxEvents, s, t);
  }

  predicate Distinct(ids: seq<Id>) {
    forall i, k :: 0 <= i < k < |ids| ==> ids[i] != ids[k]
  }

  /** What holds of a pass after i of its claimed events had their turn. */
  ghost predicate Passing(start: State, s: State, ids: seq<Id>, turns: seq<PublishTurn>, i: nat, stats: PassStats,
                          sent: set<Id>, later: set<Id>)
  {
    && i <= |ids| <= |turns| && stats.claimed == |ids|
    && stats.published + stats.failed + stats.alreadyPublished == i && stats.failed == Failures(turns, i)
    && (forall k :: 0 <= k < |ids| ==> ids[k] in s.events)
    && (Undisturbed(turns, ids) ==> stats.alreadyPublished == 0 && StillPending(s, ids, i))
    && (stats.failed == 0 ==> forall k :: 0 <= k < i ==> PublishedEvent(s.events, ids[k]))
    && (NothingInserted(turns) ==> Pending(s) <= Pending(start))
    && sent <= later && (forall e :: e in later ==> AcceptedFrom(e, sent, ids, turns))
    && (AllHonest(turns) && OnlySent(start, sent) ==> OnlySent(s, later))
  }

  function Tally(stats: PassStats, failed: bool, marked: bool): PassStats {
    if failed then stats.(failed := stats.failed + 1)
    else if marked then stats.(published := stats.published + 1)
    else stats.(alreadyPublished := stats.alreadyPublished + 1)
  }

  /** The effects of the i-th turn carry the pass one event further. */
  lemma PassingOn(start: State, s: State, t: State, ids: seq<Id>, turns: seq<PublishTurn>, i: nat, stats: PassStats,
                  failed: bool, marked: bool, sent: set<Id>, before: set<Id>, later: set<Id>)
    requires Passing(start, s, ids, turns, i, stats, sent, before) && i < |ids| && Distinct(ids)
    requires Extends(s, t) && (Inert(turns[i].before) ==> Pending(t) <= Pending(s))
    requires (failed <==> !turns[i].delivery.AcceptedByBroker?) && (!failed ==> PublishedEvent(t.events, ids[i])) && (marked ==> !failed)
    requires PendingEventIn(s, ids[i]) && Unmarked(turns[i].before, ids[i]) ==> (marked <==> !failed)
    requires forall other :: PendingEventIn(s, other) && other != ids[i] && Unmarked(turns[i].before, other) ==> PendingEventIn(t, other)
    requires later == before + turns[i].others + SentBy(ids[i], turns[i].delivery)
    requires Honest(turns[i]) && OnlySent(s, before) ==> OnlySent(t, later)
    ensures Passing(start, t, ids, turns, i + 1, Tally(stats, failed, marked), sent, later)
  {
    PublishedStay(s, t, ids);
    forall e | e in later ensures AcceptedFrom(e, sent, ids, turns) {
      if e in before {
        assert AcceptedFrom(e, sent, ids, turns);
      }
    }
    if Undisturbed(turns, ids) {
      assert PendingEventIn(s, ids[i]) && Unmarked(turns[i].before, ids[i]);
      forall k | i + 1 <= k < |ids| ensures PendingEventIn(t, ids[k]) {
        assert ids[k] != ids[i] && PendingEventIn(s, ids[k]) && Unmarked(turns[i].before, ids[k]);
      }
    }
  }

  method TakeTurn(store: Store, ghost start: State, ids: seq<Id>, turns: seq<PublishTurn>, i: nat, stats: PassStats,
                  ghost sent: set<Id>, ghost before: set<Id>)
    returns (next: PassStats, ghost later: set<Id>)
    requires store.Consistent() && Passing(start, store.db, ids, turns, i, stats, sent, before) && i < |ids| && Distinct(ids)
    modifies store
    ensures store.Consistent() && Passing(start, store.db, ids, turns, i + 1, next, sent, later)
  {
    ghost var s := store.db;
    var failed, marked;
    failed, marked, later := PublishEvent(store, ids[i], turns[i], before);
    PassingOn(start, s, store.db, ids, turns, i, stats, failed, marked, sent, before, later);
    next := Tally(stats, failed, marked);
  }

  /**
   One pass. Unless it is canceled, every claimed event is published, failed or found already published;
   and if none failed, every claimed event is PUBLISHED at the end, by this publisher or another. Failures are
   exactly the turns that were let down, and an event is found already published only if somebody else marked it.
   Whatever happens, the pass leaves nothing PUBLISHED that the broker has not accepted.
   */
  method RunOnce(store: Store, batch: nat, locked: set<Id>, claimTimeout: nat, turns: seq<PublishTurn>, ghost sent: set<Id>)
    returns (stats: PassStats, canceled: bool, ids: seq<Id>, ghost later: set<Id>)
    requires store.Consistent() && batch <= |turns|
    modifies store
    ensures store.Consistent() && stats.claimed == |ids| <= batch
    ensures forall i :: 0 <= i < |ids| ==> ids[i] in Pending(old(store.db))
    ensures Distinct(ids)
    ensures stats.published + stats.failed + stats.alreadyPublished <= stats.claimed
    ensures !canceled <==> stats.published + stats.failed + stats.alreadyPublished == stats.claimed
    ensures !canceled && stats.failed == 0 ==> forall i :: 0 <= i < |ids| ==> PublishedEvent(store.db.events, ids[i])
    ensures stats.failed == Failures(turns, stats.published + stats.failed + stats.alreadyPublished)
    ensures Undisturbed(turns, ids) ==> stats.alreadyPublished == 0
    ensures NothingInserted(turns) ==> Pending(store.db) <= Pending(old(store.db))
    ensures sent <= later && forall e :: e in later ==> AcceptedFrom(e, sent, ids, turns)
    ensures AllHonest(turns) && OnlySent(old(store.db), sent) ==> OnlySent(store.db, later)
  {
    ids := ClaimBatch(store, batch, locked, claimTimeout);
    stats, canceled, later := PassStats(|ids|, 0, 0, 0), false, sent;
    PassBegins(old(store.db), store.db, ids, turns, sent);
    var i := 0;
    while i < |ids|
      invariant 0 <= i <= |ids| && store.Consistent()
      invariant Passing(old(store.db), store.db, ids, turns, i, stats, sent, later)
    {
      if turns[i].canceled {
        canceled := true;
        return;
      }
      stats, later := TakeTurn(store, old(store.db), ids, turns, i, stats, sent, later);
      i := i + 1;
    }
  }

  lemma PassBegins(start: State, s: State, ids: seq<Id>, turns: seq<PublishTurn>, sent: set<Id>)
    requires |ids| <= |turns| && Pending(s) == Pending(start) && s.events.Keys == start.events.Keys
    requires forall k :: 0 <= k < |ids| ==> ids[k] in Pending(start)
    ensures Passing(start, s, ids, turns, 0, PassStats(|ids|, 0, 0, 0), sent, sent)
  {
    forall e | PublishedEvent(s.events, e) ensures PublishedEvent(start.events, e) {
      assert e !in Pending(s);
    }
    forall k | 0 <= k < |ids| ensures PendingEventIn(s, ids[k]) {
      assert ids[k] in Pending(s);
    }
  }

  lemma {:induction false} FewerPending(before: set<Id>, after: set<Id>, ids: seq<Id>)
    requires after <= before && 0 < |ids|
    requires forall i :: 0 <= i < |ids| ==> ids[i] in before && ids[i] !in after
    ensures |after| < |before|
  {
    assert ids[0] in before;
    SubsetSize(after, before - {ids[0]});
  }

  /** Drains the outbox: full passes without failure repeat, and they end when nothing more is inserted. */
  method Drain(store: Store, batch: nat, claimTimeout: nat, locked: nat -> set<Id>, turns: nat -> seq<PublishTurn>,
               ghost sent: set<Id>)
    returns (last: PassStats, canceled: bool, ghost later: set<Id>)
    requires store.Consistent() && 1 <= batch
    requires forall k: nat :: batch <= |turns(k)| && NothingInserted(turns(k))
    modifies store
    ensures store.Consistent()
    ensures canceled || last.failed > 0 || last.claimed < batch
    ensures sent <= later
    ensures (forall k: nat :: AllHonest(turns(k))) && OnlySent(old(store.db), sent) ==> OnlySent(store.db, later)
  {
    var pass := 0;
    later := sent;
    while true
      invariant store.Consistent() && sent <= later
      invariant (forall k: nat :: AllHonest(turns(k))) && OnlySent(old(store.db), sent) ==> OnlySent(store.db, later)
      decreases |Pending(store.db)|
    {
      ghost var before := Pending(store.db);
      var ids;
      last, canceled, ids, later := RunOnce(store, batch, locked(pass), claimTimeout, turns(pass), later);
      if canceled || last.claimed < batch || last.failed > 0 {
        return;
      }
      FewerPending(before, Pending(store.db), ids);
      pass := pass + 1;
    }
  }
}
