/**
 Duplicate notifications inside one worker. The first slot to receive an event leads it and makes
 the durable claim; slots that receive it meanwhile follow and wait for the leader's decision.
 */
module Deliveries {
  import opened Base
  import opened Schema
  import opened Transactions

  /** One flight object, identified by its number; a later flight of the same event is another object. */
  datatype Flight = Flight(settled: bool, safeAck: bool, failure: Option<Error>, followers: nat)

  datatype Desk = Desk(flights: map<Id, nat>, cards: map<nat, Flight>, next: nat)

  function Begun(d: Desk, event: Id): (Desk, nat, bool) {
    if event in d.flights && d.flights[event] in d.cards then
      var n := d.flights[event];
      (d.(cards := d.cards[n := d.cards[n].(followers := d.cards[n].followers + 1)]), n, false)
    else
      (Desk(d.flights[event := d.next], d.cards[d.next := Flight(false, false, None, 0)], d.next + 1), d.next, true)
  }

  /** The first settlement counts; later ones leave the flight alone. */
  function Settled(cards: map<nat, Flight>, n: nat, safeAck: bool, failure: Option<Error>): map<nat, Flight> {
    if n in cards && !cards[n].settled
    then cards[n := cards[n].(settled := true, safeAck := safeAck, failure := failure)] else cards
  }

  function Decided(d: Desk, n: nat, safeAck: bool, failure: Option<Error>): Desk {
    d.(cards := Settled(d.cards, n, safeAck, failure))
  }

  function Ended(d: Desk, event: Id, n: nat): Desk {
    Desk(d.flights - {event}, Settled(d.cards, n, false, None), d.next)
  }

  ghost predicate WellKept(d: Desk) {
    && (forall e :: e in d.flights ==> d.flights[e] in d.cards)
    && (forall n :: n in d.cards ==> n < d.next)
  }

  class DeliveryDesk {
    var desk: Desk

    constructor ()
      ensures desk == Desk(map[], map[], 0)
    {
      desk := Desk(map[], map[], 0);
    }

    method BeginDelivery(event: Id) returns (n: nat, leader: bool)
      requires WellKept(desk)
      modifies this
      ensures (desk, n, leader) == Begun(old(desk), event) && WellKept(desk)
      ensures leader <==> event !in old(desk).flights
    {
      if event in desk.flights {
        n := desk.flights[event];
        var flight := desk.cards[n];
        desk := desk.(cards := desk.cards[n := flight.(followers := flight.followers + 1)]);
        leader := false;
      } else {
        n := desk.next;
        desk := desk.(next := n + 1, cards := desk.cards[n := Flight(false, false, None, 0)]);
        desk := desk.(flights := desk.flights[event := n]);
        leader := true;
      }
    }

    method SettleLocked(n: nat, safeAck: bool, failure: Option<Error>)
      modifies this
      ensures desk == Decided(old(desk), n, safeAck, failure)
    {
      if n in desk.cards {
        var flight := desk.cards[n];
        if flight.settled {
          return;
        }
        desk := desk.(cards := desk.cards[n := Flight(true, safeAck, failure, flight.followers)]);
      }
    }

    method EndDelivery(event: Id, n: nat)
      modifies this
      ensures desk == Ended(old(desk), event, n)
    {
      SettleLocked(n, false, None);
      desk := desk.(flights := desk.flights - {event});
    }
  }

  // -------------------------------------------------------------------- slots

  datatype Slot =
    | Idle
    | Leading(event: Id, flight: nat)
    | Following(event: Id, flight: nat)

  /** A follower's acknowledgement of its own receipt. */
  datatype Ack = Ack(slot: nat, event: Id, flight: nat)

  /**
   All slots over one desk. claims records, per flight, what its leader's claim committed;
   settlements counts how often each flight's decision was published; acks the followers' acknowledgements.
   */
  datatype Floor = Floor(desk: Desk, slots: map<nat, Slot>, claims: map<nat, bool>, settlements: map<nat, nat>, acks: set<Ack>)

  datatype Turn =
    | Receive(slot: nat, event: Id)
    | Decide(slot: nat, claim: Reply<ClaimResult>)
    | Finish(slot: nat)
    | Release(slot: nat)
    | Abort(slot: nat)

  function SlotOf(f: Floor, i: nat): Slot {
    if i in f.slots then f.slots[i] else Idle
  }

  function Count(settlements: map<nat, nat>, n: nat): nat {
    if n in settlements then settlements[n] else 0
  }

  /** Publishing counts once per flight that was still open. */
  function Published(f: Floor, n: nat): map<nat, nat> {
    if n in f.desk.cards && !f.desk.cards[n].settled
    then f.settlements[n := Count(f.settlements, n) + 1] else f.settlements
  }

  function SafeClaim(claim: Reply<ClaimResult>): bool {
    claim.Ok? && claim.value.SafeToAcknowledge()
  }

  /** Only the loss of the session is passed on to followers; any other claim error just withholds the receipt. */
  predicate SessionLost(error: Error) {
    error.ErrSessionUnavailable? || error.ErrFenceRejected?
  }

  function PublishedFailure(claim: Reply<ClaimResult>): Option<Error> {
    if claim.Err? && SessionLost(claim.error) then Some(claim.error) else None
  }

  function Step(f: Floor, t: Turn): Floor {
    var slot := SlotOf(f, t.slot);
    match t
    case Receive(i, event) =>
      if !slot.Idle? then f
      else
        var (desk, n, leader) := Begun(f.desk, event);
        f.(desk := desk, slots := f.slots[i := if leader then Leading(event, n) else Following(event, n)])
    case Decide(i, claim) =>
      if !slot.Leading? || slot.flight in f.claims then f
      else
        f.(desk := Decided(f.desk, slot.flight, SafeClaim(claim), PublishedFailure(claim)),
           claims := f.claims[slot.flight := SafeClaim(claim)], settlements := Published(f, slot.flight))
    case Finish(i) =>
      if !slot.Leading? then f
      else
        f.(desk := Ended(f.desk, slot.event, slot.flight), slots := f.slots[i := Idle],
           settlements := Published(f, slot.flight))
    case Release(i) =>
      if !slot.Following? || slot.flight !in f.desk.cards || !f.desk.cards[slot.flight].settled then f
      else
        f.(slots := f.slots[i := Idle],
           acks := if f.desk.cards[slot.flight].safeAck then f.acks + {Ack(i, slot.event, slot.flight)} else f.acks)
    case Abort(i) => if slot.Following? then f.(slots := f.slots[i := Idle]) else f
  }

  predicate Leads(f: Floor, i: nat, event: Id, n: nat) {
    i in f.slots && f.slots[i] == Leading(event, n)
  }

  predicate Follows(f: Floor, i: nat, event: Id, n: nat) {
    i in f.slots && f.slots[i] == Following(event, n)
  }

  predicate InFlight(f: Floor, event: Id, n: nat) {
    event in f.desk.flights && f.desk.flights[event] == n
  }

  predicate Open(f: Floor, n: nat) {
    n in f.desk.cards && !f.desk.cards[n].settled
  }

  /** An event in flight has exactly one leader, and only leaders' events are in flight. */
  ghost predicate Led(f: Floor) {
    && (forall i, e, n :: Leads(f, i, e, n) ==> InFlight(f, e, n))
    && (forall i, k, e, n, m :: Leads(f, i, e, n) && Leads(f, k, e, m) ==> i == k)
    && (forall e, n :: InFlight(f, e, n) ==> exists i :: Leads(f, i, e, n))
    && (forall e, g, n :: InFlight(f, e, n) && InFlight(f, g, n) ==> e == g)
  }

  /** A flight is settled or still in flight, so somebody will settle it for its followers. */
  ghost predicate Watched(f: Floor) {
    && (forall i, e, n :: Follows(f, i, e, n) ==> n in f.desk.cards && (Open(f, n) ==> InFlight(f, e, n)))
    && (forall n :: Open(f, n) ==> exists e :: InFlight(f, e, n))
  }

  /** A decision is published at most once, and only a committed safe disposition permits acknowledging. */
  ghost predicate Accounted(f: Floor) {
    && (forall n :: n in f.desk.cards ==>
          && Count(f.settlements, n) == (if f.desk.cards[n].settled then 1 else 0)
          && (f.desk.cards[n].settled && f.desk.cards[n].safeAck ==> n in f.claims && f.claims[n])
          && (f.desk.cards[n].failure.Some? ==> SessionLost(f.desk.cards[n].failure.value) && !f.desk.cards[n].safeAck))
    && (forall n :: n in f.claims ==> n in f.desk.cards && f.desk.cards[n].settled)
    && (forall n :: n in f.settlements ==> n in f.desk.cards)
    && (forall a :: a in f.acks ==> a.flight in f.claims && f.claims[a.flight])
  }

  ghost predicate Sound(f: Floor) {
    WellKept(f.desk) && Led(f) && Watched(f) && Accounted(f)
  }

  lemma LeaderSound(f: Floor, i: nat, event: Id)
    requires Sound(f) && SlotOf(f, i).Idle? && event !in f.desk.flights
    ensures Sound(Step(f, Receive(i, event)))
  {
    var g, number := Step(f, Receive(i, event)), f.desk.next;
    forall k, e, n ensures Leads(g, k, e, n) <==> Leads(f, k, e, n) || (k == i && e == event && n == number) {}
    forall e, n ensures InFlight(g, e, n) <==> InFlight(f, e, n) || (e == event && n == number) {}
    forall e, n | InFlight(g, e, n) ensures exists k :: Leads(g, k, e, n) {
      if InFlight(f, e, n) {
        var k :| Leads(f, k, e, n);
        assert Leads(g, k, e, n);
      } else {
        assert Leads(g, i, e, n);
      }
    }
    forall k, e, n | Follows(g, k, e, n) ensures n in g.desk.cards && (Open(g, n) ==> InFlight(g, e, n)) {
      assert Follows(f, k, e, n);
      assert Open(g, n) ==> Open(f, n);
    }
    assert InFlight(g, event, number);
    StillInFlight(f, g, number);
  }

  /** Flights open after a turn were open before it, but for the one given, and are in flight as they were. */
  lemma StillInFlight(f: Floor, g: Floor, number: nat)
    requires Watched(f) && forall e, n :: InFlight(f, e, n) && n != number ==> InFlight(g, e, n)
    requires forall n :: Open(g, n) && n != number ==> Open(f, n)
    requires Open(g, number) ==> exists e :: InFlight(g, e, number)
    ensures forall n :: Open(g, n) ==> exists e :: InFlight(g, e, n)
  {
    forall n | Open(g, n) ensures exists e :: InFlight(g, e, n) {
      if n != number {
        var e :| InFlight(f, e, n);
        assert InFlight(g, e, n);
      }
    }
  }

  lemma FollowerSound(f: Floor, i: nat, event: Id)
    requires Sound(f) && SlotOf(f, i).Idle? && event in f.desk.flights
    ensures Sound(Step(f, Receive(i, event)))
  {
    var g, flight := Step(f, Receive(i, event)), f.desk.flights[event];
    forall k, e, n ensures Leads(g, k, e, n) <==> Leads(f, k, e, n) {}
    forall e, n ensures InFlight(g, e, n) <==> InFlight(f, e, n) {}
    forall k, e, n | Follows(g, k, e, n) ensures n in g.desk.cards && (Open(g, n) ==> InFlight(g, e, n)) {
      assert Follows(f, k, e, n) || (e == event && n == flight);
      assert Open(g, n) ==> Open(f, n);
    }
    assert InFlight(g, event, flight);
    StillInFlight(f, g, flight);
  }

  lemma SettleKeeps(f: Floor, g: Floor, n: nat, safeAck: bool, failure: Option<Error>)
    requires Accounted(f) && n in f.desk.cards
    requires g.desk.cards == Settled(f.desk.cards, n, safeAck, failure) && g.settlements == Published(f, n)
    requires g.acks == f.acks && (failure.Some? ==> SessionLost(failure.value) && !safeAck)
    requires (g.claims == f.claims && !safeAck) || (n !in f.claims && g.claims == f.claims[n := safeAck])
    requires forall m :: m in f.acks ==> m.flight in f.claims && f.claims[m.flight]
    ensures Accounted(g)
  {
  }

  lemma DecideSound(f: Floor, i: nat, claim: Reply<ClaimResult>)
    requires Sound(f)
    ensures Sound(Step(f, Decide(i, claim)))
  {
    var g, slot := Step(f, Decide(i, claim)), SlotOf(f, i);
    if slot.Leading? && slot.flight !in f.claims {
      assert Leads(f, i, slot.event, slot.flight);
      SettleKeeps(f, g, slot.flight, SafeClaim(claim), PublishedFailure(claim));
      forall k, e, n ensures Leads(g, k, e, n) <==> Leads(f, k, e, n) {}
      forall e, n ensures InFlight(g, e, n) <==> InFlight(f, e, n) {}
      forall k, e, n | Follows(g, k, e, n) ensures n in g.desk.cards && (Open(g, n) ==> InFlight(g, e, n)) {
        assert Follows(f, k, e, n);
        assert Open(g, n) ==> Open(f, n);
      }
      assert InFlight(g, slot.event, slot.flight);
      StillInFlight(f, g, slot.flight);
    }
  }

  lemma FinishSound(f: Floor, i: nat)
    requires Sound(f)
    ensures Sound(Step(f, Finish(i)))
  {
    var g, slot := Step(f, Finish(i)), SlotOf(f, i);
    if slot.Leading? {
      assert Leads(f, i, slot.event, slot.flight);
      SettleKeeps(f, g, slot.flight, false, None);
      forall k, e, n ensures Leads(g, k, e, n) <==> Leads(f, k, e, n) && k != i {}
      forall e, n ensures InFlight(g, e, n) <==> InFlight(f, e, n) && e != slot.event {}
      forall e, n | InFlight(g, e, n) ensures exists k :: Leads(g, k, e, n) {
        var k :| Leads(f, k, e, n);
        assert Leads(g, k, e, n);
      }
      forall k, e, n | Leads(g, k, e, n) ensures InFlight(g, e, n) {
        assert Leads(f, k, e, n);
      }
      forall k, e, n | Follows(g, k, e, n) ensures n in g.desk.cards && (Open(g, n) ==> InFlight(g, e, n)) {
        assert Follows(f, k, e, n);
        assert Open(g, n) ==> Open(f, n) && n != slot.flight;
      }
      StillInFlight(f, g, slot.flight);
    }
  }

  lemma ReleaseSound(f: Floor, t: Turn)
    requires Sound(f) && (t.Release? || t.Abort?)
    ensures Sound(Step(f, t))
  {
    var g := Step(f, t);
    if SlotOf(f, t.slot).Following? {
      assert Follows(f, t.slot, SlotOf(f, t.slot).event, SlotOf(f, t.slot).flight);
      forall k, e, n ensures Leads(g, k, e, n) <==> Leads(f, k, e, n) {}
      forall e, n ensures InFlight(g, e, n) <==> InFlight(f, e, n) {}
      forall k, e, n | Follows(g, k, e, n) ensures Follows(f, k, e, n) {}
      StillInFlight(f, g, f.desk.next);
    }
  }

  lemma StepSound(f: Floor, t: Turn)
    requires Sound(f)
    ensures Sound(Step(f, t))
  {
    match t
    case Receive(i, event) =>
      if SlotOf(f, i).Idle? {
        if event in f.desk.flights {
          FollowerSound(f, i, event);
        } else {
          LeaderSound(f, i, event);
        }
      }
    case Decide(i, claim) => DecideSound(f, i, claim);
    case Finish(i) => FinishSound(f, i);
    case Release(_) => ReleaseSound(f, t);
    case Abort(_) => ReleaseSound(f, t);
  }

  function Run(f: Floor, turns: seq<Turn>): Floor
    decreases |turns|
  {
    if turns == [] then f else Run(Step(f, turns[0]), turns[1..])
  }

  lemma {:induction false} RunSound(f: Floor, turns: seq<Turn>)
    requires Sound(f)
    ensures Sound(Run(f, turns))
    decreases |turns|
  {
    if turns != [] {
      StepSound(f, turns[0]);
      RunSound(Step(f, turns[0]), turns[1..]);
    }
  }

  const EMPTY := Floor(Desk(map[], map[], 0), map[], map[], map[], {})

  /**
   Under any interleaving of slots: one leader per event, exactly one publication for every flight whose leader
   has finished and at most one before that, a waiting follower always has a leader that will settle its flight,
   and followers acknowledge only what a claim committed as safe.
   */
  lemma DeliveriesAreSafe(turns: seq<Turn>, i: nat, k: nat, e: Id, n: nat, m: nat)
    ensures var f := Run(EMPTY, turns);
            && (Leads(f, i, e, n) && Leads(f, k, e, m) ==> i == k && n == m)
            && Count(f.settlements, n) <= 1
            && (n in f.desk.cards && (forall leader, event :: !Leads(f, leader, event, n)) ==> Count(f.settlements, n) == 1)
            && (Follows(f, i, e, n) && Open(f, n) ==> exists leader :: Leads(f, leader, e, n))
            && (Ack(i, e, n) in f.acks ==> n in f.claims && f.claims[n])
  {
    RunSound(EMPTY, turns);
    var f := Run(EMPTY, turns);
    if Leads(f, i, e, n) && Leads(f, k, e, m) {
      assert InFlight(f, e, n) && InFlight(f, e, m);
    }
    if Follows(f, i, e, n) && Open(f, n) {
      assert InFlight(f, e, n);
    }
    if Open(f, n) {
      var event :| InFlight(f, event, n);
      var leader :| Leads(f, leader, event, n);
    }
  }

  /** The leader's end releases every follower of its flight, decided or not. */
  lemma FinishReleasesFollowers(f: Floor, leader: nat, i: nat, e: Id, n: nat)
    requires Sound(f) && Leads(f, leader, e, n) && Follows(f, i, e, n)
    ensures SlotOf(Step(Step(f, Finish(leader)), Release(i)), i).Idle?
  {
    assert n in f.desk.cards;
  }

  predicate SettledAs(d: Desk, n: nat, safeAck: bool) {
    n in d.cards && d.cards[n].settled && d.cards[n].safeAck == safeAck
  }

  lemma StepKeepsDecision(f: Floor, t: Turn, n: nat, safeAck: bool)
    requires WellKept(f.desk) && SettledAs(f.desk, n, safeAck)
    ensures SettledAs(Step(f, t).desk, n, safeAck)
  {
  }

  /** Once published, a decision is what every follower reads from then on. */
  lemma {:induction false} DecisionIsFinal(f: Floor, turns: seq<Turn>, n: nat, safeAck: bool)
    requires Sound(f) && SettledAs(f.desk, n, safeAck)
    ensures SettledAs(Run(f, turns).desk, n, safeAck)
    decreases |turns|
  {
    if turns != [] {
      StepSound(f, turns[0]);
      StepKeepsDecision(f, turns[0], n, safeAck);
      DecisionIsFinal(Step(f, turns[0]), turns[1..], n, safeAck);
    }
  }

  // -------------------------------------------------------------- what is passed on

  /** The leader's first decision publishes exactly what its claim said: whether the receipt is safe, and only a lost session as an error. */
  lemma DecisionIsPublished(f: Floor, i: nat, e: Id, n: nat, claim: Reply<ClaimResult>)
    requires Leads(f, i, e, n) && Open(f, n) && n !in f.claims
    ensures var g := Step(f, Decide(i, claim));
            && n in g.desk.cards && g.desk.cards[n].settled
            && (g.desk.cards[n].safeAck <==> claim.Ok? && claim.value.SafeToAcknowledge())
            && g.desk.cards[n].failure ==
               (if claim == Err(ErrSessionUnavailable) || claim == Err(ErrFenceRejected) then Some(claim.error) else None)
  {
  }

  /** A follower leaves exactly once its flight is settled, and acknowledges its own receipt exactly if that is safe. */
  lemma FollowerLeavesExactly(f: Floor, i: nat, e: Id, n: nat)
    requires Follows(f, i, e, n) && n in f.desk.cards
    ensures var g := Step(f, Release(i));
            && (SlotOf(g, i).Idle? <==> f.desk.cards[n].settled)
            && g.acks == if f.desk.cards[n].settled && f.desk.cards[n].safeAck then f.acks + {Ack(i, e, n)} else f.acks
  {
  }

  /** A slot that receives an event while it is in flight follows the leader's flight; otherwise it leads a new one. */
  lemma ReceiveLeadsOrFollows(f: Floor, i: nat, e: Id)
    requires Sound(f) && SlotOf(f, i).Idle?
    ensures var g := Step(f, Receive(i, e));
            if e in f.desk.flights then Follows(g, i, e, f.desk.flights[e])
            else Leads(g, i, e, f.desk.next) && Open(g, f.desk.next)
  {
  }
}
