/**
 The worker's heartbeat loop against the control plane. The server counts a session's silence from the
 receipt of its last heartbeat, the worker from the moment it heard the answer, so the worker can take
 itself for alive longer than the server does, by exactly the delay of that answer.
 */
module Heartbeats {
  import opened Schema
  import opened Transactions
  import opened Invariants
  import opened Steps
  import opened History
  import Deliveries

  /** The answer to one call; a confirmation remembers when the server recorded the heartbeat. */
  datatype Answer = Confirmed(call: nat, at: Time) | Refused(call: nat, error: Error)

  /**
   The loop, the database, and the network between them, which loses, delays and repeats. receipt is the
   server time that the last confirmation stands for; idleSince is when the loop last went back to its ticker.
   */
  datatype Pulse = Pulse(
    db: State, offset: int, threshold: nat, interval: nat,
    lastConfirmed: Time, receipt: Time, heard: bool,
    startedAt: Time, idleSince: Time, calls: nat, open: bool, stopped: bool,
    requests: set<nat>, answers: set<Answer>)
  {
    function WorkerNow(): Time {
      db.now + offset
    }

    function StaleAt(): Time {
      lastConfirmed + threshold
    }

    /** How much later the worker heard the last confirmation than the server recorded it. */
    function Lag(): int {
      lastConfirmed - offset - receipt
    }
  }

  datatype Event =
    | Other(step: Step)
    | Beat
    | Serve(call: nat)
    | Hear(answer: Answer)
    | GiveUp

  /** The ticker fires within its interval, a call ends at its deadline, and the network invents nothing. */
  ghost predicate Possible(k: Pulse, e: Event) {
    match e
    case Other(step) =>
      !k.stopped ==> Apply(k.db, step).now + k.offset <= if k.open then k.StaleAt() else k.idleSince + k.interval
    case Beat => !k.open && !k.stopped
    case Serve(call) => call in k.requests
    case Hear(answer) => k.open && !k.stopped && answer in k.answers && answer.call == k.calls
    case GiveUp => k.open && !k.stopped
  }

  function BeginBeat(k: Pulse): Pulse {
    if k.StaleAt() <= k.WorkerNow() then k.(stopped := true)
    else k.(open := true, startedAt := k.WorkerNow(), calls := k.calls + 1, requests := k.requests + {k.calls + 1})
  }

  ghost function ServeBeat(k: Pulse, scope: Name, worker: Id, session: Id, call: nat): Pulse {
    var done := Heartbeat(k.db, scope, worker, session);
    k.(db := done.0, answers := k.answers + {if done.1.Ok? then Confirmed(call, k.db.now) else Refused(call, done.1.error)})
  }

  /** The call is over without a confirmation. */
  function Unconfirmed(k: Pulse, lost: bool): Pulse {
    k.(open := false, idleSince := k.WorkerNow(), stopped := lost || k.StaleAt() <= k.WorkerNow())
  }

  /** A confirmation at or after the window it was racing proves nothing. */
  function HearAnswer(k: Pulse, answer: Answer): Pulse {
    match answer
    case Refused(_, error) => Unconfirmed(k, Deliveries.SessionLost(error))
    case Confirmed(_, at) =>
      if k.StaleAt() <= k.WorkerNow() then k.(open := false, stopped := true)
      else k.(open := false, idleSince := k.WorkerNow(), lastConfirmed := k.WorkerNow(), receipt := at, heard := true)
  }

  ghost function Next(k: Pulse, scope: Name, worker: Id, session: Id, e: Event): Pulse {
    match e
    case Other(step) => k.(db := Apply(k.db, step))
    case Beat => BeginBeat(k)
    case Serve(call) => ServeBeat(k, scope, worker, session, call)
    case Hear(answer) => HearAnswer(k, answer)
    case GiveUp => Unconfirmed(k, false)
  }

  // ----------------------------------------------------------------- invariant

  /** A confirmation stands for a heartbeat that the row has recorded, received after its call began. */
  predicate AnswerFits(k: Pulse, a: Answer, row: Session) {
    && a.call <= k.calls
    && (a.Confirmed? ==> a.at <= k.db.now && a.at <= row.lastHeartbeatAt)
    && (a.Confirmed? && a.call == k.calls && k.open ==> k.startedAt - k.offset <= a.at)
  }

  /** A running loop is within its window while it waits for an answer, and within an interval of it while idle. */
  predicate OnTime(k: Pulse) {
    if k.open then k.startedAt <= k.WorkerNow() <= k.StaleAt() && k.lastConfirmed <= k.startedAt < k.StaleAt()
    else k.idleSince < k.StaleAt() && k.idleSince <= k.WorkerNow() <= k.idleSince + k.interval
  }

  ghost predicate Sound(k: Pulse, session: Id) {
    && Valid(k.db) && session in k.db.sessions
    && k.receipt <= k.db.sessions[session].lastHeartbeatAt && 0 <= k.Lag() && k.lastConfirmed <= k.WorkerNow()
    && (k.heard ==> k.Lag() < k.threshold) && 1 <= k.interval && 1 <= k.threshold
    && (if k.stopped then !k.open else OnTime(k))
    && (forall c :: c in k.requests ==> c <= k.calls)
    && (forall a :: a in k.answers ==> AnswerFits(k, a, k.db.sessions[session]))
  }

  lemma TimeAndRowsGrow(s: State, step: Step, session: Id)
    requires Valid(s) && session in s.sessions
    ensures var t := Apply(s, step);
            && Valid(t) && session in t.sessions && s.now <= t.now
            && s.sessions[session].lastHeartbeatAt <= t.sessions[session].lastHeartbeatAt
  {
    StepValid(s, step);
    StepExtends(s, step);
    assert Grows(Settings, s, Apply(s, step)) && Grows(WorkerSessions, s, Apply(s, step));
  }

  lemma OtherSound(k: Pulse, session: Id, step: Step)
    requires Sound(k, session) && Possible(k, Other(step))
    ensures Sound(k.(db := Apply(k.db, step)), session)
  {
    TimeAndRowsGrow(k.db, step, session);
  }

  lemma ServeSound(k: Pulse, scope: Name, worker: Id, session: Id, call: nat)
    requires Sound(k, session) && Possible(k, Serve(call))
    ensures Sound(ServeBeat(k, scope, worker, session, call), session)
  {
    TimeAndRowsGrow(k.db, HeartbeatStep(scope, worker, session), session);
  }

  lemma HearSound(k: Pulse, session: Id, answer: Answer)
    requires Sound(k, session) && Possible(k, Hear(answer))
    ensures Sound(HearAnswer(k, answer), session)
  {
    assert AnswerFits(k, answer, k.db.sessions[session]);
  }

  lemma NextSound(k: Pulse, scope: Name, worker: Id, session: Id, e: Event)
    requires Sound(k, session) && Possible(k, e)
    ensures Sound(Next(k, scope, worker, session, e), session)
  {
    match e
    case Other(step) => OtherSound(k, session, step);
    case Beat =>
    case Serve(call) => ServeSound(k, scope, worker, session, call);
    case Hear(answer) => HearSound(k, session, answer);
    case GiveUp =>
  }

  // ------------------------------------------------------------------ all runs

  ghost function RunPulse(k: Pulse, scope: Name, worker: Id, session: Id, events: seq<Event>): Pulse
    decreases |events|
  {
    if events == [] then k else RunPulse(Next(k, scope, worker, session, events[0]), scope, worker, session, events[1..])
  }

  ghost predicate AllPossible(k: Pulse, scope: Name, worker: Id, session: Id, events: seq<Event>)
    decreases |events|
  {
    events != [] ==>
      Possible(k, events[0]) && AllPossible(Next(k, scope, worker, session, events[0]), scope, worker, session, events[1..])
  }

  lemma {:induction false} RunSound(k: Pulse, scope: Name, worker: Id, session: Id, events: seq<Event>)
    requires Sound(k, session) && AllPossible(k, scope, worker, session, events)
    ensures Sound(RunPulse(k, scope, worker, session, events), session)
    decreases |events|
  {
    if events != [] {
      NextSound(k, scope, worker, session, events[0]);
      RunSound(Next(k, scope, worker, session, events[0]), scope, worker, session, events[1..]);
    }
  }

  /** The loop starts some time after the registration, which was the session's first heartbeat. */
  ghost predicate Fresh(k: Pulse, session: Id) {
    && Valid(k.db) && session in k.db.sessions && k.receipt == k.db.sessions[session].lastHeartbeatAt <= k.db.now
    && k.lastConfirmed == k.idleSince == k.WorkerNow() && 1 <= k.interval && 1 <= k.threshold
    && !k.heard && !k.open && !k.stopped && k.requests == {} && k.answers == {}
  }

  /**
   However the loop, the network and the system interleave: a loop that still runs is less than the threshold,
   one interval and the last answer's delay past a heartbeat that the server has recorded, and once it has heard
   an answer that delay is below the threshold. So a server whose threshold is at least that sum never fences it.
   */
  lemma RunningLoopIsFresh(k: Pulse, scope: Name, worker: Id, session: Id, events: seq<Event>, staleAfter: int)
    requires Fresh(k, session) && AllPossible(k, scope, worker, session, events)
    ensures var n := RunPulse(k, scope, worker, session, events);
            && session in n.db.sessions && n.receipt <= n.db.sessions[session].lastHeartbeatAt
            && 0 <= n.Lag() && (n.heard ==> n.Lag() < n.threshold)
            && (!n.stopped ==> n.db.now < n.receipt + n.threshold + n.interval + n.Lag())
            && (!n.stopped && n.threshold + n.interval + n.Lag() <= staleAfter ==> !MarkSessionStale(n.db, session, staleAfter).1)
  {
    RunSound(k, scope, worker, session, events);
  }

  /** After that much more silence within the open call's deadline, the server's scan fences the session. */
  ghost predicate FencedAfter(k: Pulse, session: Id, staleAfter: int, elapsed: nat) {
    && Possible(k, Other(TickStep(elapsed)))
    && MarkSessionStale(Apply(k.db, TickStep(elapsed)), session, staleAfter).1
  }

  lemma FencedAfterMeans(k: Pulse, session: Id, staleAfter: int, elapsed: nat)
    requires k.open && !k.stopped && session in k.db.sessions && k.db.sessions[session].status.Current()
    ensures FencedAfter(k, session, staleAfter, elapsed) <==>
            && k.WorkerNow() + elapsed <= k.StaleAt()
            && k.db.sessions[session].lastHeartbeatAt < k.db.now + elapsed - staleAfter
  {
  }

  /**
   The bound is exact where nothing more is heard: a waiting loop can be fenced while it takes itself for alive
   exactly if the server's threshold is below the worker's plus the delay of the last answer.
   */
  lemma FencedWhileAliveExactly(k: Pulse, session: Id, staleAfter: int)
    requires Sound(k, session) && k.open && !k.stopped
    requires k.db.sessions[session].status.Current() && k.db.sessions[session].lastHeartbeatAt == k.receipt
    ensures (exists elapsed: nat :: FencedAfter(k, session, staleAfter, elapsed)) <==> staleAfter < k.threshold + k.Lag()
  {
    var longest: nat := k.StaleAt() - k.WorkerNow();
    FencedAfterMeans(k, session, staleAfter, longest);
    if elapsed: nat :| FencedAfter(k, session, staleAfter, elapsed) {
      FencedAfterMeans(k, session, staleAfter, elapsed);
    }
  }

  /** Every delay short of the window occurs: the answer may take that long, and the loop trusts it in full. */
  lemma DelayBecomesLag(k: Pulse, scope: Name, worker: Id, session: Id, delay: nat)
    requires Sound(k, session) && k.open && !k.stopped && k.calls in k.requests && k.WorkerNow() + delay < k.StaleAt()
    requires Heartbeat(k.db, scope, worker, session).1.Ok?
    ensures var events := [Serve(k.calls), Other(TickStep(delay)), Hear(Confirmed(k.calls, k.db.now))];
            && AllPossible(k, scope, worker, session, events)
            && RunPulse(k, scope, worker, session, events).Lag() == delay && !RunPulse(k, scope, worker, session, events).stopped
  {
    var late, heard := Other(TickStep(delay)), Hear(Confirmed(k.calls, k.db.now));
    var a := Next(k, scope, worker, session, Serve(k.calls));
    var b := Next(a, scope, worker, session, late);
    var c := Next(b, scope, worker, session, heard);
    assert Possible(k, Serve(k.calls)) && Possible(a, late) && Possible(b, heard) && c.Lag() == delay && !c.stopped;
    RunThree(k, scope, worker, session, Serve(k.calls), late, heard);
  }

  lemma RunThree(k: Pulse, scope: Name, worker: Id, session: Id, d: Event, e: Event, f: Event)
    ensures var a := Next(k, scope, worker, session, d);
            var b := Next(a, scope, worker, session, e);
            && RunPulse(k, scope, worker, session, [d, e, f]) == Next(b, scope, worker, session, f)
            && (Possible(k, d) && Possible(a, e) && Possible(b, f) ==> AllPossible(k, scope, worker, session, [d, e, f]))
  {
    var a := Next(k, scope, worker, session, d);
    var b := Next(a, scope, worker, session, e);
    var c := Next(b, scope, worker, session, f);
    assert [d, e, f][1..] == [e, f] && [e, f][1..] == [f] && [f][1..] == [];
    assert RunPulse(c, scope, worker, session, []) == c && AllPossible(c, scope, worker, session, []);
    assert RunPulse(b, scope, worker, session, [f]) == c;
    assert RunPulse(a, scope, worker, session, [e, f]) == c;
  }
}
