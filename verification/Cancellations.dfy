/**
 The worker's registry of executing attempts. Each operation is one critical section; the cancel
 function it decided on is called after the lock is released, so the calls themselves interleave.
 */
module Cancellations {
  import opened Base
  import opened Schema
  import opened Transactions

  /** Identifies one cancel function; each handler or upload context has its own. */
  type CancelFunc = nat

  datatype Entry = Entry(fence: Fence, cancel: Option<CancelFunc>, canceled: bool)

  type Entries = map<Id, Entry>

  predicate Matches(e: Entry, d: Directive) {
    e.fence.lease == d.lease && e.fence.job == d.job
  }

  function Bound(entries: Entries, attempt: Id, cancel: CancelFunc): Entries {
    if attempt in entries then entries[attempt := entries[attempt].(cancel := Some(cancel))] else entries
  }

  function Delivered(entries: Entries, d: Directive): Entries {
    if d.attempt in entries && Matches(entries[d.attempt], d)
    then entries[d.attempt := entries[d.attempt].(canceled := true)] else entries
  }

  // ------------------------------------------------------------ interleavings

  /**
   The registry, the calls decided but not yet made, and the calls made, each with the fence it is for.
   The rest is history: which fence a function was bound under and which fences a directive named.
   */
  datatype Worker = Worker(
    entries: Entries, due: map<CancelFunc, Fence>, made: map<CancelFunc, Fence>,
    boundTo: map<CancelFunc, Fence>, condemned: set<Fence>)

  datatype Action =
    | RegisterAttempt(fence: Fence)
    | BindCancel(attempt: Id, cancel: CancelFunc)
    | DeliverDirective(directive: Directive)
    | MakeCall(cancel: CancelFunc)
    | UnregisterAttempt(attempt: Id)

  /** Every context has a cancel function of its own. */
  predicate Possible(w: Worker, a: Action) {
    a.BindCancel? ==> a.cancel !in w.boundTo
  }

  function Due(w: Worker, call: Option<CancelFunc>, fence: Fence): map<CancelFunc, Fence> {
    if call.Some? then w.due[call.value := fence] else w.due
  }

  function Next(w: Worker, a: Action): Worker {
    match a
    case RegisterAttempt(fence) => w.(entries := w.entries[fence.attempt := Entry(fence, None, false)])
    case BindCancel(attempt, cancel) =>
      if attempt !in w.entries then w
      else
        var e := w.entries[attempt];
        w.(entries := Bound(w.entries, attempt, cancel), boundTo := w.boundTo[cancel := e.fence],
           due := Due(w, if e.canceled then Some(cancel) else None, e.fence))
    case DeliverDirective(d) =>
      if d.attempt !in w.entries || !Matches(w.entries[d.attempt], d) then w
      else
        var e := w.entries[d.attempt];
        w.(entries := Delivered(w.entries, d), due := Due(w, e.cancel, e.fence), condemned := w.condemned + {e.fence})
    case MakeCall(cancel) =>
      if cancel !in w.due then w
      else w.(due := w.due - {cancel}, made := w.made[cancel := w.due[cancel]])
    case UnregisterAttempt(attempt) => w.(entries := w.entries - {attempt})
  }

  predicate CalledOrDue(w: Worker, cancel: CancelFunc) {
    cancel in w.due || cancel in w.made
  }

  ghost predicate Sound(w: Worker) {
    && (forall a :: a in w.entries ==> w.entries[a].fence.attempt == a)
    && (forall a :: a in w.entries && w.entries[a].cancel.Some? ==>
          w.entries[a].cancel.value in w.boundTo && w.boundTo[w.entries[a].cancel.value] == w.entries[a].fence)
    && (forall a :: a in w.entries && w.entries[a].canceled ==>
          && w.entries[a].fence in w.condemned
          && (w.entries[a].cancel.Some? ==> CalledOrDue(w, w.entries[a].cancel.value)))
    && (forall c :: c in w.due ==> c in w.boundTo && w.boundTo[c] == w.due[c] && w.due[c] in w.condemned)
    && (forall c :: c in w.made ==> c in w.boundTo && w.boundTo[c] == w.made[c] && w.made[c] in w.condemned)
  }

  lemma NextSound(w: Worker, a: Action)
    requires Sound(w) && Possible(w, a)
    ensures Sound(Next(w, a))
  {
  }

  function Run(w: Worker, actions: seq<Action>): Worker
    decreases |actions|
  {
    if actions == [] then w else Run(Next(w, actions[0]), actions[1..])
  }

  predicate AllPossible(w: Worker, actions: seq<Action>)
    decreases |actions|
  {
    actions != [] ==> Possible(w, actions[0]) && AllPossible(Next(w, actions[0]), actions[1..])
  }

  lemma {:induction false} RunSound(w: Worker, actions: seq<Action>)
    requires Sound(w) && AllPossible(w, actions)
    ensures Sound(Run(w, actions))
    decreases |actions|
  {
    if actions != [] {
      NextSound(w, actions[0]);
      RunSound(Next(w, actions[0]), actions[1..]);
    }
  }

  /**
   Whatever the order of registration, directive and binding: a canceled attempt's latest cancel
   function has been called or its call is under way, and a function is only ever called for the
   fence it was bound under, after a directive named exactly that job, attempt and lease.
   */
  lemma DirectiveIsNeverLost(actions: seq<Action>, a: Id, c: CancelFunc)
    requires AllPossible(Worker(map[], map[], map[], map[], {}), actions)
    ensures var w := Run(Worker(map[], map[], map[], map[], {}), actions);
            && (a in w.entries && w.entries[a].canceled && w.entries[a].cancel == Some(c) ==> CalledOrDue(w, c))
            && (CalledOrDue(w, c) ==> c in w.boundTo && w.boundTo[c] in w.condemned)
  {
    RunSound(Worker(map[], map[], map[], map[], {}), actions);
  }

  /** A directive and a binding meet in either order: after both, the bound function is called or due. */
  lemma EitherOrderCancels(w: Worker, fence: Fence, c: CancelFunc)
    requires Sound(w) && c !in w.boundTo
    ensures var d := DeliverDirective(Directive(fence.job, fence.attempt, fence.lease));
            var b := BindCancel(fence.attempt, c);
            var start := Next(w, RegisterAttempt(fence));
            CalledOrDue(Next(Next(start, d), b), c) && CalledOrDue(Next(Next(start, b), d), c)
  {
  }

  /** A directive for another lease or job of the attempt leaves everything as it is. */
  lemma ForeignDirectiveIsIgnored(w: Worker, d: Directive)
    requires d.attempt in w.entries ==> w.entries[d.attempt].fence.lease != d.lease || w.entries[d.attempt].fence.job != d.job
    ensures Next(w, DeliverDirective(d)) == w
  {
  }

  // ----------------------------------------------------------------- registry

  /**
   The registry itself. The ghost worker is the interleaving model's view of it; every critical
   section takes exactly the model's step, so what holds over all its runs holds of this object.
   */
  class AttemptRegistry {
    var entries: Entries
    ghost var worker: Worker

    ghost predicate Consistent()
      reads this
    {
      entries == worker.entries && Sound(worker)
    }

    constructor ()
      ensures Consistent() && worker == Worker(map[], map[], map[], map[], {})
    {
      entries := map[];
      worker := Worker(map[], map[], map[], map[], {});
    }

    method Register(fence: Fence)
      requires Consistent()
      modifies this
      ensures Consistent() && worker == Next(old(worker), RegisterAttempt(fence))
    {
      NextSound(worker, RegisterAttempt(fence));
      worker := Next(worker, RegisterAttempt(fence));
      entries := entries[fence.attempt := Entry(fence, None, false)];
    }

    /** Attaches the cancel function; an earlier directive means it must be called at once. */
    method Bind(attempt: Id, cancel: CancelFunc) returns (call: Option<CancelFunc>)
      requires Consistent() && cancel !in worker.boundTo
      modifies this
      ensures Consistent() && worker == Next(old(worker), BindCancel(attempt, cancel))
      ensures call.Some? <==> attempt in old(entries) && old(entries)[attempt].canceled
      ensures call.Some? ==> call.value == cancel && cancel in worker.due
    {
      NextSound(worker, BindCancel(attempt, cancel));
      worker := Next(worker, BindCancel(attempt, cancel));
      if attempt !in entries {
        return None;
      }
      var entry := entries[attempt];
      entries := entries[attempt := entry.(cancel := Some(cancel))];
      var pending := entry.canceled;
      return if pending then Some(cancel) else None;
    }

    /** Applies a directive; a stale one for another lease or job changes nothing. */
    method Deliver(d: Directive) returns (first: bool, call: Option<CancelFunc>)
      requires Consistent()
      modifies this
      ensures Consistent() && worker == Next(old(worker), DeliverDirective(d))
      ensures first <==> d.attempt in old(entries) && Matches(old(entries)[d.attempt], d) && !old(entries)[d.attempt].canceled
      ensures call == if d.attempt in old(entries) && Matches(old(entries)[d.attempt], d)
                      then old(entries)[d.attempt].cancel else None
      ensures call.Some? ==> call.value in worker.due
    {
      ghost var before := worker;
      NextSound(before, DeliverDirective(d));
      worker := Next(before, DeliverDirective(d));
      if d.attempt !in entries {
        return false, None;
      }
      var entry := entries[d.attempt];
      if entry.fence.lease != d.lease || entry.fence.job != d.job {
        ForeignDirectiveIsIgnored(before, d);
        return false, None;
      }
      first := !entry.canceled;
      entries := entries[d.attempt := entry.(canceled := true)];
      call := entry.cancel;
    }

    /** What a caller does with the function it was handed, after the lock is released. */
    method Call(cancel: CancelFunc)
      requires Consistent() && cancel in worker.due
      modifies this
      ensures Consistent() && worker == Next(old(worker), MakeCall(cancel)) && cancel in worker.made
    {
      NextSound(worker, MakeCall(cancel));
      worker := Next(worker, MakeCall(cancel));
    }

    method Unregister(attempt: Id)
      requires Consistent()
      modifies this
      ensures Consistent() && worker == Next(old(worker), UnregisterAttempt(attempt))
    {
      NextSound(worker, UnregisterAttempt(attempt));
      worker := Next(worker, UnregisterAttempt(attempt));
      entries := entries - {attempt};
    }

    /** A yes means that a directive named this attempt's fence and that its function was or is being called. */
    method WasCanceled(attempt: Id) returns (canceled: bool)
      requires Consistent()
      ensures canceled ==>
                && attempt in entries && entries[attempt].fence in worker.condemned
                && (entries[attempt].cancel.Some? ==> CalledOrDue(worker, entries[attempt].cancel.value))
      ensures !canceled && attempt in entries ==> !entries[attempt].canceled
    {
      canceled := attempt in entries && entries[attempt].canceled;
    }
  }
}
