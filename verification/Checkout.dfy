/**
  `POST /orders/` end to end (apps/orders/views.py): the key protocol around a row-locking order
  transaction, for any number of interleaved requests. `complete` runs before the request's
  transaction commits (ATOMIC_REQUESTS), so a completed response can still lose its commit.
*/
module Checkout {
  import opened Orders
  import opened Concurrency
  import opened Idempotency

  /** The serialized order in a 201 response. */
  datatype Body = Body(id: OrderId, order: Order)

  /** A request that carries an Idempotency-Key: its cache key and the order it wants placed. */
  datatype Call = Call(key: string, place: Request)

  datatype Reply =
    | Created(body: Body)   // 201, transaction committed
    | Lost(body: Body)      // completed, then the commit failed or the process died: it will roll back
    | Replayed(body: Body)  // the cached response
    | Conflict              // 409
    | Failed                // an error response, or a crash before `complete`: it will roll back

  datatype Phase =
    | Arrived                     // before cache.get
    | Missed                      // get found nothing; before cache.add
    | Proceeding(deadline: nat)   // the handler runs; `deadline` is when its cache entry expires
    | Completed(body: Body)       // after `complete`, before the commit
    | Answered(reply: Reply)

  datatype World = World(
    sys: Sys,
    slots: Slots<Body>,
    now: nat,
    calls: map<TxnId, Call>,
    phase: map<TxnId, Phase>)

  datatype Event =
    | Tick(seconds: nat)
    | Arrive(r: TxnId, call: Call)
    | ReadCache(r: TxnId)   // cache.get
    | AddCache(r: TxnId)    // cache.add
    | Database(step: Step)  // a database step of the handler, or of any other request
    | Complete(r: TxnId)    // cache.set
    | Finish(r: TxnId)      // the request's transaction commits
    | Lose(r: TxnId)        // it does not
    | Abandon(r: TxnId)     // cache.delete, after the handler raised; its transaction may still be open
    | Crash(r: TxnId)       // the process dies before `complete`

  /** The request's transaction has done all its operations. */
  predicate Ready(w: World, r: TxnId) {
    r in w.calls && Enabled(w.sys, CommitTxn(r)) && w.calls[r].place.id in View(w.sys, r).orders
  }

  function BodyOf(w: World, r: TxnId): Body
    requires Ready(w, r)
  {
    Body(w.calls[r].place.id, View(w.sys, r).orders[w.calls[r].place.id])
  }

  predicate In(w: World, r: TxnId, phase: Phase) {
    r in w.calls && r in w.phase && w.phase[r] == phase
  }

  predicate Proceeds(w: World, r: TxnId) {
    r in w.calls && r in w.phase && w.phase[r].Proceeding?
  }

  /** The request is over without a commit; if its transaction is still open, all it can do is roll back. */
  predicate Fails(w: World, r: TxnId) {
    r in w.calls && r in w.phase && w.phase[r].Answered? && (w.phase[r].reply.Failed? || w.phase[r].reply.Lost?)
  }

  predicate May(w: World, e: Event) {
    match e
    case Tick(_) => true
    case Arrive(r, call) => r !in w.calls && r !in w.sys.used && call.place.Place?
    case ReadCache(r) => In(w, r, Arrived)
    case AddCache(r) => In(w, r, Missed)
    case Database(step) =>
      && Enabled(w.sys, step)
      && (step.t in w.calls ==>
            || (Proceeds(w, step.t) && !step.CommitTxn? && (step.Begin? ==> step.req == w.calls[step.t].place))
            || (Fails(w, step.t) && step.Abort?))
    case Complete(r) => Proceeds(w, r) && Ready(w, r)
    case Finish(r) => r in w.calls && r in w.phase && w.phase[r].Completed? && Enabled(w.sys, CommitTxn(r))
    case Lose(r) => r in w.calls && r in w.phase && w.phase[r].Completed?
    case Abandon(r) => Proceeds(w, r)
    case Crash(r) => r in w.calls && r in w.phase && !w.phase[r].Completed? && !w.phase[r].Answered?
  }

  function Do(w: World, e: Event): World
    requires May(w, e)
  {
    match e
    case Tick(seconds) => w.(now := w.now + seconds)
    case Arrive(r, call) => w.(calls := w.calls[r := call], phase := w.phase[r := Arrived])
    case ReadCache(r) =>
      var next := match Get(w.slots, w.now, w.calls[r].key)
        case None => Missed
        case Some(InProgress) => Answered(Conflict)
        case Some(Done(body)) => Answered(Replayed(body));
      w.(phase := w.phase[r := next])
    case AddCache(r) =>
      if Live(w.slots, w.now, w.calls[r].key) then w.(phase := w.phase[r := Answered(Conflict)])
      else w.(slots := Added(w.slots, w.now, w.calls[r].key, InProgress, LOCK_TTL_SECONDS),
              phase := w.phase[r := Proceeding(w.now + LOCK_TTL_SECONDS)])
    case Database(step) => w.(sys := Next(w.sys, step))
    case Complete(r) =>
      w.(slots := Put(w.slots, w.now, w.calls[r].key, Done(BodyOf(w, r)), RESULT_TTL_SECONDS),
         phase := w.phase[r := Completed(BodyOf(w, r))])
    case Finish(r) => w.(sys := Next(w.sys, CommitTxn(r)), phase := w.phase[r := Answered(Created(w.phase[r].body))])
    case Lose(r) => w.(phase := w.phase[r := Answered(Lost(w.phase[r].body))])
    case Abandon(r) => w.(slots := w.slots - {w.calls[r].key}, phase := w.phase[r := Answered(Failed)])
    case Crash(r) => w.(phase := w.phase[r := Answered(Failed)])
  }

  function Start(db: DB): World {
    World(Opening(db), map[], 0, map[], map[])
  }

  /**
    The protocol's own assumption, `_LOCK_TTL_SECONDS` being "a generous upper bound on how long
    one request may take": a handler is over before its cache entry expires.
  */
  ghost predicate Timely(w: World) {
    forall r | Proceeds(w, r) :: w.now < w.phase[r].deadline
  }

  /** Nothing of this key has outlived the replay window. */
  predicate InWindow(w: World, key: string) {
    key in w.slots && w.slots[key].entry.Done? ==> w.now < w.slots[key].expires
  }

  /** The events can happen one after the other, however long a handler takes. */
  ghost predicate Legal(w: World, events: seq<Event>)
    decreases |events|, 0
  {
    events == [] || (Legal(w, events[..|events| - 1]) && May(WorldAfter(w, events[..|events| - 1]), events[|events| - 1]))
  }

  ghost function WorldAfter(w: World, events: seq<Event>): World
    requires Legal(w, events)
    decreases |events|, 1
  {
    if events == [] then w else Do(WorldAfter(w, events[..|events| - 1]), events[|events| - 1])
  }

  /** And every handler is in time throughout. */
  ghost predicate ValidWorld(w: World, events: seq<Event>)
    decreases |events|
  {
    && Legal(w, events)
    && Timely(WorldAfter(w, events))
    && (events != [] ==> ValidWorld(w, events[..|events| - 1]))
  }

  ghost predicate StaysInWindow(w: World, events: seq<Event>, key: string)
    requires Legal(w, events)
    decreases |events|
  {
    && InWindow(WorldAfter(w, events), key)
    && (events != [] ==> StaysInWindow(w, events[..|events| - 1], key))
  }

  lemma EventExtends(w: World, events: seq<Event>, e: Event)
    requires Legal(w, events) && May(WorldAfter(w, events), e)
    ensures Legal(w, events + [e])
    ensures WorldAfter(w, events + [e]) == Do(WorldAfter(w, events), e)
    ensures ValidWorld(w, events) && Timely(Do(WorldAfter(w, events), e)) ==> ValidWorld(w, events + [e])
    ensures forall key | StaysInWindow(w, events, key) && InWindow(Do(WorldAfter(w, events), e), key) ::
      StaysInWindow(w, events + [e], key)
  {
    assert (events + [e])[..|events + [e]| - 1] == events;
  }

  // ---------------------------------------------------------------- mutual exclusion

  /** At most one request of the key is between "proceed" and its `complete` or `abandon`. */
  ghost predicate Apart(w: World, key: string) {
    forall r, q | ProceedsFor(w, r, key) && ProceedsFor(w, q, key) :: r == q
  }

  predicate ProceedsFor(w: World, r: TxnId, key: string) {
    Proceeds(w, r) && w.calls[r].key == key
  }

  /** And while it is, the key's cache entry is its own. */
  ghost predicate Exclusive(w: World, key: string) {
    && Apart(w, key)
    && (forall r | ProceedsFor(w, r, key) :: key in w.slots && w.slots[key] == Slot(InProgress, w.phase[r].deadline))
  }

  /** The event is an `add` for the key beside a handler of the key that has outlived its entry. */
  ghost predicate AddsBeside(w: World, e: Event, key: string) {
    && e.AddCache? && In(w, e.r, Missed) && w.calls[e.r].key == key
    && exists r :: ProceedsFor(w, r, key) && w.phase[r].deadline <= w.now
  }

  ghost predicate NeverBeside(w: World, events: seq<Event>, key: string)
    requires Legal(w, events)
    decreases |events|
  {
    events == [] ||
    (var shorter := events[..|events| - 1];
     NeverBeside(w, shorter, key) && !AddsBeside(WorldAfter(w, shorter), events[|events| - 1], key))
  }

  ghost predicate AlwaysApart(w: World, events: seq<Event>, key: string)
    requires Legal(w, events)
    decreases |events|
  {
    Apart(WorldAfter(w, events), key) && (events != [] ==> AlwaysApart(w, events[..|events| - 1], key))
  }

  lemma StepKeepsExclusive(w: World, e: Event, key: string)
    requires Exclusive(w, key) && May(w, e)
    ensures Apart(Do(w, e), key) <==> !AddsBeside(w, e, key)
    ensures Apart(Do(w, e), key) ==> Exclusive(Do(w, e), key)
  {
    assert forall r | ProceedsFor(Do(w, e), r, key) :: ProceedsFor(w, r, key) || e == AddCache(r);
    if AddsBeside(w, e, key) {
      var r :| ProceedsFor(w, r, key) && w.phase[r].deadline <= w.now;
      assert ProceedsFor(Do(w, e), r, key) && ProceedsFor(Do(w, e), e.r, key);
    } else if (e.Complete? || e.Abandon?) && w.calls[e.r].key == key {
      assert ProceedsFor(w, e.r, key);
      assert forall r :: !ProceedsFor(Do(w, e), r, key);
    }
  }

  /**
    What mutual exclusion rests on, exactly: in any run of any number of requests, however long their
    handlers take, no two handlers of a key ever proceed together if and only if no `add` for the key
    ever finds a handler of the key past its deadline. While that holds the key's entry is the handler's own.
  */
  lemma {:induction false} ApartIff(db: DB, events: seq<Event>, key: string)
    requires Legal(Start(db), events)
    ensures AlwaysApart(Start(db), events, key) <==> NeverBeside(Start(db), events, key)
    ensures NeverBeside(Start(db), events, key) ==> Exclusive(WorldAfter(Start(db), events), key)
  {
    if events == [] {
    } else {
      var shorter := events[..|events| - 1];
      ApartIff(db, shorter, key);
      if NeverBeside(Start(db), shorter, key) {
        StepKeepsExclusive(WorldAfter(Start(db), shorter), events[|events| - 1], key);
      }
    }
  }

  /**
    Mutual exclusion as the protocol assumes it: if every handler is over before its entry expires, at
    most one request per key ever proceeds, with `get` and `add` as separate steps.
  */
  lemma {:induction false} MutualExclusion(db: DB, events: seq<Event>, key: string)
    requires ValidWorld(Start(db), events)
    ensures NeverBeside(Start(db), events, key) && Exclusive(WorldAfter(Start(db), events), key)
  {
    if events == [] {
    } else {
      MutualExclusion(db, events[..|events| - 1], key);
      ApartIff(db, events, key);
    }
  }

  predicate DoneUntil(w: World, key: string, body: Body, expires: nat) {
    key in w.slots && w.slots[key] == Slot(Done(body), expires)
  }

  /**
    Once a key is done its entry stays, whatever happens and however long any handler takes, until the
    replay window ends: no request can delete it, overwrite it or take it back to "in progress".
  */
  lemma {:induction false} DoneIsFinal(db: DB, events: seq<Event>, more: seq<Event>, key: string, body: Body, expires: nat)
    requires Legal(Start(db), events) && NeverBeside(Start(db), events, key)
    requires DoneUntil(WorldAfter(Start(db), events), key, body, expires)
    requires Legal(WorldAfter(Start(db), events), more)
    requires WorldAfter(WorldAfter(Start(db), events), more).now < expires
    ensures var w := WorldAfter(WorldAfter(Start(db), events), more); DoneUntil(w, key, body, expires) && Exclusive(w, key)
    decreases |more|
  {
    if more == [] {
      ApartIff(db, events, key);
    } else {
      var w, shorter, last := WorldAfter(Start(db), events), more[..|more| - 1], more[|more| - 1];
      assert WorldAfter(w, shorter).now <= WorldAfter(w, more).now;
      DoneIsFinal(db, events, shorter, key, body, expires);
      assert !AddsBeside(WorldAfter(w, shorter), last, key);
      StepKeepsExclusive(WorldAfter(w, shorter), last, key);
    }
  }

  /** The key is locked until `deadline`, by nobody who could still release it. */
  ghost predicate LockedUntil(w: World, key: string, deadline: nat) {
    && key in w.slots && w.slots[key] == Slot(InProgress, deadline)
    && forall q :: !ProceedsFor(w, q, key)
  }

  lemma {:induction false} StaysLocked(w: World, more: seq<Event>, key: string, deadline: nat)
    requires LockedUntil(w, key, deadline) && Legal(w, more) && WorldAfter(w, more).now < deadline
    ensures LockedUntil(WorldAfter(w, more), key, deadline)
    decreases |more|
  {
    if more == [] {
    } else {
      var before, e := WorldAfter(w, more[..|more| - 1]), more[|more| - 1];
      assert before.now <= WorldAfter(w, more).now;
      StaysLocked(w, more[..|more| - 1], key, deadline);
      assert forall q | ProceedsFor(Do(before, e), q, key) :: ProceedsFor(before, q, key);
      if (e.Complete? || e.Abandon?) && before.calls[e.r].key == key {
        assert ProceedsFor(before, e.r, key);
      }
    }
  }

  /**
    A handler that crashes keeps its key: for the rest of its entry's time, whatever happens, every other
    request with the key is turned away.
  */
  lemma CrashHoldsTheKey(db: DB, events: seq<Event>, r: TxnId, more: seq<Event>)
    requires Legal(Start(db), events) && Proceeds(WorldAfter(Start(db), events), r)
    requires NeverBeside(Start(db), events, WorldAfter(Start(db), events).calls[r].key)
    requires var w := WorldAfter(Start(db), events);
      Legal(Do(w, Crash(r)), more) && WorldAfter(Do(w, Crash(r)), more).now < w.phase[r].deadline
    ensures var w := WorldAfter(Start(db), events); var w' := WorldAfter(Do(w, Crash(r)), more);
      LockedUntil(w', w.calls[r].key, w.phase[r].deadline) && BeginOutcome(w'.slots, w'.now, w.calls[r].key) == Busy
  {
    var w := WorldAfter(Start(db), events);
    var key := w.calls[r].key;
    ApartIff(db, events, key);
    assert ProceedsFor(w, r, key);
    assert forall q | ProceedsFor(Do(w, Crash(r)), q, key) :: ProceedsFor(w, q, key) && q != r;
    StaysLocked(Do(w, Crash(r)), more, key, w.phase[r].deadline);
  }
}
