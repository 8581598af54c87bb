/**
  Runs that do happen, built event by event from the empty world: a request that places its order, a
  replay of an order that does not exist, and what a handler that outlives its lock does to its key.
*/
module Runs {
  import opened Orders
  import opened Concurrency
  import opened Progress
  import opened Idempotency
  import opened Checkout
  import opened AtMostOnce

  // ---------------------------------------------------------------- one handler from "proceed" to its answer

  /** Request `r` is about to run its handler and nobody holds a lock. */
  ghost predicate ReadyToRun(w: World, r: TxnId) {
    && Proceeds(w, r) && r !in w.sys.used && w.sys.locks == map[]
    && w.calls[r].place.Place?
    && Serve(w.sys.committed, w.calls[r].place).reply.Ok?
  }

  /** Only the handler's own transaction has moved since `w`. */
  ghost predicate Running(w: World, r: TxnId, w': World) {
    && Proceeds(w, r) && w' == w.(sys := w'.sys)
    && w'.sys.committed == w.sys.committed && w'.sys.log == w.sys.log
    && w'.sys.used == w.sys.used + {r} && w'.sys.txns - {r} == w.sys.txns - {r}
    && Unobstructed(w'.sys, r) && w'.sys.txns[r].req == w.calls[r].place && Unlock(w'.sys.locks, r) == map[]
  }

  /** `more` extends `events` and is as timely and as deep inside every replay window. */
  ghost predicate NoWorse(w: World, events: seq<Event>, more: seq<Event>) {
    && Legal(w, events) && Legal(w, more)
    && (ValidWorld(w, events) ==> ValidWorld(w, more))
    && forall key | StaysInWindow(w, events, key) :: StaysInWindow(w, more, key)
  }

  /** An event that takes no time and starts no handler costs neither timeliness nor the window. */
  lemma UntimedEvent(w0: World, events: seq<Event>, e: Event)
    requires Legal(w0, events) && May(WorldAfter(w0, events), e) && !e.Tick? && !e.AddCache?
    ensures NoWorse(w0, events, events + [e]) && WorldAfter(w0, events + [e]) == Do(WorldAfter(w0, events), e)
  {
    var w := WorldAfter(w0, events);
    EventExtends(w0, events, e);
    assert forall x | Proceeds(Do(w, e), x) :: Proceeds(w, x) && Do(w, e).phase[x] == w.phase[x];
    assert ValidWorld(w0, events) ==> Timely(w);
    assert forall key | StaysInWindow(w0, events, key) :: InWindow(w, key) && InWindow(Do(w, e), key);
  }

  lemma {:induction false} RunOperations(db: DB, start: World, events: seq<Event>, r: TxnId) returns (full: seq<Event>)
    requires Legal(Start(db), events) && Running(start, r, WorldAfter(Start(db), events))
    ensures NoWorse(Start(db), events, full) && Running(start, r, WorldAfter(Start(db), full))
    ensures Enabled(WorldAfter(Start(db), full).sys, CommitTxn(r))
    decreases StepsLeft(WorldAfter(Start(db), events).sys, r)
  {
    var w := WorldAfter(Start(db), events);
    WorldStaysOk(db, events);
    assert TxnOk(w.sys, r) && RequestOk(w.sys, r);
    if w.sys.txns[r].pc == |w.sys.txns[r].actions| {
      full := events;
    } else {
      var step := AdvanceAlone(w.sys, r);
      UntimedEvent(Start(db), events, Database(step));
      full := RunOperations(db, start, events + [Database(step)], r);
    }
  }

  lemma BeginHandler(db: DB, events: seq<Event>, r: TxnId) returns (more: seq<Event>)
    requires Legal(Start(db), events) && ReadyToRun(WorldAfter(Start(db), events), r)
    ensures NoWorse(Start(db), events, more)
    ensures Running(WorldAfter(Start(db), events), r, WorldAfter(Start(db), more))
  {
    var w := WorldAfter(Start(db), events);
    var begin := Begin(r, w.calls[r].place);
    WorldStaysOk(db, events);
    UntimedEvent(Start(db), events, Database(begin));
    more := events + [Database(begin)];
    assert Next(w.sys, begin).txns - {r} == w.sys.txns - {r};
  }

  function PlacedBody(db: DB, call: Call): Body
    requires Serve(db, call.place).reply.Ok?
  {
    Body(call.place.id, Serve(db, call.place).reply.value)
  }

  /** The world `w` after request `r` has run its handler and completed, with the commit still to come. */
  ghost predicate CompletedFrom(w: World, r: TxnId, w': World)
    requires ReadyToRun(w, r)
  {
    var body := PlacedBody(w.sys.committed, w.calls[r]);
    && w' == w.(sys := w'.sys, phase := w.phase[r := Completed(body)],
                slots := Put(w.slots, w.now, w.calls[r].key, Done(body), RESULT_TTL_SECONDS))
    && w'.sys.committed == w.sys.committed && w'.sys.log == w.sys.log
    && w'.sys.used == w.sys.used + {r} && w'.sys.txns - {r} == w.sys.txns - {r}
    && Unlock(w'.sys.locks, r) == map[]
    && Enabled(w'.sys, CommitTxn(r)) && w'.sys.txns[r].req == w.calls[r].place
  }

  lemma CompleteEvent(db: DB, start: World, events: seq<Event>, r: TxnId)
    requires ReadyToRun(start, r)
    requires Legal(Start(db), events) && Running(start, r, WorldAfter(Start(db), events))
    requires Enabled(WorldAfter(Start(db), events).sys, CommitTxn(r))
    ensures NoWorse(Start(db), events, events + [Complete(r)])
    ensures CompletedFrom(start, r, WorldAfter(Start(db), events + [Complete(r)]))
  {
    var w := WorldAfter(Start(db), events);
    WorldStaysOk(db, events);
    assert TxnOk(w.sys, r) && RequestOk(w.sys, r);
    FinishedIsServed(w.sys, r);
    OneAnnouncement(w.sys.committed, w.calls[r].place);
    FinishedCanComplete(db, events, r);
    UntimedEvent(Start(db), events, Complete(r));
  }

  /** A handler that proceeds, finds its rows free and can be served runs to its `complete`. */
  lemma HandlerCompletes(db: DB, events: seq<Event>, r: TxnId) returns (full: seq<Event>)
    requires Legal(Start(db), events) && ReadyToRun(WorldAfter(Start(db), events), r)
    ensures NoWorse(Start(db), events, full)
    ensures CompletedFrom(WorldAfter(Start(db), events), r, WorldAfter(Start(db), full))
  {
    var w := WorldAfter(Start(db), events);
    var begun := BeginHandler(db, events, r);
    var done := RunOperations(db, w, begun, r);
    CompleteEvent(db, w, done, r);
    full := done + [Complete(r)];
  }

  /** The world `w` after request `r` has run its handler, completed and committed. */
  ghost predicate CreatedFrom(w: World, r: TxnId, w': World)
    requires ReadyToRun(w, r)
  {
    var body, out := PlacedBody(w.sys.committed, w.calls[r]), Serve(w.sys.committed, w.calls[r].place);
    && w' == w.(sys := w'.sys, phase := w.phase[r := Answered(Created(body))],
                slots := Put(w.slots, w.now, w.calls[r].key, Done(body), RESULT_TTL_SECONDS))
    && w'.sys == Sys(out.db, w.sys.txns - {r}, map[], w.sys.used + {r},
                     w.sys.log + [Concurrency.Entry(r, w.calls[r].place, out.events, out.announced)])
  }

  lemma FinishEvent(db: DB, start: World, events: seq<Event>, r: TxnId)
    requires Legal(Start(db), events) && ReadyToRun(start, r) && CompletedFrom(start, r, WorldAfter(Start(db), events))
    ensures NoWorse(Start(db), events, events + [Finish(r)])
    ensures CreatedFrom(start, r, WorldAfter(Start(db), events + [Finish(r)]))
  {
    var w := WorldAfter(Start(db), events);
    WorldStaysOk(db, events);
    assert TxnOk(w.sys, r) && RequestOk(w.sys, r);
    CommitAlone(w.sys, r);
    UntimedEvent(Start(db), events, Finish(r));
  }

  lemma HandlerCreates(db: DB, events: seq<Event>, r: TxnId) returns (full: seq<Event>)
    requires Legal(Start(db), events) && ReadyToRun(WorldAfter(Start(db), events), r)
    ensures NoWorse(Start(db), events, full)
    ensures CreatedFrom(WorldAfter(Start(db), events), r, WorldAfter(Start(db), full))
  {
    var done := HandlerCompletes(db, events, r);
    FinishEvent(db, WorldAfter(Start(db), events), done, r);
    full := done + [Finish(r)];
  }

  // ---------------------------------------------------------------- whole runs from the empty world

  /** A request arrives, misses the cache and gets "proceed". */
  ghost predicate EnteredFrom(w: World, r: TxnId, call: Call, w': World) {
    w' == w.(calls := w.calls[r := call], phase := w.phase[r := Proceeding(w.now + LOCK_TTL_SECONDS)],
             slots := Put(w.slots, w.now, call.key, InProgress, LOCK_TTL_SECONDS))
  }

  lemma EnterHandler(w0: World, events: seq<Event>, r: TxnId, call: Call) returns (more: seq<Event>)
    requires Legal(w0, events) && May(WorldAfter(w0, events), Arrive(r, call))
    requires var w := WorldAfter(w0, events); !Live(w.slots, w.now, call.key)
    ensures NoWorse(w0, events, more)
    ensures EnteredFrom(WorldAfter(w0, events), r, call, WorldAfter(w0, more))
  {
    var missed := MissEvents(w0, events, r, call);
    more := missed + [AddCache(r)];
  }

  lemma MissEvents(w0: World, events: seq<Event>, r: TxnId, call: Call) returns (more: seq<Event>)
    requires Legal(w0, events) && May(WorldAfter(w0, events), Arrive(r, call))
    requires var w := WorldAfter(w0, events); !Live(w.slots, w.now, call.key)
    ensures NoWorse(w0, events, more)
    ensures var w := WorldAfter(w0, events);
      WorldAfter(w0, more) == w.(calls := w.calls[r := call], phase := w.phase[r := Missed])
  {
    var arrived := events + [Arrive(r, call)];
    UntimedEvent(w0, events, Arrive(r, call));
    UntimedEvent(w0, arrived, ReadCache(r));
    more := arrived + [ReadCache(r)];
  }

  /** The promise of at-most-once is not empty: a call that can be served does place its one order. */
  lemma OneCallPlaces(db: DB, call: Call) returns (events: seq<Event>)
    requires call.place.Place? && Serve(db, call.place).reply.Ok?
    ensures ValidWorld(Start(db), events) && StaysInWindow(Start(db), events, call.key)
    ensures var w := WorldAfter(Start(db), events); var out := Serve(db, call.place);
      && w.calls == map[1 := call] && w.phase == map[1 := Answered(Created(PlacedBody(db, call)))] && w.now == 0
      && w.slots == map[call.key := Slot(Done(PlacedBody(db, call)), RESULT_TTL_SECONDS)]
      && w.sys == Sys(out.db, map[], map[], {1}, [Concurrency.Entry(1, call.place, out.events, out.announced)])
  {
    var entered := EnterHandler(Start(db), [], 1, call);
    events := HandlerCreates(db, entered, 1);
  }

  /**
    The phantom: once a request has completed, losing its commit and retrying inside the window is
    always possible, and the retry is answered with a body no order stands behind.
  */
  lemma LoseThenRetry(db: DB, events: seq<Event>, q: TxnId, r: TxnId, again: Call)
    requires Orderly(db, events, again.key)
    requires var w := WorldAfter(Start(db), events);
      && q in w.calls && q in w.phase && w.phase[q].Completed? && w.calls[q].key == again.key
      && r !in w.calls && r !in w.sys.used && again.place.Place?
    ensures var more := events + [Lose(q)] + [Arrive(r, again)] + [ReadCache(r)];
      && NoWorse(Start(db), events, more)
      && WorldAfter(Start(db), more).sys == WorldAfter(Start(db), events).sys
      && WorldAfter(Start(db), more).phase[r] == Answered(Replayed(WorldAfter(Start(db), events).phase[q].body))
    ensures var w := WorldAfter(Start(db), events); w.phase[q].body.id !in w.sys.committed.orders
  {
    var w := WorldAfter(Start(db), events);
    AlwaysOneWinner(db, events, again.key);
    assert Wins(w, q, again.key, w.phase[q].body);
    UntimedEvent(Start(db), events, Lose(q));
    UntimedEvent(Start(db), events + [Lose(q)], Arrive(r, again));
    UntimedEvent(Start(db), events + [Lose(q)] + [Arrive(r, again)], ReadCache(r));
    CompletedIsNotStored(db, events, q);
  }

  /**
    A replay that is not real, for any call that can be served: it completes, its commit is lost, and a
    retry inside the lock's time to live and the replay window gets the body of an order nobody stored.
  */
  lemma PhantomReplay(db: DB, call: Call, again: Call) returns (events: seq<Event>)
    requires call.place.Place? && Serve(db, call.place).reply.Ok?
    requires again.place.Place? && again.key == call.key
    ensures ValidWorld(Start(db), events) && StaysInWindow(Start(db), events, call.key)
    ensures var w := WorldAfter(Start(db), events);
      && 2 in w.phase && w.phase[2] == Answered(Replayed(PlacedBody(db, call)))
      && w.sys.committed == db && call.place.id !in db.orders
  {
    var entered := EnterHandler(Start(db), [], 1, call);
    var done := HandlerCompletes(db, entered, 1);
    TimelyIsOrderly(db, done, call.key);
    LoseThenRetry(db, done, 1, 2, again);
    events := done + [Lose(1)] + [Arrive(2, again)] + [ReadCache(2)];
  }

  /** The handler of request 1 has done everything and then raised; its transaction is not rolled back yet. */
  ghost predicate RaisedLate(db: DB, w: World, call: Call) {
    && w.calls == map[1 := call] && w.phase == map[1 := Answered(Failed)] && call.key !in w.slots && w.now == 0
    && w.sys.committed == db && w.sys.log == [] && w.sys.used == {1} && w.sys.txns.Keys == {1}
    && w.sys.txns[1].pc == |w.sys.txns[1].actions| && Unlock(w.sys.locks, 1) == map[]
  }

  lemma RaiseLate(db: DB, call: Call) returns (events: seq<Event>)
    requires call.place.Place? && Serve(db, call.place).reply.Ok?
    ensures ValidWorld(Start(db), events) && StaysInWindow(Start(db), events, call.key)
    ensures RaisedLate(db, WorldAfter(Start(db), events), call)
  {
    var entered := EnterHandler(Start(db), [], 1, call);
    var begun := BeginHandler(db, entered, 1);
    var done := RunOperations(db, WorldAfter(Start(db), entered), begun, 1);
    UntimedEvent(Start(db), done, Abandon(1));
    events := done + [Abandon(1)];
    var txns := WorldAfter(Start(db), events).sys.txns;
    assert txns - {1} == map[] && txns.Keys == (txns - {1}).Keys + {1};
  }

  /** A retry of the key proceeds while the first attempt's finished transaction is still open. */
  ghost predicate RetryOverlaps(db: DB, w: World, again: Call) {
    && Fails(w, 1) && Proceeds(w, 2) && w.calls[2] == again
    && w.sys.committed == db && w.sys.log == [] && w.sys.used == {1} && w.sys.txns.Keys == {1}
    && w.sys.txns[1].pc == |w.sys.txns[1].actions| && Unlock(w.sys.locks, 1) == map[]
  }

  /**
    `abandon` deletes the key while the request's own transaction is still open: a retry can proceed
    before the first attempt has rolled back.
  */
  lemma RetryBeforeRollback(db: DB, call: Call, again: Call) returns (events: seq<Event>)
    requires call.place.Place? && Serve(db, call.place).reply.Ok? && again.place.Place? && again.key == call.key
    ensures ValidWorld(Start(db), events) && StaysInWindow(Start(db), events, call.key)
    ensures RetryOverlaps(db, WorldAfter(Start(db), events), again)
  {
    var raised := RaiseLate(db, call);
    events := EnterHandler(Start(db), raised, 2, again);
  }

  /** Its rows and locks are the first attempt's until then; once they are rolled back, the retry alone places its order. */
  lemma RollBackThenRun(db: DB, events: seq<Event>, again: Call) returns (full: seq<Event>)
    requires Legal(Start(db), events) && RetryOverlaps(db, WorldAfter(Start(db), events), again)
    requires again.place.Place? && Serve(db, again.place).reply.Ok?
    ensures NoWorse(Start(db), events, full)
    ensures var w := WorldAfter(Start(db), full);
      In(w, 2, Answered(Created(PlacedBody(db, again)))) && Logged(w.sys.log) == [again.place]
  {
    UntimedEvent(Start(db), events, Database(Abort(1)));
    var w := WorldAfter(Start(db), events + [Database(Abort(1))]);
    full := HandlerCreates(db, events + [Database(Abort(1))], 2);
    assert Logged(w.sys.log) == [];
  }

  /** Two requests of one key that both proceed place an order each. */
  lemma BothPlace(db: DB, events: seq<Event>, r: TxnId, q: TxnId) returns (full: seq<Event>)
    requires Legal(Start(db), events) && ReadyToRun(WorldAfter(Start(db), events), r)
    requires var w := WorldAfter(Start(db), events);
      && q != r && Proceeds(w, q) && q !in w.sys.used && w.calls[q].place.Place?
      && Serve(Serve(w.sys.committed, w.calls[r].place).db, w.calls[q].place).reply.Ok?
    ensures NoWorse(Start(db), events, full)
    ensures BothPlaced(WorldAfter(Start(db), events), r, q, WorldAfter(Start(db), full))
  {
    var first := HandlerCreates(db, events, r);
    full := HandlerCreates(db, first, q);
  }

  /** Both requests were answered 201, each with an order of its own, and both orders are committed. */
  ghost predicate BothPlaced(w: World, r: TxnId, q: TxnId, w': World)
    requires r in w.calls && q in w.calls
    requires Serve(w.sys.committed, w.calls[r].place).reply.Ok?
    requires Serve(Serve(w.sys.committed, w.calls[r].place).db, w.calls[q].place).reply.Ok?
  {
    var between := Serve(w.sys.committed, w.calls[r].place).db;
    && w'.now == w.now && w'.calls == w.calls && r in w'.phase && q in w'.phase
    && w'.phase[r] == Answered(Created(PlacedBody(w.sys.committed, w.calls[r])))
    && w'.phase[q] == Answered(Created(PlacedBody(between, w.calls[q])))
    && w'.sys.committed == Serve(between, w.calls[q].place).db
    && Logged(w'.sys.log) == Logged(w.sys.log) + [w.calls[r].place, w.calls[q].place]
  }

  /** Both calls carry the key, and their orders can be placed one after the other. */
  ghost predicate TwoOrders(db: DB, first: Call, second: Call) {
    && first.key == second.key && first.place.Place? && second.place.Place?
    && Serve(db, first.place).reply.Ok? && Serve(Serve(db, first.place).db, second.place).reply.Ok?
  }

  /** What the client of the key is left with: two committed orders, and two success bodies about them. */
  ghost predicate PlacedTwice(db: DB, w: World, key: string, r: TxnId, q: TxnId) {
    && r != q && Keyed(w, r, key) && Keyed(w, q, key) && r in w.phase && q in w.phase
    && Logged(w.sys.log) == [w.calls[r].place, w.calls[q].place]
    && w.sys.committed == ServeAll(db, Logged(w.sys.log))
    && Success(w.phase[r]).Some? && Success(w.phase[q]).Some?
    && var a, b := Success(w.phase[r]).value, Success(w.phase[q]).value;
    && a.id != b.id
    && a.id in w.sys.committed.orders && w.sys.committed.orders[a.id] == a.order
    && b.id in w.sys.committed.orders && w.sys.committed.orders[b.id] == b.order
  }

  lemma CreatedTwice(db: DB, w: World, r: TxnId, q: TxnId)
    requires r != q && r in w.calls && q in w.calls && TwoOrders(db, w.calls[r], w.calls[q])
    requires In(w, r, Answered(Created(PlacedBody(db, w.calls[r]))))
    requires In(w, q, Answered(Created(PlacedBody(Serve(db, w.calls[r].place).db, w.calls[q]))))
    requires w.sys.committed == Serve(Serve(db, w.calls[r].place).db, w.calls[q].place).db
    requires Logged(w.sys.log) == [w.calls[r].place, w.calls[q].place]
    ensures PlacedTwice(db, w, w.calls[r].key, r, q)
  {
    var first, second := w.calls[r].place, w.calls[q].place;
    ServeAllExtends(db, [], first);
    ServeAllExtends(db, [first], second);
    assert [] + [first] == [first] && [first] + [second] == [first, second];
    PlaceOrderAllOrNothing(db, first.id, first.customer, first.items);
    PlaceOrderAllOrNothing(Serve(db, first).db, second.id, second.customer, second.items);
  }

  lemma BothPlacedIsTwice(db: DB, w: World, r: TxnId, q: TxnId, w': World)
    requires w.sys.committed == db && w.sys.log == [] && r != q && r in w.calls && q in w.calls
    requires TwoOrders(db, w.calls[r], w.calls[q]) && BothPlaced(w, r, q, w')
    ensures PlacedTwice(db, w', w.calls[r].key, r, q)
  {
    assert Logged(w.sys.log) == [];
    CreatedTwice(db, w', r, q);
  }

  /**
    The replay window bounds the promise from above: a retry after its end places a second order, in a
    run in which every handler is in time.
  */
  lemma RetryAfterWindow(db: DB, first: Call, second: Call) returns (events: seq<Event>)
    requires TwoOrders(db, first, second)
    ensures ValidWorld(Start(db), events) && !StaysInWindow(Start(db), events, first.key)
    ensures WorldAfter(Start(db), events).now == RESULT_TTL_SECONDS
    ensures PlacedTwice(db, WorldAfter(Start(db), events), first.key, 1, 2)
  {
    var one := OneCallPlaces(db, first);
    EventExtends(Start(db), one, Tick(RESULT_TTL_SECONDS));
    var late := one + [Tick(RESULT_TTL_SECONDS)];
    var entered := EnterHandler(Start(db), late, 2, second);
    events := HandlerCreates(db, entered, 2);
    CreatedTwice(db, WorldAfter(Start(db), events), 1, 2);
    if StaysInWindow(Start(db), events, first.key) {
      TimelyIsOrderly(db, events, first.key);
      AtMostOnceEndToEnd(db, events, first.key);
    }
  }

  /** The world in which a second handler has just entered beside one that is a full lock's time old. */
  ghost predicate Overrunning(db: DB, w: World, late: Call, next: Call) {
    && w.sys == Opening(db) && w.now == LOCK_TTL_SECONDS
    && w.calls == map[1 := late, 2 := next]
    && w.phase == map[1 := Proceeding(w.now), 2 := Proceeding(w.now + LOCK_TTL_SECONDS)]
  }

  lemma Overrun(db: DB, late: Call, next: Call) returns (events: seq<Event>)
    requires late.key == next.key && late.place.Place? && next.place.Place?
    ensures Legal(Start(db), events) && StaysInWindow(Start(db), events, late.key)
    ensures Overrunning(db, WorldAfter(Start(db), events), late, next)
  {
    var entered := EnterHandler(Start(db), [], 1, late);
    EventExtends(Start(db), entered, Tick(LOCK_TTL_SECONDS));
    events := EnterHandler(Start(db), entered + [Tick(LOCK_TTL_SECONDS)], 2, next);
  }

  /**
    `abandon` makes it worse: a late handler that raises deletes the lock of its successor, so a third
    request proceeds beside the second, although neither of the two is late.
  */
  lemma AbandonLetsIn(db: DB, late: Call, first: Call, second: Call) returns (events: seq<Event>)
    requires late.key == first.key == second.key
    requires late.place.Place? && first.place.Place? && second.place.Place?
    ensures Legal(Start(db), events)
    ensures var w := WorldAfter(Start(db), events);
      && w.sys == Opening(db) && Timely(w)
      && w.calls == map[1 := late, 2 := first, 3 := second] && w.now == LOCK_TTL_SECONDS
      && Proceeds(w, 2) && Proceeds(w, 3)
  {
    var both := Overrun(db, late, first);
    EventExtends(Start(db), both, Abandon(1));
    var abandoned := both + [Abandon(1)];
    assert first.key !in WorldAfter(Start(db), abandoned).slots;
    events := EnterHandler(Start(db), abandoned, 3, second);
  }

  /**
    An overrun, from the empty world and for any two orders: the first handler outlives its lock, a
    retry with the same key proceeds beside it, and the one key places both orders.
  */
  lemma OverrunPlacesTwice(db: DB, first: Call, second: Call) returns (events: seq<Event>)
    requires TwoOrders(db, first, second)
    ensures Legal(Start(db), events) && StaysInWindow(Start(db), events, first.key)
    ensures !NeverBeside(Start(db), events, first.key)
    ensures WorldAfter(Start(db), events).now == LOCK_TTL_SECONDS
    ensures PlacedTwice(db, WorldAfter(Start(db), events), first.key, 1, 2)
  {
    var both := Overrun(db, first, second);
    events := BothPlace(db, both, 1, 2);
    BothPlacedIsTwice(db, WorldAfter(Start(db), both), 1, 2, WorldAfter(Start(db), events));
    if NeverBeside(Start(db), events, first.key) {
      AtMostOnceEndToEnd(db, events, first.key);
    }
  }

  /** And two handlers that are both in time place an order each. */
  lemma AbandonPlacesTwice(db: DB, late: Call, first: Call, second: Call) returns (events: seq<Event>)
    requires TwoOrders(db, first, second) && late.key == first.key && late.place.Place?
    ensures Legal(Start(db), events) && WorldAfter(Start(db), events).now == LOCK_TTL_SECONDS
    ensures PlacedTwice(db, WorldAfter(Start(db), events), first.key, 2, 3)
  {
    var shared := AbandonLetsIn(db, late, first, second);
    events := BothPlace(db, shared, 2, 3);
    BothPlacedIsTwice(db, WorldAfter(Start(db), shared), 2, 3, WorldAfter(Start(db), events));
  }
}
