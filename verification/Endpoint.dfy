/**
  The create endpoint and the interleaved world agree: a create request that nothing interleaves with is
  one of the world's runs, with the same database, cache and reply, whether it is replayed, turned away,
  refused by the serializer, refused half way through its lines, or served.
*/
module Endpoint {
  import opened Orders
  import opened Concurrency
  import opened Progress
  import opened ConcurrentLedger
  import opened Idempotency
  import opened Checkout
  import opened AtMostOnce
  import opened Runs
  import opened Views

  function CallOf(key: string, payload: Payload): Call {
    Call(key, Place(payload.id, payload.customer, payload.items))
  }

  /** No transaction is open, and the request id is new. */
  predicate Idle(w: World, r: TxnId) {
    w.sys.txns == map[] && w.sys.locks == map[] && r !in w.calls && r !in w.sys.used
  }

  predicate SameReply(phase: Phase, reply: CreateReply) {
    match reply
    case Cached(body) => phase == Answered(Replayed(body))
    case InProgress409 => phase == Answered(Conflict)
    case Fresh(Ok(body)) => phase == Answered(Created(body))
    case Fresh(Err(_)) => phase == Answered(Failed)
  }

  /** The world after the request, told from the endpoint's own outcome. */
  ghost predicate EndsAs(w: World, r: TxnId, call: Call, out: Served, w': World) {
    && w'.sys.committed == out.db && w'.slots == out.slots && w'.now == w.now
    && w'.sys.txns == map[] && w'.sys.locks == map[]
    && w'.sys.log == w.sys.log + (if out.reply.Fresh? && out.reply.result.Ok?
                                  then [Concurrency.Entry(r, call.place, out.events, out.announced)] else [])
    && w'.calls == w.calls[r := call]
    && r in w'.phase && w'.phase == w.phase[r := w'.phase[r]] && SameReply(w'.phase[r], out.reply)
  }

  // ---------------------------------------------------------------- a handler that is refused

  /** Only the handler's own transaction has moved since `w`, and its request cannot be served. */
  ghost predicate Failing(w: World, r: TxnId, w': World) {
    && Proceeds(w, r) && w' == w.(sys := w'.sys)
    && w'.sys.committed == w.sys.committed && w'.sys.log == w.sys.log
    && r in w'.sys.txns && w'.sys.txns - {r} == map[] && Unlock(w'.sys.locks, r) == map[]
    && w'.sys.txns[r].req == w.calls[r].place && w.calls[r].place.Place?
    && Serve(w.sys.committed, w.calls[r].place).reply.Err?
  }

  lemma RefusedSomewhere(s: Sys, r: TxnId)
    requires r in s.txns && TxnOk(s, r) && RequestOk(s, r)
    requires Serve(s.committed, s.txns[r].req).reply.Err?
    ensures s.txns[r].pc < |s.txns[r].actions|
  {
    if s.txns[r].pc == |s.txns[r].actions| {
      FinishedIsServed(s, r);
    }
  }

  /** It goes on row by row until one of its operations is refused. */
  lemma {:induction false} RunUntilRefused(db: DB, start: World, events: seq<Event>, r: TxnId) returns (full: seq<Event>)
    requires Legal(Start(db), events) && Failing(start, r, WorldAfter(Start(db), events))
    ensures NoWorse(Start(db), events, full)
    ensures Failing(start, r, WorldAfter(Start(db), full)) && Refused(WorldAfter(Start(db), full).sys, r)
    decreases StepsLeft(WorldAfter(Start(db), events).sys, r)
  {
    var w := WorldAfter(Start(db), events);
    WorldStaysOk(db, events);
    assert TxnOk(w.sys, r) && RequestOk(w.sys, r);
    RefusedSomewhere(w.sys, r);
    var a := w.sys.txns[r].actions[w.sys.txns[r].pc];
    if KeyOf(a) !in w.sys.locks {
      LockMoves(w.sys, r);
      UntimedEvent(Start(db), events, Database(Lock(r)));
      full := RunUntilRefused(db, start, events + [Database(Lock(r))], r);
    } else if Act(View(w.sys, r), a).Ok? {
      HeldByItself(w.sys, r, KeyOf(a));
      UntimedEvent(Start(db), events, Database(Exec(r)));
      assert Next(w.sys, Exec(r)).txns - {r} == w.sys.txns - {r};
      full := RunUntilRefused(db, start, events + [Database(Exec(r))], r);
    } else {
      full := events;
    }
  }

  lemma HeldByItself(s: Sys, r: TxnId, k: RowKey)
    requires Unlock(s.locks, r) == map[] && k in s.locks
    ensures s.locks[k] == r
  {
    assert k !in Unlock(s.locks, r);
  }

  /** The refused handler: begin, go on until refused, roll back, abandon the key. */
  lemma HandlerFails(db: DB, events: seq<Event>, r: TxnId) returns (full: seq<Event>)
    requires Legal(Start(db), events)
    requires var w := WorldAfter(Start(db), events);
      && Proceeds(w, r) && r !in w.sys.used && w.sys.locks == map[] && w.sys.txns == map[]
      && w.calls[r].place.Place? && Serve(w.sys.committed, w.calls[r].place).reply.Err?
    ensures NoWorse(Start(db), events, full)
    ensures var w, w' := WorldAfter(Start(db), events), WorldAfter(Start(db), full);
      && w' == w.(sys := w'.sys, slots := w.slots - {w.calls[r].key}, phase := w.phase[r := Answered(Failed)])
      && w'.sys.committed == w.sys.committed && w'.sys.log == w.sys.log && w'.sys.txns == map[] && w'.sys.locks == map[]
  {
    var w := WorldAfter(Start(db), events);
    var begin := Begin(r, w.calls[r].place);
    UntimedEvent(Start(db), events, Database(begin));
    assert Next(w.sys, begin).txns - {r} == map[];
    var refused := RunUntilRefused(db, w, events + [Database(begin)], r);
    UntimedEvent(Start(db), refused, Database(Abort(r)));
    UntimedEvent(Start(db), refused + [Database(Abort(r))], Abandon(r));
    full := refused + [Database(Abort(r))] + [Abandon(r)];
  }

  // ---------------------------------------------------------------- the whole request

  lemma AnsweredFromCache(db: DB, events: seq<Event>, r: TxnId, key: string, payload: Payload) returns (full: seq<Event>)
    requires Legal(Start(db), events) && Idle(WorldAfter(Start(db), events), r)
    requires var w := WorldAfter(Start(db), events); Live(w.slots, w.now, key)
    ensures NoWorse(Start(db), events, full)
    ensures var w, w' := WorldAfter(Start(db), events), WorldAfter(Start(db), full);
      EndsAs(w, r, CallOf(key, payload), CreateOutcome(w.sys.committed, w.slots, w.now, key, payload), w')
  {
    var arrived := events + [Arrive(r, CallOf(key, payload))];
    UntimedEvent(Start(db), events, Arrive(r, CallOf(key, payload)));
    UntimedEvent(Start(db), arrived, ReadCache(r));
    full := arrived + [ReadCache(r)];
  }

  lemma EndsCreated(w: World, entered: World, r: TxnId, key: string, payload: Payload, w': World)
    requires Idle(w, r) && !Live(w.slots, w.now, key) && EnteredFrom(w, r, CallOf(key, payload), entered)
    requires Valid(payload) && ReadyToRun(entered, r) && CreatedFrom(entered, r, w')
    ensures EndsAs(w, r, CallOf(key, payload), CreateOutcome(w.sys.committed, w.slots, w.now, key, payload), w')
  {
    assert w.sys.txns - {r} == map[];
  }

  lemma EndsFailed(w: World, entered: World, r: TxnId, key: string, payload: Payload, w': World)
    requires Idle(w, r) && !Live(w.slots, w.now, key) && EnteredFrom(w, r, CallOf(key, payload), entered)
    requires Valid(payload) ==> Serve(w.sys.committed, CallOf(key, payload).place).reply.Err?
    requires w' == entered.(sys := w'.sys, slots := entered.slots - {key}, phase := entered.phase[r := Answered(Failed)])
    requires w'.sys.committed == w.sys.committed && w'.sys.log == w.sys.log
    requires w'.sys.txns == map[] && w'.sys.locks == map[]
    ensures EndsAs(w, r, CallOf(key, payload), CreateOutcome(w.sys.committed, w.slots, w.now, key, payload), w')
  {
    PlaceOrderAllOrNothing(w.sys.committed, payload.id, payload.customer, payload.items);
    assert entered.slots - {key} == w.slots - {key};
  }

  lemma ProceedsToAnswer(db: DB, events: seq<Event>, r: TxnId, key: string, payload: Payload) returns (full: seq<Event>)
    requires Legal(Start(db), events) && Idle(WorldAfter(Start(db), events), r)
    requires var w := WorldAfter(Start(db), events); !Live(w.slots, w.now, key)
    ensures NoWorse(Start(db), events, full)
    ensures var w, w' := WorldAfter(Start(db), events), WorldAfter(Start(db), full);
      EndsAs(w, r, CallOf(key, payload), CreateOutcome(w.sys.committed, w.slots, w.now, key, payload), w')
  {
    var w, call := WorldAfter(Start(db), events), CallOf(key, payload);
    var entered := EnterHandler(Start(db), events, r, call);
    if !Valid(payload) {
      UntimedEvent(Start(db), entered, Abandon(r));
      full := entered + [Abandon(r)];
      EndsFailed(w, WorldAfter(Start(db), entered), r, key, payload, WorldAfter(Start(db), full));
    } else if Serve(w.sys.committed, call.place).reply.Ok? {
      full := HandlerCreates(db, entered, r);
      EndsCreated(w, WorldAfter(Start(db), entered), r, key, payload, WorldAfter(Start(db), full));
    } else {
      full := HandlerFails(db, entered, r);
      EndsFailed(w, WorldAfter(Start(db), entered), r, key, payload, WorldAfter(Start(db), full));
    }
  }

  /**
    A create request that finds the system idle is a run of the interleaved world, and leaves the
    database, the cache and the reply that the endpoint's own contract says.
  */
  lemma CreateIsARun(db: DB, events: seq<Event>, r: TxnId, key: string, payload: Payload) returns (full: seq<Event>)
    requires Legal(Start(db), events) && Idle(WorldAfter(Start(db), events), r)
    ensures NoWorse(Start(db), events, full)
    ensures var w, w' := WorldAfter(Start(db), events), WorldAfter(Start(db), full);
      EndsAs(w, r, CallOf(key, payload), CreateOutcome(w.sys.committed, w.slots, w.now, key, payload), w')
  {
    var w := WorldAfter(Start(db), events);
    if Live(w.slots, w.now, key) {
      full := AnsweredFromCache(db, events, r, key, payload);
    } else {
      full := ProceedsToAnswer(db, events, r, key, payload);
    }
  }
}
