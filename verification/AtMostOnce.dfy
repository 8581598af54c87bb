/**
  The end-to-end promise of an Idempotency-Key: however its requests interleave, fail and retry,
  at most one order is placed, its stock is reserved once, and every success carries one body.
*/
module AtMostOnce {
  import opened Common
  import opened Inventory
  import opened Orders
  import opened Ledger
  import opened Replay
  import opened Concurrency
  import opened Idempotency
  import opened Checkout
  import opened ConcurrentLedger

  // ---------------------------------------------------------------- what the database did for whom

  ghost predicate HasCommitted(s: Sys, t: TxnId) {
    exists i :: 0 <= i < |s.log| && s.log[i].txn == t
  }

  /** A transaction commits at most once, and is then gone. */
  ghost predicate LogUnique(s: Sys) {
    && (forall i, j | 0 <= i < j < |s.log| :: s.log[i].txn != s.log[j].txn)
    && (forall i | 0 <= i < |s.log| :: s.log[i].txn in s.used && s.log[i].txn !in s.txns)
    && s.txns.Keys <= s.used
  }

  lemma StepKeepsUnique(s: Sys, step: Step)
    requires LogUnique(s) && Enabled(s, step)
    ensures LogUnique(Next(s, step))
    ensures forall t :: HasCommitted(Next(s, step), t) <==> HasCommitted(s, t) || step == CommitTxn(t)
  {
    var s' := Next(s, step);
    forall t ensures HasCommitted(s', t) <==> HasCommitted(s, t) || step == CommitTxn(t) {
      if HasCommitted(s, t) {
        var i :| 0 <= i < |s.log| && s.log[i].txn == t;
        assert s'.log[i].txn == t;
      }
      if step == CommitTxn(t) {
        assert s'.log[|s.log|].txn == t;
      }
    }
  }

  /** The database step hidden in an event of the world, if any. */
  function DbStep(w: World, e: Event): Option<Step> {
    match e
    case Database(step) => Some(step)
    case Finish(r) => Some(CommitTxn(r))
    case _ => None
  }

  /** What the database and the requests' phases know of each other. */
  ghost predicate RequestFits(w: World, r: TxnId)
    requires r in w.calls && r in w.phase
  {
    var call, phase := w.calls[r], w.phase[r];
    && call.place.Place?
    && (r in w.sys.txns ==> (phase.Proceeding? || phase.Completed? || Fails(w, r)) && w.sys.txns[r].req == call.place)
    && (phase.Arrived? || phase.Missed? ==> r !in w.sys.used)
    && (phase.Completed? ==> OwnRow(w.sys, r, phase.body))
    && (phase.Answered? && (phase.reply.Created? || phase.reply.Lost?) ==> phase.reply.body.id == call.place.id)
    && (HasCommitted(w.sys, r) <==> phase.Answered? && phase.reply.Created?)
  }

  /** The transaction is done and `body` is the order row it is about to commit. */
  ghost predicate OwnRow(s: Sys, r: TxnId, body: Body) {
    && r in s.txns && s.txns[r].pc == |s.txns[r].actions|
    && s.txns[r].req.id == body.id
    && body.id in s.txns[r].rows.orders && s.txns[r].rows.orders[body.id] == body.order
  }

  ghost predicate WorldOk(db: DB, w: World) {
    && SysOk(db, w.sys)
    && LogUnique(w.sys)
    && w.phase.Keys == w.calls.Keys
    && forall r | r in w.calls :: RequestFits(w, r)
  }

  lemma DatabaseKeepsOk(db: DB, w: World, e: Event)
    requires WorldOk(db, w) && May(w, e)
    ensures SysOk(db, Do(w, e).sys) && LogUnique(Do(w, e).sys)
    ensures forall t :: HasCommitted(Do(w, e).sys, t) <==>
              HasCommitted(w.sys, t) || (DbStep(w, e).Some? && DbStep(w, e).value == CommitTxn(t))
  {
    if DbStep(w, e).Some? {
      assert Enabled(w.sys, DbStep(w, e).value);
      StepKeepsOk(db, w.sys, DbStep(w, e).value);
      StepKeepsUnique(w.sys, DbStep(w, e).value);
    } else {
      assert Do(w, e).sys == w.sys;
    }
  }

  lemma OtherTxnUntouched(s: Sys, step: Step, r: TxnId)
    requires Enabled(s, step) && step.t != r
    ensures r in Next(s, step).txns <==> r in s.txns
    ensures r in s.txns ==> Next(s, step).txns[r] == s.txns[r]
    ensures r in Next(s, step).used <==> r in s.used
  {
  }

  /** An event that neither changes the request's phase nor steps its transaction. */
  lemma BystanderFits(db: DB, w: World, e: Event, r: TxnId)
    requires WorldOk(db, w) && May(w, e) && r in w.calls
    requires Do(w, e).phase.Keys >= {r} && Do(w, e).phase[r] == w.phase[r] && Do(w, e).calls[r] == w.calls[r]
    requires DbStep(w, e).Some? ==> DbStep(w, e).value.t != r
    ensures RequestFits(Do(w, e), r)
  {
    DatabaseKeepsOk(db, w, e);
    assert RequestFits(w, r);
    if DbStep(w, e).Some? {
      OtherTxnUntouched(w.sys, DbStep(w, e).value, r);
    }
    StillFits(w, Do(w, e), r);
  }

  lemma StillFits(w: World, w': World, r: TxnId)
    requires r in w.calls && r in w.phase && RequestFits(w, r)
    requires r in w'.calls && r in w'.phase && w'.calls[r] == w.calls[r] && w'.phase[r] == w.phase[r]
    requires (r in w'.sys.txns <==> r in w.sys.txns) && (r in w.sys.txns ==> w'.sys.txns[r] == w.sys.txns[r])
    requires (r in w'.sys.used <==> r in w.sys.used) && (HasCommitted(w'.sys, r) <==> HasCommitted(w.sys, r))
    ensures RequestFits(w', r)
  {
  }

  /** The request whose phase the event moves. */
  function Actor(e: Event): Option<TxnId> {
    if e.Tick? || e.Database? then None else Some(e.r)
  }

  lemma CacheEventFits(db: DB, w: World, e: Event)
    requires WorldOk(db, w) && May(w, e)
    requires !e.Tick? && !e.Database? && !e.Finish?
    ensures RequestFits(Do(w, e), e.r)
  {
    if e.Arrive? {
      assert !HasCommitted(w.sys, e.r);
    } else {
      assert RequestFits(w, e.r);
    }
  }

  lemma FinishFits(db: DB, w: World, r: TxnId)
    requires WorldOk(db, w) && May(w, Finish(r))
    ensures RequestFits(Do(w, Finish(r)), r)
  {
    DatabaseKeepsOk(db, w, Finish(r));
    assert RequestFits(w, r);
  }

  lemma EventKeepsFit(db: DB, w: World, e: Event, r: TxnId)
    requires WorldOk(db, w) && May(w, e) && r in Do(w, e).calls
    ensures r in Do(w, e).phase && RequestFits(Do(w, e), r)
  {
    if Actor(e) == Some(r) {
      if e.Finish? {
        FinishFits(db, w, r);
      } else {
        CacheEventFits(db, w, e);
      }
    } else if e.Database? && e.step.t == r {
    } else {
      BystanderFits(db, w, e, r);
    }
  }

  lemma EventKeepsOk(db: DB, w: World, e: Event)
    requires WorldOk(db, w) && May(w, e)
    ensures WorldOk(db, Do(w, e))
  {
    DatabaseKeepsOk(db, w, e);
    forall r | r in Do(w, e).calls ensures r in Do(w, e).phase && RequestFits(Do(w, e), r) {
      EventKeepsFit(db, w, e, r);
    }
    assert Do(w, e).phase.Keys == Do(w, e).calls.Keys;
  }

  lemma {:induction false} WorldStaysOk(db: DB, events: seq<Event>)
    requires Legal(Start(db), events)
    ensures WorldOk(db, WorldAfter(Start(db), events))
  {
    if events == [] {
    } else {
      WorldStaysOk(db, events[..|events| - 1]);
      EventKeepsOk(db, WorldAfter(Start(db), events[..|events| - 1]), events[|events| - 1]);
    }
  }

  // ---------------------------------------------------------------- one winner per key

  function Won(phase: Phase): Option<Body> {
    match phase
    case Completed(body) => Some(body)
    case Answered(Created(body)) => Some(body)
    case Answered(Lost(body)) => Some(body)
    case _ => None
  }

  /** Request `r` of this key got as far as `complete`, with this body. */
  predicate Wins(w: World, r: TxnId, key: string, body: Body) {
    r in w.calls && r in w.phase && w.calls[r].key == key && Won(w.phase[r]) == Some(body)
  }

  /** At most one request of the key ever completed, and the key's entry is then its response. */
  ghost predicate OneWinner(w: World, key: string) {
    && (forall r, q, a, b | Wins(w, r, key, a) && Wins(w, q, key, b) :: r == q)
    && (forall r, body | Wins(w, r, key, body) :: key in w.slots && w.slots[key].entry == Done(body))
    && (key in w.slots && w.slots[key].entry.Done? ==> exists r :: Wins(w, r, key, w.slots[key].entry.result))
    && (forall r | r in w.calls && r in w.phase && w.calls[r].key == key && w.phase[r].Answered? && w.phase[r].reply.Replayed? ::
          exists q :: Wins(w, q, key, w.phase[r].reply.body))
  }

  /** An event that is no `complete` of the key keeps exactly the winners it had. */
  lemma WinnersKept(w: World, e: Event, key: string)
    requires May(w, e) && !(e.Complete? && w.calls[e.r].key == key)
    ensures forall r, body :: Wins(Do(w, e), r, key, body) <==> Wins(w, r, key, body)
  {
  }

  lemma CompleteKeepsWinner(w: World, r: TxnId, key: string)
    requires OneWinner(w, key) && Exclusive(w, key) && May(w, Complete(r)) && w.calls[r].key == key
    ensures OneWinner(Do(w, Complete(r)), key)
  {
    var w' := Do(w, Complete(r));
    assert forall q, body :: q != r ==> (Wins(w', q, key, body) <==> Wins(w, q, key, body));
    assert Wins(w', r, key, BodyOf(w, r));
  }

  lemma EventKeepsWinner(w: World, e: Event, key: string)
    requires OneWinner(w, key) && Exclusive(w, key) && InWindow(w, key) && May(w, e)
    ensures OneWinner(Do(w, e), key)
  {
    if e.Complete? && w.calls[e.r].key == key {
      CompleteKeepsWinner(w, e.r, key);
    } else {
      var w' := Do(w, e);
      WinnersKept(w, e, key);
      forall r | r in w'.calls && r in w'.phase && w'.calls[r].key == key && w'.phase[r].Answered? && w'.phase[r].reply.Replayed?
        ensures exists q :: Wins(w', q, key, w'.phase[r].reply.body)
      {
        if r in w.phase && w.phase[r] == w'.phase[r] && r in w.calls {
          var q :| Wins(w, q, key, w.phase[r].reply.body);
          assert Wins(w', q, key, w'.phase[r].reply.body);
        } else {
          assert e == ReadCache(r);
          var q :| Wins(w, q, key, w.slots[key].entry.result);
          assert Wins(w', q, key, w'.phase[r].reply.body);
        }
      }
      if key in w'.slots && w'.slots[key].entry.Done? {
        var q :| Wins(w, q, key, w.slots[key].entry.result);
        assert Wins(w', q, key, w'.slots[key].entry.result);
      }
    }
  }

  /**
    A run in which no `add` for the key finds one of its handlers past its deadline, and in which the key
    stays inside its replay window. Other keys may do as they like.
  */
  ghost predicate Orderly(db: DB, events: seq<Event>, key: string) {
    Legal(Start(db), events) && NeverBeside(Start(db), events, key) && StaysInWindow(Start(db), events, key)
  }

  lemma {:induction false} AlwaysOneWinner(db: DB, events: seq<Event>, key: string)
    requires Orderly(db, events, key)
    ensures OneWinner(WorldAfter(Start(db), events), key)
  {
    if events == [] {
    } else {
      var shorter := events[..|events| - 1];
      AlwaysOneWinner(db, shorter, key);
      ApartIff(db, shorter, key);
      EventKeepsWinner(WorldAfter(Start(db), shorter), events[|events| - 1], key);
    }
  }

  // ---------------------------------------------------------------- the promise

  predicate Keyed(w: World, t: TxnId, key: string) {
    t in w.calls && w.calls[t].key == key
  }

  /** The body a success response carries, if the request was answered with success. */
  function Success(phase: Phase): Option<Body> {
    match phase
    case Answered(Created(body)) => Some(body)
    case Answered(Replayed(body)) => Some(body)
    case _ => None
  }

  /**
    End-to-end at-most-once: in any interleaving of any requests in which no `add` for the key is made
    beside one of its handlers that has outlived its entry, and the key stays inside the replay window,
    at most one committed transaction belongs to the key; what is committed is the logged requests
    served one after the other; and all successes carry one body.
  */
  lemma AtMostOnceEndToEnd(db: DB, events: seq<Event>, key: string)
    requires Orderly(db, events, key)
    ensures var w := WorldAfter(Start(db), events);
      && w.sys.committed == ServeAll(db, Logged(w.sys.log))
      && (forall i, j | 0 <= i < |w.sys.log| && 0 <= j < |w.sys.log| && Keyed(w, w.sys.log[i].txn, key) && Keyed(w, w.sys.log[j].txn, key) ::
            i == j)
      && (forall r, q | Keyed(w, r, key) && Keyed(w, q, key) && r in w.phase && q in w.phase
            && Success(w.phase[r]).Some? && Success(w.phase[q]).Some? ::
            Success(w.phase[r]) == Success(w.phase[q]))
  {
    var w := WorldAfter(Start(db), events);
    WorldStaysOk(db, events);
    AlwaysOneWinner(db, events, key);
    OneCommit(db, w, key);
    OneBody(w, key);
  }

  lemma OneCommit(db: DB, w: World, key: string)
    requires WorldOk(db, w) && OneWinner(w, key)
    ensures forall i, j | 0 <= i < |w.sys.log| && 0 <= j < |w.sys.log| && Keyed(w, w.sys.log[i].txn, key) && Keyed(w, w.sys.log[j].txn, key) ::
      i == j
  {
    forall i, j | 0 <= i < |w.sys.log| && 0 <= j < |w.sys.log| && Keyed(w, w.sys.log[i].txn, key) && Keyed(w, w.sys.log[j].txn, key)
      ensures i == j
    {
      var r, q := w.sys.log[i].txn, w.sys.log[j].txn;
      assert HasCommitted(w.sys, r) && HasCommitted(w.sys, q);
      assert RequestFits(w, r) && RequestFits(w, q);
      assert Wins(w, r, key, w.phase[r].reply.body) && Wins(w, q, key, w.phase[q].reply.body);
    }
  }

  lemma OneBody(w: World, key: string)
    requires OneWinner(w, key)
    ensures forall r, q | Keyed(w, r, key) && Keyed(w, q, key) && r in w.phase && q in w.phase
        && Success(w.phase[r]).Some? && Success(w.phase[q]).Some? ::
        Success(w.phase[r]) == Success(w.phase[q])
  {
    forall r, q | Keyed(w, r, key) && Keyed(w, q, key) && r in w.phase && q in w.phase
        && Success(w.phase[r]).Some? && Success(w.phase[q]).Some?
      ensures Success(w.phase[r]) == Success(w.phase[q])
    {
      SuccessIsTheWinner(w, r, key);
      SuccessIsTheWinner(w, q, key);
    }
  }

  lemma SuccessIsTheWinner(w: World, r: TxnId, key: string)
    requires OneWinner(w, key) && Keyed(w, r, key) && r in w.phase && Success(w.phase[r]).Some?
    ensures key in w.slots && w.slots[key].entry == Done(Success(w.phase[r]).value)
  {
    var body := Success(w.phase[r]).value;
    if w.phase[r].reply.Created? {
      assert Wins(w, r, key, body);
    } else {
      var q :| Wins(w, q, key, body);
    }
  }

  /** Units of `p` the stock events of the key's committed transactions reserved, all together. */
  function ReservedUnder(w: World, log: seq<Concurrency.Entry>, key: string, p: ProductId): int {
    if log == [] then 0
    else
      var last := log[|log| - 1];
      ReservedUnder(w, log[..|log| - 1], key, p) + (if Keyed(w, last.txn, key) then NetReserved(last.events, p) else 0)
  }

  lemma {:induction false} ReservedUnderOne(w: World, log: seq<Concurrency.Entry>, key: string, p: ProductId)
    requires forall i, j | 0 <= i < |log| && 0 <= j < |log| && Keyed(w, log[i].txn, key) && Keyed(w, log[j].txn, key) :: i == j
    ensures (forall i | 0 <= i < |log| :: !Keyed(w, log[i].txn, key)) ==> ReservedUnder(w, log, key, p) == 0
    ensures forall i | 0 <= i < |log| && Keyed(w, log[i].txn, key) ::
      ReservedUnder(w, log, key, p) == NetReserved(log[i].events, p)
  {
    if log == [] {
    } else {
      var shorter, last := log[..|log| - 1], log[|log| - 1];
      ReservedUnderOne(w, shorter, key, p);
      if Keyed(w, last.txn, key) {
        assert forall i | 0 <= i < |shorter| :: shorter[i] == log[i] && !Keyed(w, shorter[i].txn, key);
      } else {
        forall i | 0 <= i < |log| && Keyed(w, log[i].txn, key)
          ensures ReservedUnder(w, log, key, p) == NetReserved(log[i].events, p)
        {
          assert shorter[i] == log[i];
        }
      }
    }
  }

  lemma LoggedPlaceReserves(db: DB, s: Sys, i: nat, p: ProductId)
    requires LogOk(db, s) && i < |s.log| && s.log[i].req.Place?
    ensures NetReserved(s.log[i].events, p) == Demand(Wanted(s.log[i].req.items), p)
  {
    var entry, before := s.log[i], ServeAll(db, Logged(s.log[..i]));
    assert EntryOk(db, s.log, i);
    PlaceLinesIsReserving(before.stock, entry.req.items);
    RunAllNet(Reserve, before.stock, Wanted(entry.req.items), p);
  }

  /** With timely handlers, the protocol's own assumption, the first of the two conditions holds of every key. */
  lemma TimelyIsOrderly(db: DB, events: seq<Event>, key: string)
    requires ValidWorld(Start(db), events) && StaysInWindow(Start(db), events, key)
    ensures Orderly(db, events, key)
  {
    MutualExclusion(db, events, key);
  }

  /** Stock reserved once: if the key has a committed order, its events reserve that order's demand and no more. */
  lemma ReservedOnce(db: DB, events: seq<Event>, key: string, i: nat, p: ProductId)
    requires Orderly(db, events, key)
    requires var w := WorldAfter(Start(db), events); i < |w.sys.log| && Keyed(w, w.sys.log[i].txn, key)
    ensures var w := WorldAfter(Start(db), events);
      && w.sys.log[i].req == w.calls[w.sys.log[i].txn].place
      && w.sys.log[i].req.Place?
      && ReservedUnder(w, w.sys.log, key, p) == Demand(Wanted(w.sys.log[i].req.items), p)
  {
    var w := WorldAfter(Start(db), events);
    AtMostOnceEndToEnd(db, events, key);
    LoggedRequestIsTheCall(db, events, i);
    ReservedUnderOne(w, w.sys.log, key, p);
    LoggedPlaceReserves(db, w.sys, i, p);
  }

  /** What a keyed transaction commits is the order its caller asked for. */
  ghost predicate LogIsCalls(w: World) {
    forall i | 0 <= i < |w.sys.log| && w.sys.log[i].txn in w.calls :: w.sys.log[i].req == w.calls[w.sys.log[i].txn].place
  }

  lemma {:induction false} LoggedRequestIsTheCall(db: DB, events: seq<Event>, i: nat)
    requires Legal(Start(db), events)
    ensures WorldOk(db, WorldAfter(Start(db), events))
    ensures LogIsCalls(WorldAfter(Start(db), events))
    ensures var w := WorldAfter(Start(db), events);
      i < |w.sys.log| && w.sys.log[i].txn in w.calls ==> w.sys.log[i].req.Place?
    decreases |events|
  {
    WorldStaysOk(db, events);
    if events == [] {
    } else {
      var shorter, e := events[..|events| - 1], events[|events| - 1];
      LoggedRequestIsTheCall(db, shorter, i);
      EventKeepsCalls(db, WorldAfter(Start(db), shorter), e);
    }
    var w := WorldAfter(Start(db), events);
    if i < |w.sys.log| && w.sys.log[i].txn in w.calls {
      assert RequestFits(w, w.sys.log[i].txn);
    }
  }

  lemma EventKeepsCalls(db: DB, w: World, e: Event)
    requires WorldOk(db, w) && LogIsCalls(w) && May(w, e)
    ensures LogIsCalls(Do(w, e))
  {
    if DbStep(w, e).Some? && DbStep(w, e).value.CommitTxn? && DbStep(w, e).value.t in w.calls {
      assert RequestFits(w, DbStep(w, e).value.t);
    }
  }

  /** A keyed handler that has done all its operations can always reach `complete`. */
  lemma FinishedCanComplete(db: DB, events: seq<Event>, r: TxnId)
    requires Legal(Start(db), events)
    requires var w := WorldAfter(Start(db), events); Proceeds(w, r) && Enabled(w.sys, CommitTxn(r))
    ensures May(WorldAfter(Start(db), events), Complete(r))
  {
    var w := WorldAfter(Start(db), events);
    WorldStaysOk(db, events);
    assert RequestFits(w, r) && TxnOk(w.sys, r) && RequestOk(w.sys, r);
    var txn := w.sys.txns[r];
    assert txn.actions[0] == InsertOrder(txn.req.id, txn.req.customer);
    assert HasRow(txn.rows, KeyOf(txn.actions[0]));
  }

  /** A 201 from the handler itself is real: at its commit the order is stored exactly as the body says. */
  lemma CreatedIsStored(db: DB, events: seq<Event>, r: TxnId)
    requires Legal(Start(db), events) && May(WorldAfter(Start(db), events), Finish(r))
    ensures var w := WorldAfter(Start(db), events); var w' := Do(w, Finish(r)); var body := w.phase[r].body;
      && w'.phase[r] == Answered(Created(body))
      && body.id !in w.sys.committed.orders
      && body.id in w'.sys.committed.orders && w'.sys.committed.orders[body.id] == body.order
      && body.order.status == Pending
  {
    CompletedIsNotStored(db, events, r);
    var w := WorldAfter(Start(db), events);
    WorldStaysOk(db, events);
    assert RequestFits(w, r) && TxnOk(w.sys, r) && RequestOk(w.sys, r);
    FinishedIsServed(w.sys, r);
  }

  predicate PlacedIn(reqs: seq<Request>, id: OrderId) {
    exists i :: 0 <= i < |reqs| && reqs[i].Place? && reqs[i].id == id
  }

  /** An order is stored exactly if it was there at the start or one of the served requests placed it. */
  lemma {:induction false} StoredIffPlaced(db: DB, reqs: seq<Request>, id: OrderId)
    requires AllServed(db, reqs)
    ensures id in ServeAll(db, reqs).orders <==> id in db.orders || PlacedIn(reqs, id)
  {
    if reqs == [] {
    } else {
      var shorter, last := reqs[..|reqs| - 1], reqs[|reqs| - 1];
      forall i | 0 <= i < |shorter| ensures ServedAt(db, shorter, i) {
        assert ServedAt(db, reqs, i) && shorter[..i] == reqs[..i];
      }
      assert ServedAt(db, reqs, |shorter|);
      StoredIffPlaced(db, shorter, id);
      assert shorter + [last] == reqs;
    }
  }

  /** The id was not taken at the start, and no other request placed an order under it. */
  ghost predicate FreshId(db: DB, w: World, q: TxnId, id: OrderId) {
    && id !in db.orders
    && forall i | 0 <= i < |w.sys.log| && w.sys.log[i].req.Place? && w.sys.log[i].req.id == id :: w.sys.log[i].txn == q
  }

  /**
    A replay need not be real: `complete` comes before the commit. The order in a replayed body
    exists if and only if the request that completed it has also committed.
  */
  lemma ReplayIsRealIff(db: DB, events: seq<Event>, r: TxnId, key: string, q: TxnId)
    requires Legal(Start(db), events)
    requires var w := WorldAfter(Start(db), events);
      && Keyed(w, r, key) && r in w.phase && w.phase[r].Answered? && w.phase[r].reply.Replayed?
      && Wins(w, q, key, w.phase[r].reply.body)
      && FreshId(db, w, q, w.phase[r].reply.body.id)
    ensures var w := WorldAfter(Start(db), events); var body := w.phase[r].reply.body;
      body.id in w.sys.committed.orders <==> w.phase[q] == Answered(Created(body))
  {
    var w := WorldAfter(Start(db), events);
    var id := w.phase[r].reply.body.id;
    LoggedRequestIsTheCall(db, events, 0);
    assert RequestFits(w, q) && LogOk(db, w.sys);
    LogIsServed(db, w.sys);
    StoredIffPlaced(db, Logged(w.sys.log), id);
    if HasCommitted(w.sys, q) {
      var i :| 0 <= i < |w.sys.log| && w.sys.log[i].txn == q;
      assert w.sys.log[i].req == w.calls[q].place;
      assert Logged(w.sys.log)[i].Place? && Logged(w.sys.log)[i].id == id;
    }
    if PlacedIn(Logged(w.sys.log), id) {
      var i :| 0 <= i < |w.sys.log| && Logged(w.sys.log)[i].Place? && Logged(w.sys.log)[i].id == id;
      assert w.sys.log[i].req.Place? && w.sys.log[i].txn == q;
    }
  }

  /** Between `complete` and the commit, the order is not in the database. */
  lemma CompletedIsNotStored(db: DB, events: seq<Event>, q: TxnId)
    requires Legal(Start(db), events)
    requires var w := WorldAfter(Start(db), events); q in w.calls && q in w.phase && w.phase[q].Completed?
    ensures var w := WorldAfter(Start(db), events); w.phase[q].body.id !in w.sys.committed.orders
  {
    var w := WorldAfter(Start(db), events);
    WorldStaysOk(db, events);
    assert RequestFits(w, q) && TxnOk(w.sys, q) && RequestOk(w.sys, q);
    FinishedIsServed(w.sys, q);
    var place := w.sys.txns[q].req;
    PlaceOrderAllOrNothing(w.sys.committed, place.id, place.customer, place.items);
  }
}
