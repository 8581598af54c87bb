/**
  The ledger behind the stock counters: what each counter should be, summed over the
  unbounded order table, and when a request keeps it that way.
*/
module Ledger {
  import opened Common
  import opened Inventory
  import opened Orders

  // ---------------------------------------------------------------- sums over the order table

  /** What one order contributes to product `p`, if it is in status `st`. */
  function Share(order: Order, st: Status, p: ProductId): int {
    if order.status == st then Demand(Parts(order.items), p) else 0
  }

  ghost function SumOver(orders: OrderTable, ids: set<OrderId>, st: Status, p: ProductId): int
    requires ids <= orders.Keys
  {
    if ids == {} then 0
    else var id := Pick(ids); Share(orders[id], st, p) + SumOver(orders, ids - {id}, st, p)
  }

  /** Units of `p` over all lines of all orders in status `st`. */
  ghost function StatusSum(orders: OrderTable, st: Status, p: ProductId): int {
    SumOver(orders, orders.Keys, st, p)
  }

  lemma {:induction false} SumOverSplit(orders: OrderTable, ids: set<OrderId>, id: OrderId, st: Status, p: ProductId)
    requires ids <= orders.Keys && id in ids
    ensures SumOver(orders, ids, st, p) == Share(orders[id], st, p) + SumOver(orders, ids - {id}, st, p)
    decreases ids
  {
    var first := Pick(ids);
    if first == id {
    } else {
      SumOverSplit(orders, ids - {first}, id, st, p);
      SumOverSplit(orders, ids - {id}, first, st, p);
      assert ids - {first} - {id} == ids - {id} - {first};
    }
  }

  lemma {:induction false} SumOverAgree(a: OrderTable, b: OrderTable, ids: set<OrderId>, st: Status, p: ProductId)
    requires ids <= a.Keys && ids <= b.Keys
    requires forall id | id in ids :: Share(a[id], st, p) == Share(b[id], st, p)
    ensures SumOver(a, ids, st, p) == SumOver(b, ids, st, p)
    decreases ids
  {
    if ids == {} {
    } else {
      SumOverAgree(a, b, ids - {Pick(ids)}, st, p);
    }
  }

  lemma {:induction false} SumOverNonNegative(orders: OrderTable, ids: set<OrderId>, st: Status, p: ProductId)
    requires ids <= orders.Keys
    ensures SumOver(orders, ids, st, p) >= 0
    decreases ids
  {
    if ids == {} {
    } else {
      var id := Pick(ids);
      PartsPositive(orders[id].items);
      DemandNonNegative(Parts(orders[id].items), p);
      SumOverNonNegative(orders, ids - {id}, st, p);
    }
  }

  /** Writing one order moves the sum by that order's share alone. */
  lemma StatusSumUpdate(orders: OrderTable, id: OrderId, order: Order, st: Status, p: ProductId)
    ensures StatusSum(orders[id := order], st, p) ==
            StatusSum(orders, st, p) + Share(order, st, p) - (if id in orders then Share(orders[id], st, p) else 0)
  {
    var after := orders[id := order];
    SumOverSplit(after, after.Keys, id, st, p);
    SumOverAgree(orders, after, after.Keys - {id}, st, p);
    if id in orders {
      SumOverSplit(orders, orders.Keys, id, st, p);
      assert orders.Keys - {id} == after.Keys - {id};
    } else {
      assert orders.Keys == after.Keys - {id};
    }
  }

  /** No order's own share exceeds the sum, and no sum is negative. */
  lemma StatusSumCovers(orders: OrderTable, st: Status, p: ProductId)
    ensures StatusSum(orders, st, p) >= 0
    ensures forall id | id in orders :: Share(orders[id], st, p) <= StatusSum(orders, st, p)
  {
    SumOverNonNegative(orders, orders.Keys, st, p);
    forall id | id in orders ensures Share(orders[id], st, p) <= StatusSum(orders, st, p) {
      SumOverSplit(orders, orders.Keys, id, st, p);
      SumOverNonNegative(orders, orders.Keys - {id}, st, p);
    }
  }

  // ---------------------------------------------------------------- invariants

  function OrderDemand(order: Order, p: ProductId): int {
    Demand(Parts(order.items), p)
  }

  lemma OrderDemandNonNegative(order: Order, p: ProductId)
    ensures OrderDemand(order, p) >= 0
  {
    PartsPositive(order.items);
    DemandNonNegative(Parts(order.items), p);
  }

  /** Facts no request can break, whatever it does: rows stay in bounds and every stored line has a row. */
  ghost predicate Sound(db: DB) {
    && Bounded(db.stock)
    && (forall id | id in db.orders :: Known(db.stock, Parts(db.orders[id].items)))
    && (forall id | id in db.orders :: db.orders[id].status in {Pending, Paid, Cancelled})
    && (forall id | id in db.orders :: db.orders[id].total == Total(db.orders[id].items))
  }

  ghost predicate ExactAt(base: Stock, db: DB, p: ProductId)
    requires p in base && p in db.stock
  {
    && db.stock[p].reserved == base[p].reserved + StatusSum(db.orders, Pending, p)
    && db.stock[p].quantity == base[p].quantity - StatusSum(db.orders, Paid, p)
    && db.stock[p].threshold == base[p].threshold
  }

  /** The exact ledger: reservations are the pending lines, missing units are the paid lines. */
  ghost predicate Exact(base: Stock, db: DB) {
    && db.stock.Keys == base.Keys
    && forall p | p in base :: ExactAt(base, db, p)
  }

  /** The order table alone determines an exact stock table. */
  lemma ExactDetermines(base: Stock, a: DB, b: DB)
    requires Exact(base, a) && Exact(base, b)
    requires forall p | p in base :: StatusSum(a.orders, Pending, p) == StatusSum(b.orders, Pending, p)
    requires forall p | p in base :: StatusSum(a.orders, Paid, p) == StatusSum(b.orders, Paid, p)
    ensures a.stock == b.stock
  {
    forall p | p in base ensures a.stock[p] == b.stock[p] {
    }
  }

  /** The request acts only on an order whose stored status is still PENDING. */
  predicate Clean(db: DB, req: Request) {
    match req
    case Place(_, _, _) => true
    case Pay(id) => id in db.orders ==> db.orders[id].status == Pending
    case Cancel(id, seen) => id in db.orders && seen == Pending ==> db.orders[id].status == Pending
  }

  ghost predicate CleanRun(db: DB, reqs: seq<Request>) {
    forall i | 0 <= i < |reqs| :: Clean(ServeAll(db, reqs[..i]), reqs[i])
  }

  // ---------------------------------------------------------------- one settling request

  /** Paying or cancelling a stored order always goes through, as one clamped subtraction per row. */
  lemma SettleOutcome(db: DB, id: OrderId, kind: Kind, status: Status)
    requires kind != Reserve && id in db.orders && Known(db.stock, Parts(db.orders[id].items))
    ensures var out := Settle(db, id, kind, status);
      && out.reply == Ok(db.orders[id].(status := status))
      && out.db == DB(Settled(kind, db.stock, Parts(db.orders[id].items)), db.orders[id := db.orders[id].(status := status)])
  {
    PartsPositive(db.orders[id].items);
    SettleCollapses(kind, db.stock, Parts(db.orders[id].items));
  }

  lemma SettleKeepsSound(db: DB, id: OrderId, kind: Kind, status: Status)
    requires Sound(db) && id in db.orders && kind != Reserve && status in {Paid, Cancelled}
    ensures Sound(Settle(db, id, kind, status).db)
    ensures Settle(db, id, kind, status).db.stock.Keys == db.stock.Keys
  {
    SettleOutcome(db, id, kind, status);
    forall p | p in db.stock ensures OrderDemand(db.orders[id], p) >= 0 {
      OrderDemandNonNegative(db.orders[id], p);
    }
  }

  lemma PlaceKeepsSound(db: DB, req: Request)
    requires Sound(db) && req.Place?
    ensures Sound(Serve(db, req).db)
    ensures Serve(db, req).db.stock.Keys == db.stock.Keys
  {
    PlaceOrderAllOrNothing(db, req.id, req.customer, req.items);
    var db' := Serve(db, req).db;
    if Serve(db, req).reply.Ok? {
      var parts := Wanted(req.items);
      WantedPositive(req.items);
      BoundedThroughout(Reserve, db.stock, parts);
      PlaceLinesIsReserving(db.stock, req.items);
      assert Known(db'.stock, Parts(Lines(req.items)));
    }
  }

  /** Every request, clean or not, keeps the database sound. */
  lemma ServeKeepsSound(db: DB, req: Request)
    requires Sound(db)
    ensures Sound(Serve(db, req).db)
    ensures Serve(db, req).db.stock.Keys == db.stock.Keys
  {
    match req
    case Place(_, _, _) => PlaceKeepsSound(db, req);
    case Pay(id) => if id in db.orders { SettleKeepsSound(db, id, Commit, Paid); }
    case Cancel(id, seen) => if id in db.orders && seen == Pending { SettleKeepsSound(db, id, Release, Cancelled); }
  }

  // ---------------------------------------------------------------- the exact ledger

  ghost predicate Inv(base: Stock, db: DB) {
    Sound(db) && Exact(base, db)
  }

  lemma PlaceKeepsExact(base: Stock, db: DB, req: Request)
    requires Inv(base, db) && req.Place?
    ensures Exact(base, Serve(db, req).db)
  {
    PlaceOrderAllOrNothing(db, req.id, req.customer, req.items);
    var out := Serve(db, req);
    if out.reply.Ok? {
      WantedPositive(req.items);
      var order := out.db.orders[req.id];
      forall p | p in base
        ensures StatusSum(out.db.orders, Pending, p) == StatusSum(db.orders, Pending, p) + Demand(Wanted(req.items), p)
        ensures StatusSum(out.db.orders, Paid, p) == StatusSum(db.orders, Paid, p)
      {
        StatusSumUpdate(db.orders, req.id, order, Pending, p);
        StatusSumUpdate(db.orders, req.id, order, Paid, p);
      }
    }
  }

  /** How the two sums move when order `id` is settled. */
  lemma SettleSums(db: DB, id: OrderId, status: Status, p: ProductId)
    requires id in db.orders && status in {Paid, Cancelled}
    ensures var order := db.orders[id]; var orders' := db.orders[id := order.(status := status)]; var d := OrderDemand(order, p);
      && StatusSum(orders', Pending, p) == StatusSum(db.orders, Pending, p) - (if order.status == Pending then d else 0)
      && StatusSum(orders', Paid, p) == StatusSum(db.orders, Paid, p)
           + (if status == Paid then d else 0) - (if order.status == Paid then d else 0)
  {
    var order := db.orders[id];
    StatusSumUpdate(db.orders, id, order.(status := status), Pending, p);
    StatusSumUpdate(db.orders, id, order.(status := status), Paid, p);
  }

  /**
    When a settling request hits an order that is no longer PENDING, the ledger survives only
    by accident: for every product of the order, the clamps must hide what the request does.
  */
  ghost predicate Harmless(db: DB, id: OrderId, kind: Kind)
    requires id in db.orders
  {
    forall p | p in db.stock :: HarmlessAt(db, id, kind, p)
  }

  ghost predicate HarmlessAt(db: DB, id: OrderId, kind: Kind, p: ProductId)
    requires id in db.orders && p in db.stock
  {
    var order := db.orders[id];
    OrderDemand(order, p) > 0 ==>
      match (order.status, kind)
      case (Paid, Commit) => db.stock[p].quantity == 0
      case (Paid, _) => false
      case (_, Commit) => db.stock[p].reserved == 0 && db.stock[p].quantity >= OrderDemand(order, p)
      case _ => db.stock[p].reserved == 0
  }

  /**
    Paying or cancelling keeps the exact ledger if and only if the stored order is PENDING
    or the request is harmless in the sense above.
  */
  lemma SettleExactIff(base: Stock, db: DB, id: OrderId, pay: bool)
    requires Inv(base, db) && id in db.orders
    ensures Exact(base, Serve(db, if pay then Pay(id) else Cancel(id, Pending)).db) <==>
            db.orders[id].status == Pending || Harmless(db, id, if pay then Commit else Release)
  {
    var kind, status := if pay then Commit else Release, if pay then Paid else Cancelled;
    var order := db.orders[id];
    var db' := Serve(db, if pay then Pay(id) else Cancel(id, Pending)).db;
    SettleOutcome(db, id, kind, status);
    forall p | p in base
      ensures ExactAt(base, db', p) <==> order.status == Pending || HarmlessAt(db, id, kind, p)
    {
      SettleExactAt(base, db, id, kind, status, p);
    }
  }

  lemma SettleExactAt(base: Stock, db: DB, id: OrderId, kind: Kind, status: Status, p: ProductId)
    requires Inv(base, db) && id in db.orders && p in base
    requires (kind == Commit && status == Paid) || (kind == Release && status == Cancelled)
    ensures var db' := DB(Settled(kind, db.stock, Parts(db.orders[id].items)), db.orders[id := db.orders[id].(status := status)]);
      ExactAt(base, db', p) <==> db.orders[id].status == Pending || HarmlessAt(db, id, kind, p)
  {
    SettleSums(db, id, status, p);
    OrderDemandNonNegative(db.orders[id], p);
    StatusSumCovers(db.orders, Pending, p);
    assert db.stock[p].Bounded();
    assert db.orders[id].status in {Pending, Paid, Cancelled};
  }

  /** A clean request keeps the exact ledger. */
  lemma ServeKeepsExact(base: Stock, db: DB, req: Request)
    requires Inv(base, db) && Clean(db, req)
    ensures Inv(base, Serve(db, req).db)
  {
    ServeKeepsSound(db, req);
    match req
    case Place(_, _, _) => PlaceKeepsExact(base, db, req);
    case Pay(id) => if id in db.orders { SettleExactIff(base, db, id, true); }
    case Cancel(id, seen) => if id in db.orders && seen == Pending { SettleExactIff(base, db, id, false); }
  }

  /**
    Exact ledger: after any clean run, each product's reservation is the sum over all PENDING
    orders and its on-hand count is the start minus the sum over all PAID orders.
  */
  lemma {:induction false} ExactLedger(base: Stock, db: DB, reqs: seq<Request>)
    requires Inv(base, db) && CleanRun(db, reqs)
    ensures Inv(base, ServeAll(db, reqs))
  {
    if reqs == [] {
    } else {
      var shorter := reqs[..|reqs| - 1];
      assert CleanRun(db, shorter) by {
        forall i | 0 <= i < |shorter| ensures Clean(ServeAll(db, shorter[..i]), shorter[i]) {
          assert shorter[..i] == reqs[..i];
        }
      }
      ExactLedger(base, db, shorter);
      ServeKeepsExact(base, ServeAll(db, shorter), reqs[|reqs| - 1]);
    }
  }

  // ---------------------------------------------------------------- clean, told from the requests alone

  /** A pay, or a cancel whose snapshot lets it through. */
  predicate Settling(req: Request) {
    req.Pay? || (req.Cancel? && req.seen == Pending)
  }

  predicate SettlesNone(reqs: seq<Request>, id: OrderId) {
    forall i | 0 <= i < |reqs| :: !(Settling(reqs[i]) && reqs[i].id == id)
  }

  /** No order is settled twice, and none that the start already holds settled is settled again. */
  ghost predicate SettledOnce(db: DB, reqs: seq<Request>) {
    && (forall i, j | 0 <= i < j < |reqs| && Settling(reqs[i]) && Settling(reqs[j]) :: reqs[i].id != reqs[j].id)
    && (forall i | 0 <= i < |reqs| && Settling(reqs[i]) && reqs[i].id in db.orders :: db.orders[reqs[i].id].status == Pending)
  }

  ghost predicate ServedAt(db: DB, reqs: seq<Request>, i: nat)
    requires i < |reqs|
  {
    Serve(ServeAll(db, reqs[..i]), reqs[i]).reply.Ok?
  }

  ghost predicate AllServed(db: DB, reqs: seq<Request>) {
    forall i | 0 <= i < |reqs| :: ServedAt(db, reqs, i)
  }

  lemma {:induction false} PendingUntilSettled(db: DB, reqs: seq<Request>, id: OrderId)
    requires SettlesNone(reqs, id)
    requires id in db.orders ==> db.orders[id].status == Pending
    ensures var orders := ServeAll(db, reqs).orders; id in orders ==> orders[id].status == Pending
  {
    if reqs == [] {
    } else {
      var shorter, last := reqs[..|reqs| - 1], reqs[|reqs| - 1];
      assert SettlesNone(shorter, id) by {
        forall i | 0 <= i < |shorter| ensures !(Settling(shorter[i]) && shorter[i].id == id) {
          assert shorter[i] == reqs[i];
        }
      }
      PendingUntilSettled(db, shorter, id);
      assert !(Settling(last) && last.id == id);
    }
  }

  predicate IsSettled(db: DB, id: OrderId) {
    id in db.orders && db.orders[id].status != Pending
  }

  /** An order settled after the first `i` requests is settled after the first `j`. */
  lemma {:induction false} SettledStaysFrom(db: DB, reqs: seq<Request>, i: nat, j: nat, id: OrderId)
    requires i <= j <= |reqs|
    requires IsSettled(ServeAll(db, reqs[..i]), id)
    ensures IsSettled(ServeAll(db, reqs[..j]), id)
    decreases j
  {
    if i == j {
    } else {
      SettledStaysFrom(db, reqs, i, j - 1, id);
      assert reqs[..j] == reqs[..j - 1] + [reqs[j - 1]];
      ServeAllExtends(db, reqs[..j - 1], reqs[j - 1]);
    }
  }

  lemma SettledOnceIsClean(db: DB, reqs: seq<Request>)
    requires SettledOnce(db, reqs)
    ensures CleanRun(db, reqs)
  {
    forall i | 0 <= i < |reqs| ensures Clean(ServeAll(db, reqs[..i]), reqs[i]) {
      if Settling(reqs[i]) {
        PendingUntilSettled(db, reqs[..i], reqs[i].id);
      }
    }
  }

  lemma CleanIsSettledOnce(db: DB, reqs: seq<Request>)
    requires CleanRun(db, reqs) && AllServed(db, reqs)
    ensures SettledOnce(db, reqs)
  {
    forall i | 0 <= i < |reqs| && Settling(reqs[i]) && reqs[i].id in db.orders
      ensures db.orders[reqs[i].id].status == Pending
    {
      assert Clean(ServeAll(db, reqs[..i]), reqs[i]);
      if db.orders[reqs[i].id].status != Pending {
        assert reqs[..0] == [];
        SettledStaysFrom(db, reqs, 0, i, reqs[i].id);
      }
    }
    forall i, j | 0 <= i < j < |reqs| && Settling(reqs[i]) && Settling(reqs[j]) ensures reqs[i].id != reqs[j].id {
      assert Clean(ServeAll(db, reqs[..j]), reqs[j]);
      if reqs[i].id == reqs[j].id {
        assert ServedAt(db, reqs, i);
        assert reqs[..i + 1][..i] == reqs[..i];
        SettledStaysFrom(db, reqs, i + 1, j, reqs[i].id);
      }
    }
  }

  /**
    Which runs of requests that go through are clean can be read off the requests: exactly those in
    which no order is settled twice, nor any the start already holds settled.
  */
  lemma CleanIffSettledOnce(db: DB, reqs: seq<Request>)
    requires AllServed(db, reqs)
    ensures CleanRun(db, reqs) <==> SettledOnce(db, reqs)
  {
    if SettledOnce(db, reqs) {
      SettledOnceIsClean(db, reqs);
    }
    if CleanRun(db, reqs) {
      CleanIsSettledOnce(db, reqs);
    }
  }
}
