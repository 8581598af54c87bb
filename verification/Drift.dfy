/**
  What still holds of the code as written: pay has no status guard, and pay and cancel act
  on an unlocked snapshot, so an order can be settled more than once.
*/
module Drift {
  import opened Common
  import opened Inventory
  import opened Orders
  import opened Ledger

  /** The request settles a stored order, and which way. */
  function Settles(db: DB, req: Request): Option<Kind> {
    match req
    case Place(_, _, _) => None
    case Pay(id) => if id in db.orders then Some(Commit) else None
    case Cancel(id, seen) => if id in db.orders && seen == Pending then Some(Release) else None
  }

  /** Pending units of `p` that are not reserved (beyond the opening reservation). */
  ghost function Gap(base: Stock, db: DB, p: ProductId): int
    requires p in base && p in db.stock
  {
    base[p].reserved + StatusSum(db.orders, Pending, p) - db.stock[p].reserved
  }

  /** Demand on `p` of an order that the request settles although it is no longer PENDING. */
  function Stray(db: DB, req: Request, p: ProductId): int {
    if Settles(db, req).Some? && db.orders[req.id].status != Pending then OrderDemand(db.orders[req.id], p) else 0
  }

  /** Demand on `p` of an order the request pays, whatever its status. */
  function Deducted(db: DB, req: Request, p: ProductId): int {
    if Settles(db, req) == Some(Commit) then OrderDemand(db.orders[req.id], p) else 0
  }

  function StrayTotal(db: DB, reqs: seq<Request>, p: ProductId): int {
    if reqs == [] then 0
    else
      var shorter := reqs[..|reqs| - 1];
      StrayTotal(db, shorter, p) + Stray(ServeAll(db, shorter), reqs[|reqs| - 1], p)
  }

  function DeductedTotal(db: DB, reqs: seq<Request>, p: ProductId): int {
    if reqs == [] then 0
    else
      var shorter := reqs[..|reqs| - 1];
      DeductedTotal(db, shorter, p) + Deducted(ServeAll(db, shorter), reqs[|reqs| - 1], p)
  }

  lemma ServeEffect(db: DB, req: Request)
    requires Sound(db)
    ensures Settles(db, req).Some? ==>
      && Serve(db, req).db == DB(Settled(Settles(db, req).value, db.stock, Parts(db.orders[req.id].items)),
           db.orders[req.id := db.orders[req.id].(status := if req.Pay? then Paid else Cancelled)])
    ensures Settles(db, req).None? && !req.Place? ==> Serve(db, req).db == db
  {
    if Settles(db, req).Some? {
      SettleOutcome(db, req.id, Settles(db, req).value, if req.Pay? then Paid else Cancelled);
    }
  }

  /** One request, clean or not: the gap stays non-negative and grows by at most the stray demand. */
  lemma ServeDrift(base: Stock, db: DB, req: Request, p: ProductId)
    requires Sound(db) && p in base && p in db.stock
    requires Gap(base, db, p) >= 0
    ensures var db' := Serve(db, req).db;
      && p in db'.stock
      && 0 <= Gap(base, db', p) <= Gap(base, db, p) + Stray(db, req, p)
      && db'.stock[p].quantity == Max(db.stock[p].quantity - Deducted(db, req, p), 0)
  {
    ServeKeepsSound(db, req);
    ServeEffect(db, req);
    if req.Place? {
      PlaceDrift(base, db, req, p);
    } else if Settles(db, req).Some? {
      SettleSums(db, req.id, if req.Pay? then Paid else Cancelled, p);
      OrderDemandNonNegative(db.orders[req.id], p);
      StatusSumCovers(db.orders, Pending, p);
    }
  }

  lemma PlaceDrift(base: Stock, db: DB, req: Request, p: ProductId)
    requires Sound(db) && p in base && p in db.stock && req.Place?
    ensures var db' := Serve(db, req).db;
      && p in db'.stock
      && Gap(base, db', p) == Gap(base, db, p)
      && db'.stock[p].quantity == db.stock[p].quantity
  {
    PlaceOrderAllOrNothing(db, req.id, req.customer, req.items);
    var out := Serve(db, req);
    if out.reply.Ok? {
      WantedPositive(req.items);
      StatusSumUpdate(db.orders, req.id, out.db.orders[req.id], Pending, p);
    }
  }

  /** Where a run from `db` may have ended, as far as product `p` is concerned. */
  ghost predicate DriftAt(base: Stock, db: DB, reqs: seq<Request>, after: DB, p: ProductId)
    requires p in base && p in db.stock
  {
    && Sound(after)
    && p in after.stock
    && 0 <= Gap(base, after, p) <= StrayTotal(db, reqs, p)
    && after.stock[p].quantity == Max(db.stock[p].quantity - DeductedTotal(db, reqs, p), 0)
    && DeductedTotal(db, reqs, p) >= 0
  }

  lemma DriftOneMore(base: Stock, db: DB, shorter: seq<Request>, last: Request, p: ProductId)
    requires p in base && p in db.stock && DriftAt(base, db, shorter, ServeAll(db, shorter), p)
    ensures DriftAt(base, db, shorter + [last], ServeAll(db, shorter + [last]), p)
  {
    var before := ServeAll(db, shorter);
    ServeAllExtends(db, shorter, last);
    ServeKeepsSound(before, last);
    ServeDrift(base, before, last, p);
    DeductedNonNegative(before, last, p);
  }

  /**
    Drift bound: over every run of the code as written, the reservation never exceeds the
    pending lines, falls short of them by at most the demand settled on orders no longer
    PENDING, and on-hand is exactly the start less everything ever paid, floored at zero.
  */
  lemma {:induction false} DriftBound(base: Stock, db: DB, reqs: seq<Request>, p: ProductId)
    requires Inv(base, db) && p in base
    ensures DriftAt(base, db, reqs, ServeAll(db, reqs), p)
  {
    if reqs == [] {
      assert ExactAt(base, db, p);
    } else {
      DriftBound(base, db, reqs[..|reqs| - 1], p);
      DriftOneMore(base, db, reqs[..|reqs| - 1], reqs[|reqs| - 1], p);
      assert reqs[..|reqs| - 1] + [reqs[|reqs| - 1]] == reqs;
    }
  }

  lemma DeductedNonNegative(db: DB, req: Request, p: ProductId)
    ensures Deducted(db, req, p) >= 0
  {
    if Settles(db, req).Some? {
      OrderDemandNonNegative(db.orders[req.id], p);
    }
  }

  /** Nothing an order stores but its status ever changes, and no order goes back to PENDING. */
  lemma {:induction false} OrdersArePermanent(db: DB, reqs: seq<Request>, id: OrderId)
    requires Sound(db) && id in db.orders
    ensures var db' := ServeAll(db, reqs);
      && Sound(db')
      && id in db'.orders
      && db'.orders[id] == db.orders[id].(status := db'.orders[id].status)
      && (db.orders[id].status != Pending ==> db'.orders[id].status != Pending)
  {
    if reqs == [] {
    } else {
      var before, last := ServeAll(db, reqs[..|reqs| - 1]), reqs[|reqs| - 1];
      OrdersArePermanent(db, reqs[..|reqs| - 1], id);
      ServeKeepsSound(before, last);
      ServeEffect(before, last);
    }
  }

  /**
    In every run, clean or not, `0 <= reserved <= quantity`, so what is available is the exact
    difference, and on-hand never rises above the start; the stored total of every order is the
    sum of its stored lines.
  */
  lemma {:induction false} AlwaysBounded(db: DB, reqs: seq<Request>)
    requires Sound(db)
    ensures var db' := ServeAll(db, reqs);
      && Sound(db')
      && db'.stock.Keys == db.stock.Keys
      && (forall p | p in db.stock ::
            && db'.stock[p].Available() == db'.stock[p].quantity - db'.stock[p].reserved
            && db'.stock[p].quantity <= db.stock[p].quantity)
  {
    if reqs == [] {
    } else {
      var before, last := ServeAll(db, reqs[..|reqs| - 1]), reqs[|reqs| - 1];
      AlwaysBounded(db, reqs[..|reqs| - 1]);
      ServeKeepsSound(before, last);
      forall p | p in db.stock ensures Serve(before, last).db.stock[p].quantity <= before.stock[p].quantity {
        if last.Place? {
          PlaceDrift(db.stock, before, last, p);
        } else {
          ServeEffect(before, last);
          if Settles(before, last).Some? {
            OrderDemandNonNegative(before.orders[last.id], p);
          }
        }
      }
    }
  }

  /** Money agreement: after any run, whatever prices each line saw, recalculating a stored total changes nothing. */
  lemma RecalculatingIsANoOp(db: DB, reqs: seq<Request>, id: OrderId)
    requires Sound(db) && id in ServeAll(db, reqs).orders
    ensures var orders := ServeAll(db, reqs).orders;
      orders[id := orders[id].(total := Total(orders[id].items))] == orders
  {
    AlwaysBounded(db, reqs);
  }

  lemma SingleLine(db: DB, id: OrderId, customer: CustomerId, item: Item)
    requires id !in db.orders && Lookup(item).Some? && item.quantity >= 1
    requires item.product in db.stock && db.stock[item.product].Available() >= item.quantity
    ensures var row := db.stock[item.product]; var lines := [Line(item.product, item.quantity, Lookup(item).value)];
      Serve(db, Place(id, customer, [item])).db ==
      DB(db.stock[item.product := row.(reserved := row.reserved + item.quantity)],
         db.orders[id := Order(customer, Pending, Lookup(item).value * item.quantity, lines)])
  {
    assert [item][..|[item]| - 1] == [];
    assert PlaceLines(db.stock, []) == Placing(db.stock, [], [], 0, None);
    assert PlaceLines(db.stock, [item]) == PlaceLine(Placing(db.stock, [], [], 0, None), item);
    assert PlaceLines(db.stock, [item]).lines == [Line(item.product, item.quantity, Lookup(item).value)];
  }

  /** Everything reserved of the order's products is reserved by that order. */
  predicate SoleReserver(db: DB, id: OrderId)
    requires id in db.orders
  {
    forall p | p in db.stock && OrderDemand(db.orders[id], p) > 0 :: db.stock[p].reserved == OrderDemand(db.orders[id], p)
  }

  /**
    Two cancels of one pending order, both acting on the snapshot that read PENDING, keep the exact
    ledger if and only if nothing else was reserved of any product the order asks for.
  */
  lemma CancelTwiceIff(base: Stock, db: DB, id: OrderId)
    requires Inv(base, db) && id in db.orders && db.orders[id].status == Pending
    ensures var cancel := Cancel(id, Pending);
      Exact(base, Serve(Serve(db, cancel).db, cancel).db) <==> SoleReserver(db, id)
  {
    var once := Serve(db, Cancel(id, Pending)).db;
    ServeKeepsExact(base, db, Cancel(id, Pending));
    ServeEffect(db, Cancel(id, Pending));
    SettleExactIff(base, once, id, false);
    forall p | p in db.stock
      ensures HarmlessAt(once, id, Release, p) <==>
              (OrderDemand(db.orders[id], p) > 0 ==> db.stock[p].reserved == OrderDemand(db.orders[id], p))
    {
      assert ExactAt(base, db, p);
      StatusSumCovers(db.orders, Pending, p);
    }
  }

  lemma SharedProduct(db: DB, id: OrderId, p: ProductId)
    requires id in db.orders && p in db.stock && |db.orders[id].items| == 1 && db.orders[id].items[0].product == p
    requires db.stock[p].reserved > db.orders[id].items[0].quantity
    ensures !SoleReserver(db, id)
  {
    var parts := Parts(db.orders[id].items);
    assert parts == [] + [parts[0]];
    DemandExtends([], parts[0]);
    assert OrderDemand(db.orders[id], p) == parts[0].amount;
  }

  /** Two orders of three units each, out of ten. */
  lemma TwoPlaced(base: Stock, items: seq<Item>) returns (db: DB)
    requires base == map[0 := StockItem(10, 0, 0)]
    requires items == [Item(0, 3, map[0 := Product(100, true)])]
    ensures db == ServeAll(DB(base, map[]), [Place(1, 7, items), Place(2, 8, items)])
    ensures Inv(base, db) && 1 in db.orders && db.orders[1] == Order(7, Pending, 300, [Line(0, 3, 100)])
    ensures 0 in db.stock && db.stock[0].reserved == 6
  {
    var db0 := DB(base, map[]);
    var first, second := Place(1, 7, items), Place(2, 8, items);
    var db1 := Serve(db0, first).db;
    SingleLine(db0, 1, 7, items[0]);
    ServeKeepsExact(base, db0, first);
    db := Serve(db1, second).db;
    SingleLine(db1, 2, 8, items[0]);
    ServeKeepsExact(base, db1, second);
    assert ServeAll(db0, []) == db0;
    ServeAllExtends(db0, [], first);
    ServeAllExtends(db0, [first], second);
    assert [] + [first] == [first] && [first] + [second] == [first, second];
  }

  /**
    The exact ledger does fail without the guard, and with no payment at all: two cancels that
    both read PENDING release one order twice, and another order loses its reservation.
  */
  lemma StaleCancelBreaksExact(base: Stock, items: seq<Item>)
    requires base == map[0 := StockItem(10, 0, 0)]
    requires items == [Item(0, 3, map[0 := Product(100, true)])]
    ensures Inv(base, DB(base, map[]))
    ensures !Exact(base, ServeAll(DB(base, map[]), [Place(1, 7, items), Place(2, 8, items), Cancel(1, Pending), Cancel(1, Pending)]))
  {
    var db0 := DB(base, map[]);
    var first, second, cancel := Place(1, 7, items), Place(2, 8, items), Cancel(1, Pending);
    var db2 := TwoPlaced(base, items);
    SharedProduct(db2, 1, 0);
    CancelTwiceIff(base, db2, 1);
    ServeAllExtends(db0, [first, second], cancel);
    ServeAllExtends(db0, [first, second, cancel], cancel);
    assert [first, second] + [cancel] == [first, second, cancel];
    assert [first, second, cancel] + [cancel] == [first, second, cancel, cancel];
  }
}
