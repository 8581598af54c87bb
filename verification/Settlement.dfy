/**
  Consequences of the exact ledger over whole runs: no oversell however the pending orders are
  settled, and a cancel that undoes its placing across everything that happened in between.
*/
module Settlement {
  import opened Common
  import opened Inventory
  import opened Orders
  import opened Ledger
  import opened Drift

  /** Pay the order, or cancel it. */
  datatype Decision = Decision(id: OrderId, pay: bool)

  function ToRequest(d: Decision): Request {
    if d.pay then Pay(d.id) else Cancel(d.id, Pending)
  }

  function Requests(plan: seq<Decision>): seq<Request> {
    seq(|plan|, i requires 0 <= i < |plan| => ToRequest(plan[i]))
  }

  /** Each order is decided once. */
  ghost predicate Distinct(plan: seq<Decision>) {
    forall i, j | 0 <= i < j < |plan| :: plan[i].id != plan[j].id
  }

  /** Every decision is about an order that is still PENDING. */
  ghost predicate OnPending(db: DB, plan: seq<Decision>) {
    forall d | d in plan :: d.id in db.orders && db.orders[d.id].status == Pending
  }

  /** The plan decides every pending order of the table. */
  ghost predicate Covers(db: DB, plan: seq<Decision>) {
    forall id | id in db.orders && db.orders[id].status == Pending :: exists d :: d in plan && d.id == id
  }

  ghost function Decided(orders: OrderTable, plan: seq<Decision>): OrderTable {
    map id | id in orders ::
      orders[id].(status := if Decision(id, true) in plan then Paid
                            else if Decision(id, false) in plan then Cancelled
                            else orders[id].status)
  }

  lemma DecidedExtends(orders: OrderTable, shorter: seq<Decision>, last: Decision)
    requires last.id in orders && forall d | d in shorter :: d.id != last.id
    ensures Decided(orders, shorter)[last.id] == orders[last.id]
    ensures Decided(orders, shorter + [last]) ==
            Decided(orders, shorter)[last.id := orders[last.id].(status := if last.pay then Paid else Cancelled)]
  {
    assert Decision(last.id, true) !in shorter && Decision(last.id, false) !in shorter;
    assert last == Decision(last.id, last.pay);
    assert forall d :: d in shorter + [last] <==> d in shorter || d == last;
  }

  lemma DecideOne(base: Stock, db: DB, d: Decision)
    requires Inv(base, db) && d.id in db.orders && db.orders[d.id].status == Pending
    ensures Inv(base, Serve(db, ToRequest(d)).db)
    ensures Serve(db, ToRequest(d)).db.orders ==
            db.orders[d.id := db.orders[d.id].(status := if d.pay then Paid else Cancelled)]
  {
    ServeKeepsExact(base, db, ToRequest(d));
    ServeEffect(db, ToRequest(d));
  }

  lemma {:induction false} SettlePlan(base: Stock, db: DB, plan: seq<Decision>)
    requires Inv(base, db) && Distinct(plan) && OnPending(db, plan)
    ensures Inv(base, ServeAll(db, Requests(plan)))
    ensures ServeAll(db, Requests(plan)).orders == Decided(db.orders, plan)
  {
    if plan == [] {
      assert Decided(db.orders, plan) == db.orders;
    } else {
      var shorter, last := plan[..|plan| - 1], plan[|plan| - 1];
      assert plan == shorter + [last];
      SettlePlan(base, db, shorter);
      assert Requests(plan) == Requests(shorter) + [ToRequest(last)];
      ServeAllExtends(db, Requests(shorter), ToRequest(last));
      DecidedExtends(db.orders, shorter, last);
      DecideOne(base, ServeAll(db, Requests(shorter)), last);
    }
  }

  /**
    No oversell: whichever pending orders are paid and whichever cancelled, and in whatever
    order, all of them can be settled; nothing of theirs stays reserved and on-hand is the start
    minus everything paid.
  */
  lemma SettleEverything(base: Stock, db: DB, plan: seq<Decision>)
    requires Inv(base, db) && Distinct(plan) && OnPending(db, plan) && Covers(db, plan)
    ensures var end := ServeAll(db, Requests(plan));
      && Sound(end) && end.stock.Keys == base.Keys
      && (forall id | id in end.orders :: end.orders[id].status != Pending)
      && (forall p | p in base ::
            && end.stock[p].reserved == base[p].reserved
            && end.stock[p].quantity == base[p].quantity - StatusSum(end.orders, Paid, p))
  {
    SettlePlan(base, db, plan);
    var end := ServeAll(db, Requests(plan));
    forall id | id in end.orders ensures end.orders[id].status != Pending {
      if db.orders[id].status == Pending {
        var d :| d in plan && d.id == id;
        assert d == Decision(id, d.pay);
      }
    }
    forall p | p in base
      ensures end.stock[p].reserved == base[p].reserved
      ensures end.stock[p].quantity == base[p].quantity - StatusSum(end.orders, Paid, p)
    {
      assert ExactAt(base, end, p);
      NoneInStatus(end.orders, end.orders.Keys, Pending, p);
    }
  }

  lemma {:induction false} NoneInStatus(orders: OrderTable, ids: set<OrderId>, st: Status, p: ProductId)
    requires ids <= orders.Keys && forall id | id in ids :: orders[id].status != st
    ensures SumOver(orders, ids, st, p) == 0
    decreases ids
  {
    if ids == {} {
    } else {
      NoneInStatus(orders, ids - {Pick(ids)}, st, p);
    }
  }

  lemma SameDecisions(db: DB, a: seq<Decision>, b: seq<Decision>)
    requires multiset(a) == multiset(b) && OnPending(db, a)
    ensures OnPending(db, b) && Decided(db.orders, a) == Decided(db.orders, b)
  {
    forall d ensures d in a <==> d in b {
      assert d in multiset(a) <==> d in multiset(b);
    }
  }

  /** Two plans with the same decisions in any two orders end in the same database. */
  lemma SettlementCommutes(base: Stock, db: DB, a: seq<Decision>, b: seq<Decision>)
    requires Inv(base, db) && Distinct(a) && OnPending(db, a) && Distinct(b)
    requires multiset(a) == multiset(b)
    ensures ServeAll(db, Requests(a)) == ServeAll(db, Requests(b))
  {
    SameDecisions(db, a, b);
    SettlePlan(base, db, a);
    SettlePlan(base, db, b);
    SameTable(base, ServeAll(db, Requests(a)), ServeAll(db, Requests(b)), Decided(db.orders, a), Decided(db.orders, b));
  }

  lemma SameTable(base: Stock, a: DB, b: DB, ordersA: OrderTable, ordersB: OrderTable)
    requires Exact(base, a) && Exact(base, b) && a.orders == ordersA && b.orders == ordersB
    requires ordersA == ordersB
    ensures a == b
  {
    ExactDetermines(base, a, b);
  }

  // ---------------------------------------------------------------- cancel undoes place

  /** The middle run leaves order `id` alone, is clean, and all its placements go through. */
  ghost predicate Unrelated(db: DB, id: OrderId, reqs: seq<Request>) {
    && CleanRun(db, reqs)
    && forall i | 0 <= i < |reqs| ::
      && reqs[i].id != id
      && (reqs[i].Place? ==> Serve(ServeAll(db, reqs[..i]), reqs[i]).reply.Ok?)
  }

  /** `a` is `b` with the pending order `id` on top. */
  ghost predicate Extra(base: Stock, a: DB, b: DB, id: OrderId) {
    && Inv(base, a) && Inv(base, b)
    && id in a.orders && id !in b.orders && a.orders[id].status == Pending
    && a.orders == b.orders[id := a.orders[id]]
  }

  lemma ExtraReservesMore(base: Stock, a: DB, b: DB, id: OrderId, p: ProductId)
    requires Extra(base, a, b, id) && p in base
    ensures a.stock[p].quantity == b.stock[p].quantity
    ensures a.stock[p].reserved == b.stock[p].reserved + OrderDemand(a.orders[id], p)
    ensures a.stock[p].Available() <= b.stock[p].Available()
  {
    StatusSumUpdate(b.orders, id, a.orders[id], Pending, p);
    StatusSumUpdate(b.orders, id, a.orders[id], Paid, p);
    OrderDemandNonNegative(a.orders[id], p);
    assert ExactAt(base, a, p) && ExactAt(base, b, p);
  }

  lemma ExtraPlace(base: Stock, a: DB, b: DB, id: OrderId, req: Request)
    requires Extra(base, a, b, id) && req.Place? && req.id != id && Serve(a, req).reply.Ok?
    ensures Serve(b, req).reply.Ok?
    ensures Serve(a, req).db.orders == Serve(b, req).db.orders[id := a.orders[id]]
  {
    PlaceOrderAllOrNothing(a, req.id, req.customer, req.items);
    PlaceOrderAllOrNothing(b, req.id, req.customer, req.items);
    var parts := Wanted(req.items);
    forall i | 0 <= i < |parts|
      ensures parts[i].product in b.stock && Demand(parts, parts[i].product) <= b.stock[parts[i].product].Available()
    {
      ExtraReservesMore(base, a, b, id, parts[i].product);
    }
  }

  lemma ExtraSettle(base: Stock, a: DB, b: DB, id: OrderId, req: Request)
    requires Extra(base, a, b, id) && !req.Place? && req.id != id
    ensures Serve(a, req).db.orders == Serve(b, req).db.orders[id := a.orders[id]]
  {
    ServeEffect(a, req);
    ServeEffect(b, req);
  }

  /** A request about another order does the same thing with and without the extra order. */
  lemma ExtraStep(base: Stock, a: DB, b: DB, id: OrderId, req: Request)
    requires Extra(base, a, b, id) && Clean(a, req) && req.id != id
    requires req.Place? ==> Serve(a, req).reply.Ok?
    ensures Extra(base, Serve(a, req).db, Serve(b, req).db, id)
    ensures Serve(a, req).db.orders[id] == a.orders[id]
  {
    ServeKeepsExact(base, a, req);
    ServeKeepsExact(base, b, req);
    if req.Place? {
      ExtraPlace(base, a, b, id, req);
    } else {
      ExtraSettle(base, a, b, id, req);
    }
  }

  lemma {:induction false} ExtraRun(base: Stock, a: DB, b: DB, id: OrderId, reqs: seq<Request>)
    requires Extra(base, a, b, id) && Unrelated(a, id, reqs)
    ensures Extra(base, ServeAll(a, reqs), ServeAll(b, reqs), id)
    ensures ServeAll(a, reqs).orders[id] == a.orders[id]
  {
    if reqs == [] {
    } else {
      var shorter, last := reqs[..|reqs| - 1], reqs[|reqs| - 1];
      assert Unrelated(a, id, shorter) by {
        forall i | 0 <= i < |shorter|
          ensures shorter[i].id != id && Clean(ServeAll(a, shorter[..i]), shorter[i])
          ensures shorter[i].Place? ==> Serve(ServeAll(a, shorter[..i]), shorter[i]).reply.Ok?
        {
          assert shorter[..i] == reqs[..i] && shorter[i] == reqs[i];
        }
      }
      ExtraRun(base, a, b, id, shorter);
      ExtraStep(base, ServeAll(a, shorter), ServeAll(b, shorter), id, last);
    }
  }

  /**
    Cancel undoes place across a gap: placing an order, any clean run about other orders in which
    every placement goes through, and cancelling the order leave the same stock as that run alone.
  */
  lemma CancelUndoesPlace(base: Stock, db: DB, place: Request, middle: seq<Request>)
    requires Inv(base, db) && place.Place? && Serve(db, place).reply.Ok?
    requires Unrelated(Serve(db, place).db, place.id, middle)
    ensures var end := Serve(ServeAll(Serve(db, place).db, middle), Cancel(place.id, Pending)); var alone := ServeAll(db, middle);
      && end.reply.Ok?
      && end.db.stock == alone.stock
      && end.db.orders == alone.orders[place.id := Serve(db, place).reply.value.(status := Cancelled)]
  {
    PlaceOrderAllOrNothing(db, place.id, place.customer, place.items);
    var a := Serve(db, place).db;
    ServeKeepsExact(base, db, place);
    ExtraRun(base, a, db, place.id, middle);
    CancelExtra(base, ServeAll(a, middle), ServeAll(db, middle), place.id);
  }

  lemma CancelExtra(base: Stock, a: DB, b: DB, id: OrderId)
    requires Extra(base, a, b, id)
    ensures var end := Serve(a, Cancel(id, Pending));
      && end.reply.Ok?
      && end.db == DB(b.stock, b.orders[id := a.orders[id].(status := Cancelled)])
  {
    ServeKeepsExact(base, a, Cancel(id, Pending));
    SettleOutcome(a, id, Release, Cancelled);
    var end := Serve(a, Cancel(id, Pending)).db;
    assert end.orders == b.orders[id := end.orders[id]];
    forall p | p in base
      ensures StatusSum(end.orders, Pending, p) == StatusSum(b.orders, Pending, p)
      ensures StatusSum(end.orders, Paid, p) == StatusSum(b.orders, Paid, p)
    {
      StatusSumUpdate(b.orders, id, end.orders[id], Pending, p);
      StatusSumUpdate(b.orders, id, end.orders[id], Paid, p);
    }
    ExactDetermines(base, end, b);
  }
}
