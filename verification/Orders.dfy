/**
  Order lifecycle (apps/orders/services.py): placing, paying and cancelling drive the
  stock services line by line inside one transaction.

  The specification functions say what one whole request leaves behind; `OrderService`
  holds the loops and the savepoint rollback, proved against them.
*/
module Orders {
  import opened Common
  import opened Inventory

  type OrderId = int     // UUIDs; only their identity matters
  type CustomerId = int
  type Pos = x: int | x >= 1 witness 1  // CHECK (quantity > 0)

  datatype Status = Pending | Paid | Shipped | Delivered | Cancelled

  /** An OrderItem row; money is in integer cents. */
  datatype Line = Line(product: ProductId, quantity: Pos, unitPrice: int) {
    function Subtotal(): int {
      unitPrice * quantity
    }
  }

  datatype Order = Order(customer: CustomerId, status: Status, total: int, items: seq<Line>)

  type OrderTable = map<OrderId, Order>

  datatype DB = DB(stock: Stock, orders: OrderTable)

  datatype Product = Product(price: int, active: bool)

  type Catalog = map<ProductId, Product>

  /** A requested line, with the catalogue as this line's own lookup sees it. */
  datatype Item = Item(product: ProductId, quantity: int, catalog: Catalog)

  /** The price the lookup `get(id=..., is_active=True)` finds, if any. */
  function Lookup(item: Item): Option<int> {
    if item.product in item.catalog && item.catalog[item.product].active
    then Some(item.catalog[item.product].price)
    else None
  }

  function Parts(lines: seq<Line>): seq<Part> {
    seq(|lines|, i requires 0 <= i < |lines| => Part(lines[i].product, lines[i].quantity))
  }

  function Wanted(items: seq<Item>): seq<Part> {
    seq(|items|, i requires 0 <= i < |items| => Part(items[i].product, items[i].quantity))
  }

  function Total(lines: seq<Line>): int {
    if lines == [] then 0 else Total(lines[..|lines| - 1]) + lines[|lines| - 1].Subtotal()
  }

  // ---------------------------------------------------------------- placing, line by line

  datatype Placing = Placing(stock: Stock, events: seq<StockEvent>, lines: seq<Line>, total: int, failure: Option<Error>)

  function PlaceLine(p: Placing, item: Item): Placing {
    match Lookup(item)
    case None => p.(failure := Some(ProductNotFound))
    case Some(price) =>
      var t := Advance(Reserve, Trace(p.stock, p.events, None), Part(item.product, item.quantity));
      if t.failure.Some? then
        p.(stock := t.stock, events := t.events, failure := t.failure)
      else if item.quantity < 1 then
        p.(stock := t.stock, events := t.events, failure := Some(IntegrityViolation))
      else
        Placing(t.stock, t.events, p.lines + [Line(item.product, item.quantity, price)],
                p.total + price * item.quantity, None)
  }

  function PlaceLines(stock: Stock, items: seq<Item>): Placing {
    if items == [] then Placing(stock, [], [], 0, None)
    else
      var p := PlaceLines(stock, items[..|items| - 1]);
      if p.failure.Some? then p else PlaceLine(p, items[|items| - 1])
  }

  lemma {:induction false} PlaceLinesStops(stock: Stock, items: seq<Item>, i: nat)
    requires i <= |items|
    requires PlaceLines(stock, items[..i]).failure.Some?
    ensures PlaceLines(stock, items) == PlaceLines(stock, items[..i])
    decreases |items|
  {
    if i == |items| {
      assert items[..i] == items;
    } else {
      var shorter := items[..|items| - 1];
      assert shorter[..i] == items[..i];
      PlaceLinesStops(stock, shorter, i);
    }
  }

  lemma PlaceLinesNext(stock: Stock, items: seq<Item>, i: nat)
    requires i < |items| && PlaceLines(stock, items[..i]).failure.None?
    ensures PlaceLines(stock, items[..i + 1]) == PlaceLine(PlaceLines(stock, items[..i]), items[i])
  {
    assert items[..i + 1][..i] == items[..i];
  }

  // ---------------------------------------------------------------- whole requests

  datatype Transition = OrderCreated | OrderPaid | OrderCancelled

  /** The payload of an `order.created`, `order.paid` or `order.cancelled` event. */
  datatype OrderEvent = OrderEvent(what: Transition, id: OrderId, customer: CustomerId, status: Status, total: int)

  function OrderEventOf(what: Transition, id: OrderId, order: Order): OrderEvent {
    OrderEvent(what, id, order.customer, order.status, order.total)
  }

  /** What a request leaves in the database, what it published to either topic, and what it returned or raised. */
  datatype Outcome = Outcome(db: DB, events: seq<StockEvent>, announced: seq<OrderEvent>, reply: Result<Order>) {
    /** The same outcome as the topics show it, after everything they already held. */
    function On(stockTopic: seq<StockEvent>, orderTopic: seq<OrderEvent>): Outcome {
      this.(events := stockTopic + events, announced := orderTopic + announced)
    }
  }

  function PlaceOutcome(db: DB, id: OrderId, customer: CustomerId, items: seq<Item>): Outcome {
    if id in db.orders then Outcome(db, [], [], Err(IntegrityViolation))
    else
      var p := PlaceLines(db.stock, items);
      if p.failure.Some? then Outcome(db, p.events, [], Err(p.failure.value))
      else
        var order := Order(customer, Pending, p.total, p.lines);
        Outcome(DB(p.stock, db.orders[id := order]), p.events, [OrderEventOf(OrderCreated, id, order)], Ok(order))
  }

  /** The stock half of paying or cancelling, and the status written if it goes through. */
  function Settle(db: DB, id: OrderId, kind: Kind, status: Status): Outcome
    requires id in db.orders
  {
    var order := db.orders[id].(status := status);
    var t := RunAll(kind, db.stock, Parts(order.items));
    if t.failure.Some? then Outcome(db, t.events, [], Err(t.failure.value))
    else
      var what := if kind == Commit then OrderPaid else OrderCancelled;
      Outcome(DB(t.stock, db.orders[id := order]), t.events, [OrderEventOf(what, id, order)], Ok(order))
  }

  function PayOutcome(db: DB, id: OrderId): Outcome
    requires id in db.orders
  {
    Settle(db, id, Commit, Paid)
  }

  /** `seen` is the status on the unlocked snapshot the view read. */
  function CancelOutcome(db: DB, id: OrderId, seen: Status): Outcome
    requires id in db.orders
  {
    if seen != Pending then Outcome(db, [], [], Err(NotPending)) else Settle(db, id, Release, Cancelled)
  }

  datatype Request =
    | Place(id: OrderId, customer: CustomerId, items: seq<Item>)
    | Pay(id: OrderId)
    | Cancel(id: OrderId, seen: Status)

  function Serve(db: DB, req: Request): Outcome {
    match req
    case Place(id, customer, items) => PlaceOutcome(db, id, customer, items)
    case Pay(id) =>
      if id in db.orders then PayOutcome(db, id) else Outcome(db, [], [], Err(OrderNotFound))
    case Cancel(id, seen) =>
      if id in db.orders then CancelOutcome(db, id, seen) else Outcome(db, [], [], Err(OrderNotFound))
  }

  /** Requests one after the other, each in its own transaction. */
  function ServeAll(db: DB, reqs: seq<Request>): DB {
    if reqs == [] then db else Serve(ServeAll(db, reqs[..|reqs| - 1]), reqs[|reqs| - 1]).db
  }

  // ---------------------------------------------------------------- all or nothing

  /** Every product exists and is active when its line looks it up, and every quantity is at least 1. */
  predicate Orderable(items: seq<Item>) {
    forall i | 0 <= i < |items| ::
      && items[i].product in items[i].catalog && items[i].catalog[items[i].product].active
      && items[i].quantity >= 1
  }

  /** The rows `place_order` stores for an orderable list: price as each lookup saw it. */
  function Lines(items: seq<Item>): seq<Line>
    requires Orderable(items)
  {
    seq(|items|, i requires 0 <= i < |items| =>
      Line(items[i].product, items[i].quantity, items[i].catalog[items[i].product].price))
  }

  lemma WantedPositive(items: seq<Item>)
    requires Orderable(items)
    ensures Positive(Wanted(items)) && Parts(Lines(items)) == Wanted(items)
  {
  }

  lemma PartsPositive(lines: seq<Line>)
    ensures Positive(Parts(lines))
  {
  }

  lemma OrderableExtends(shorter: seq<Item>, last: Item)
    ensures Orderable(shorter + [last]) <==> Orderable(shorter) && Lookup(last).Some? && last.quantity >= 1
    ensures Orderable(shorter + [last]) ==>
      Lines(shorter + [last]) == Lines(shorter) + [Line(last.product, last.quantity, Lookup(last).value)]
  {
    var items := shorter + [last];
    assert items[|shorter|] == last;
    assert forall i | 0 <= i < |shorter| :: items[i] == shorter[i];
  }

  /** A total is the sum of unit price times quantity over the lines. */
  lemma TotalExtends(shorter: seq<Line>, last: Line)
    ensures Total([]) == 0
    ensures Total(shorter + [last]) == Total(shorter) + last.unitPrice * last.quantity
  {
    assert (shorter + [last])[..|shorter + [last]| - 1] == shorter;
  }

  /** Placing a list of orderable lines is the reservation loop plus the stored rows and their total. */
  lemma {:induction false} PlaceLinesIsReserving(stock: Stock, items: seq<Item>)
    ensures var p := PlaceLines(stock, items); var t := RunAll(Reserve, stock, Wanted(items));
      && (p.failure.None? <==> Orderable(items) && t.failure.None?)
      && (p.failure.None? ==>
            p.stock == t.stock && p.events == t.events && p.lines == Lines(items) && p.total == Total(p.lines))
  {
    if items == [] {
    } else {
      var shorter, last := items[..|items| - 1], items[|items| - 1];
      var part := Part(last.product, last.quantity);
      PlaceLinesIsReserving(stock, shorter);
      assert Wanted(items) == Wanted(shorter) + [part];
      RunAllExtends(Reserve, stock, Wanted(shorter), part);
      assert items == shorter + [last];
      OrderableExtends(shorter, last);
      if Orderable(items) {
        TotalExtends(Lines(shorter), Line(last.product, last.quantity, Lookup(last).value));
      }
    }
  }

  /**
    `place_order` succeeds exactly when the id is new, every line is orderable, and for
    every product the demand of all its lines together is available at entry. It then
    reserves exactly that demand and stores one PENDING order; otherwise it changes nothing.
  */
  lemma PlaceOrderAllOrNothing(db: DB, id: OrderId, customer: CustomerId, items: seq<Item>)
    ensures var out := PlaceOutcome(db, id, customer, items);
      && (out.reply.Ok? <==> id !in db.orders && Orderable(items) && Fits(db.stock, Wanted(items)))
      && (out.reply.Ok? ==>
            && AddsDemand(db.stock, Wanted(items), out.db.stock)
            && out.db.orders == db.orders[id := Order(customer, Pending, Total(Lines(items)), Lines(items))])
      && (out.reply.Err? ==> out.db == db)
  {
    PlaceLinesIsReserving(db.stock, items);
    if Orderable(items) {
      WantedPositive(items);
      ReserveAllOrNothing(db.stock, Wanted(items));
    }
  }

  lemma ServeAllExtends(db: DB, reqs: seq<Request>, req: Request)
    ensures ServeAll(db, reqs + [req]) == Serve(ServeAll(db, reqs), req).db
  {
    assert (reqs + [req])[..|reqs + [req]| - 1] == reqs;
  }

  function TransitionOf(req: Request): Transition {
    match req
    case Place(_, _, _) => OrderCreated
    case Pay(_) => OrderPaid
    case Cancel(_, _) => OrderCancelled
  }

  /**
    A request that goes through announces exactly one order event: the customer, status and total of
    the order as stored. A request that raises announces none and changes nothing.
  */
  lemma OneAnnouncement(db: DB, req: Request)
    ensures var out := Serve(db, req);
      if out.reply.Ok? then
        && req.id in out.db.orders && out.reply.value == out.db.orders[req.id]
        && var o := out.db.orders[req.id];
        && out.announced == [OrderEvent(TransitionOf(req), req.id, o.customer, o.status, o.total)]
        && o.status == (if req.Place? then Pending else if req.Pay? then Paid else Cancelled)
      else out.announced == [] && out.db == db
  {
  }

  // ---------------------------------------------------------------- which error is raised

  /** All the lines can be placed: each orderable, and their demand available at entry. */
  predicate CanPlace(stock: Stock, items: seq<Item>) {
    Orderable(items) && Fits(stock, Wanted(items))
  }

  /** Why a line cannot be placed when the lines before it ask for `earlier` units of its product. */
  ghost function Refusal(stock: Stock, earlier: int, item: Item): Error {
    if item.product !in item.catalog || !item.catalog[item.product].active then ProductNotFound
    else if item.product !in stock then StockNotFound
    else if earlier + item.quantity > Left(stock[item.product]) then InsufficientStock
    else IntegrityViolation  // fewer than one unit
  }

  /** The line `i` is the first that cannot be placed. */
  predicate FirstRefused(stock: Stock, items: seq<Item>, i: nat) {
    i < |items| && CanPlace(stock, items[..i]) && !CanPlace(stock, items[..i + 1])
  }

  lemma LineRefused(stock: Stock, p: Placing, earlier: int, item: Item)
    requires p.failure.None? && p.stock.Keys == stock.Keys
    requires item.product in stock ==>
      && 0 <= earlier <= Left(stock[item.product])
      && p.stock[item.product].quantity == stock[item.product].quantity
      && p.stock[item.product].reserved == stock[item.product].reserved + earlier
    requires !(Lookup(item).Some? && item.quantity >= 1 &&
               item.product in stock && earlier + item.quantity <= Left(stock[item.product]))
    ensures var q, e := PlaceLine(p, item), Refusal(stock, earlier, item);
      q.failure == Some(e) && (e != IntegrityViolation ==> q.events == p.events)
  {
  }

  lemma NextLineRefused(stock: Stock, prefix: seq<Item>, item: Item)
    requires CanPlace(stock, prefix) && !CanPlace(stock, prefix + [item])
    ensures var p, e := PlaceLines(stock, prefix + [item]), Refusal(stock, Demand(Wanted(prefix), item.product), item);
      && p.failure == Some(e)
      && (e != IntegrityViolation ==> p.events == RunAll(Reserve, stock, Wanted(prefix)).events)
  {
    var parts := Wanted(prefix);
    WantedPositive(prefix);
    PlaceLinesIsReserving(stock, prefix);
    ReserveAllOrNothing(stock, parts);
    if item.product in stock {
      PrefixFits(stock, parts, item.product);
    }
    if Lookup(item).Some? && item.quantity >= 1 && item.product in stock
       && Demand(parts, item.product) + item.quantity <= stock[item.product].Available()
    {
      CanPlaceExtends(stock, prefix, item);
    }
    LineRefused(stock, PlaceLines(stock, prefix), Demand(parts, item.product), item);
    assert (prefix + [item])[..|prefix + [item]| - 1] == prefix;
  }

  lemma CanPlaceExtends(stock: Stock, prefix: seq<Item>, item: Item)
    requires CanPlace(stock, prefix)
    requires Lookup(item).Some? && item.quantity >= 1 && item.product in stock
    requires Demand(Wanted(prefix), item.product) + item.quantity <= stock[item.product].Available()
    ensures CanPlace(stock, prefix + [item])
  {
    var part := Part(item.product, item.quantity);
    OrderableExtends(prefix, item);
    WantedPositive(prefix);
    assert Wanted(prefix + [item]) == Wanted(prefix) + [part];
    PositiveExtends(Wanted(prefix), part);
    FitsExtends(stock, Wanted(prefix), part);
  }

  lemma PositiveExtends(shorter: seq<Part>, last: Part)
    requires Positive(shorter) && last.amount >= 1
    ensures Positive(shorter + [last])
  {
  }

  /** What fits leaves no product over-reserved, the ones not asked for included. */
  lemma PrefixFits(stock: Stock, parts: seq<Part>, p: ProductId)
    requires Positive(parts) && Fits(stock, parts) && p in stock
    ensures 0 <= Demand(parts, p) <= stock[p].Available()
  {
    DemandNonNegative(parts, p);
    if Demand(parts, p) > 0 {
      var i :| 0 <= i < |parts| && parts[i].product == p;
    }
  }

  lemma {:induction false} FirstRefusedFails(stock: Stock, items: seq<Item>) returns (i: nat)
    requires !CanPlace(stock, items)
    ensures FirstRefused(stock, items, i)
    ensures var p, e := PlaceLines(stock, items), Refusal(stock, Demand(Wanted(items[..i]), items[i].product), items[i]);
      && p.failure == Some(e)
      && (e != IntegrityViolation ==> p.events == RunAll(Reserve, stock, Wanted(items[..i])).events)
  {
    var n := |items| - 1;
    if items == [] {
      assert false;
    } else if CanPlace(stock, items[..n]) {
      i := n;
      assert items == items[..n] + [items[n]] && items[..n + 1] == items;
      NextLineRefused(stock, items[..n], items[n]);
    } else {
      i := FirstRefusedFails(stock, items[..n]);
      assert items[..n][..i] == items[..i] && items[..n][..i + 1] == items[..i + 1];
    }
  }

  /**
    A placement under a new id that cannot go through raises what is wrong with the first line that
    cannot be placed: no active product, else no stock row, else too little available for that line and
    the ones before it, else a quantity below one. It leaves nothing behind but the stock events of the
    lines before it, which were published already.
  */
  lemma PlaceRefusal(db: DB, id: OrderId, customer: CustomerId, items: seq<Item>) returns (i: nat)
    requires id !in db.orders && !CanPlace(db.stock, items)
    ensures FirstRefused(db.stock, items, i)
    ensures var out := PlaceOutcome(db, id, customer, items); var item := items[i];
      && out.db == db && out.announced == []
      && (item.product !in item.catalog || !item.catalog[item.product].active ==> out.reply == Err(ProductNotFound))
      && (item.product in item.catalog && item.catalog[item.product].active ==>
            if item.product !in db.stock then out.reply == Err(StockNotFound)
            else
              var row, asked := db.stock[item.product], Demand(Wanted(items[..i + 1]), item.product);
              out.reply == Err(if asked > (if row.quantity > row.reserved then row.quantity - row.reserved else 0)
                               then InsufficientStock else IntegrityViolation))
      && (out.reply != Err(IntegrityViolation) ==> out.events == RunAll(Reserve, db.stock, Wanted(items[..i])).events)
  {
    i := FirstRefusedFails(db.stock, items);
    assert Wanted(items[..i + 1]) == Wanted(items[..i]) + [Part(items[i].product, items[i].quantity)];
    DemandExtends(Wanted(items[..i]), Part(items[i].product, items[i].quantity));
  }

  lemma {:induction false} SettlingFails(kind: Kind, stock: Stock, parts: seq<Part>)
    requires kind != Reserve
    ensures RunAll(kind, stock, parts).failure in {None, Some(StockNotFound)}
  {
    if parts == [] {
    } else {
      SettlingFails(kind, stock, parts[..|parts| - 1]);
    }
  }

  /**
    What paying and cancelling reply: 404 for an order that is not there; a domain error for a cancel
    whose snapshot was not PENDING; the missing row of a line that has none; and otherwise the order with
    its new status. A request that raises before its first line publishes nothing.
  */
  lemma SettleReplies(db: DB, req: Request)
    requires !req.Place?
    ensures var out := Serve(db, req);
      if req.id !in db.orders then out == Outcome(db, [], [], Err(OrderNotFound))
      else if req.Cancel? && req.seen != Pending then out == Outcome(db, [], [], Err(NotPending))
      else if !Known(db.stock, Parts(db.orders[req.id].items)) then
        out.db == db && out.announced == [] && out.reply == Err(StockNotFound)
      else out.reply == Ok(db.orders[req.id].(status := if req.Pay? then Paid else Cancelled))
  {
    if req.id in db.orders {
      var kind, parts := if req.Pay? then Commit else Release, Parts(db.orders[req.id].items);
      PartsPositive(db.orders[req.id].items);
      SettleCollapses(kind, db.stock, parts);
      SettlingFails(kind, db.stock, parts);
    }
  }

  // ---------------------------------------------------------------- the services

  class OrderService {
    const inventory: StockTable
    var orders: OrderTable
    var announced: seq<OrderEvent>  // the order topic

    constructor (inventory: StockTable)
      ensures this.inventory == inventory && orders == map[] && announced == []
    {
      this.inventory := inventory;
      orders := map[];
      announced := [];
    }

    function Contents(): DB
      reads this, inventory
    {
      DB(inventory.rows, orders)
    }

    method PublishOrderEvent(what: Transition, id: OrderId, order: Order)
      modifies this`announced
      ensures announced == old(announced) + [OrderEvent(what, id, order.customer, order.status, order.total)]
    {
      announced := announced + [OrderEvent(what, id, order.customer, order.status, order.total)];
    }

    /** Leaving the savepoint by an exception; what was published stays published. */
    method Rollback(rows: Stock, orders: OrderTable)
      modifies this`orders, inventory`rows
      ensures inventory.rows == rows && this.orders == orders
    {
      inventory.rows := rows;
      this.orders := orders;
    }

    /** One turn of the loop in `place_order`: look the product up, reserve, store the line. */
    method PlaceOneLine(id: OrderId, item: Item, ghost before: seq<StockEvent>, ghost p: Placing)
      returns (failure: Option<Error>, price: int)
      requires p.failure.None? && p.stock == inventory.rows && inventory.sent == before + p.events
      requires id in orders && orders[id].items == p.lines
      modifies this`orders, inventory
      ensures var q := PlaceLine(p, item);
        && failure == q.failure && inventory.rows == q.stock && inventory.sent == before + q.events
        && orders == old(orders)[id := old(orders[id]).(items := q.lines)]
        && (failure.None? ==> q.total == p.total + price * item.quantity)
    {
      if Lookup(item).None? {
        return Some(ProductNotFound), 0;
      }
      price := Lookup(item).value;
      failure := inventory.ReserveStock(item.product, item.quantity);
      if failure.Some? {
        return failure, 0;
      }
      if item.quantity < 1 {
        return Some(IntegrityViolation), 0;
      }
      orders := orders[id := orders[id].(items := orders[id].items + [Line(item.product, item.quantity, price)])];
    }

    /** The loop in `place_order`; on failure the rows are as the line that raised left them. */
    method PlaceAllLines(id: OrderId, items: seq<Item>) returns (failure: Option<Error>, total: int)
      requires id in orders && orders[id].items == []
      modifies this`orders, inventory
      ensures var p := PlaceLines(old(inventory.rows), items);
        && failure == p.failure && inventory.rows == p.stock && inventory.sent == old(inventory.sent) + p.events
        && orders == old(orders)[id := old(orders[id]).(items := p.lines)]
        && (failure.None? ==> total == p.total)
    {
      failure, total := None, 0;
      ghost var p := PlaceLines(inventory.rows, []);
      var i := 0;
      while i < |items| && failure.None?
        invariant 0 <= i <= |items|
        invariant p == PlaceLines(old(inventory.rows), items[..i]) && p.failure == failure
        invariant inventory.rows == p.stock && inventory.sent == old(inventory.sent) + p.events
        invariant orders == old(orders)[id := old(orders[id]).(items := p.lines)]
        invariant failure.None? ==> total == p.total
        decreases |items| - i
      {
        PlaceLinesNext(old(inventory.rows), items, i);
        var price;
        failure, price := PlaceOneLine(id, items[i], old(inventory.sent), p);
        p := PlaceLine(p, items[i]);
        total := total + price * items[i].quantity;
        i := i + 1;
      }
      if failure.Some? {
        PlaceLinesStops(old(inventory.rows), items, i);
      } else {
        assert items[..i] == items;
      }
    }

    method PlaceOrder(id: OrderId, customer: CustomerId, items: seq<Item>) returns (reply: Result<Order>)
      modifies this, inventory
      ensures Outcome(Contents(), inventory.sent, announced, reply) ==
              PlaceOutcome(old(Contents()), id, customer, items).On(old(inventory.sent), old(announced))
    {
      var savedRows, savedOrders := inventory.rows, orders;
      if id in orders {
        return Err(IntegrityViolation);
      }
      orders := orders[id := Order(customer, Pending, 0, [])];
      var failure, total := PlaceAllLines(id, items);
      if failure.Some? {
        Rollback(savedRows, savedOrders);
        return Err(failure.value);
      }
      var order := orders[id].(total := total);
      orders := orders[id := order];
      PublishOrderEvent(OrderCreated, id, order);
      return Ok(order);
    }

    /** The loop in `mark_order_paid`; on failure the rows are as the line that raised left them. */
    method CommitAllLines(lines: seq<Line>) returns (failure: Option<Error>)
      modifies inventory
      ensures var t := RunAll(Commit, old(inventory.rows), Parts(lines));
        inventory.rows == t.stock && inventory.sent == old(inventory.sent) + t.events && failure == t.failure
    {
      ghost var parts := Parts(lines);
      failure := None;
      var i := 0;
      while i < |lines| && failure.None?
        invariant 0 <= i <= |lines|
        invariant var t := RunAll(Commit, old(inventory.rows), parts[..i]);
          inventory.rows == t.stock && inventory.sent == old(inventory.sent) + t.events && failure == t.failure
        decreases |lines| - i
      {
        assert parts[..i + 1] == parts[..i] + [parts[i]];
        RunAllExtends(Commit, old(inventory.rows), parts[..i], parts[i]);
        failure := inventory.CommitStock(lines[i].product, lines[i].quantity);
        i := i + 1;
      }
      if failure.Some? {
        RunAllStops(Commit, old(inventory.rows), parts, i);
      } else {
        assert parts[..i] == parts;
      }
    }

    method MarkOrderPaid(id: OrderId) returns (reply: Result<Order>)
      requires id in orders
      modifies this, inventory
      ensures Outcome(Contents(), inventory.sent, announced, reply) ==
              PayOutcome(old(Contents()), id).On(old(inventory.sent), old(announced))
    {
      var savedRows, savedOrders := inventory.rows, orders;
      var order := orders[id].(status := Paid);
      orders := orders[id := order];
      var failure := CommitAllLines(order.items);
      if failure.Some? {
        Rollback(savedRows, savedOrders);
        return Err(failure.value);
      }
      PublishOrderEvent(OrderPaid, id, order);
      return Ok(order);
    }

    /** The loop in `cancel_order`; on failure the rows are as the line that raised left them. */
    method ReleaseAllLines(lines: seq<Line>) returns (failure: Option<Error>)
      modifies inventory
      ensures var t := RunAll(Release, old(inventory.rows), Parts(lines));
        inventory.rows == t.stock && inventory.sent == old(inventory.sent) + t.events && failure == t.failure
    {
      ghost var parts := Parts(lines);
      failure := None;
      var i := 0;
      while i < |lines| && failure.None?
        invariant 0 <= i <= |lines|
        invariant var t := RunAll(Release, old(inventory.rows), parts[..i]);
          inventory.rows == t.stock && inventory.sent == old(inventory.sent) + t.events && failure == t.failure
        decreases |lines| - i
      {
        assert parts[..i + 1] == parts[..i] + [parts[i]];
        RunAllExtends(Release, old(inventory.rows), parts[..i], parts[i]);
        failure := inventory.ReleaseStock(lines[i].product, lines[i].quantity);
        i := i + 1;
      }
      if failure.Some? {
        RunAllStops(Release, old(inventory.rows), parts, i);
      } else {
        assert parts[..i] == parts;
      }
    }

    method CancelOrder(id: OrderId, seen: Status) returns (reply: Result<Order>)
      requires id in orders
      modifies this, inventory
      ensures Outcome(Contents(), inventory.sent, announced, reply) ==
              CancelOutcome(old(Contents()), id, seen).On(old(inventory.sent), old(announced))
    {
      if seen != Pending {
        return Err(NotPending);
      }
      var savedRows, savedOrders := inventory.rows, orders;
      var order := orders[id];
      var failure := ReleaseAllLines(order.items);
      if failure.Some? {
        Rollback(savedRows, savedOrders);
        return Err(failure.value);
      }
      order := order.(status := Cancelled);
      orders := orders[id := order];
      PublishOrderEvent(OrderCancelled, id, order);
      return Ok(order);
    }

    /** `Order.recalculate_total`: the stored total again, from the stored lines. */
    method RecalculateTotal(id: OrderId)
      requires id in orders
      modifies this`orders
      ensures orders == old(orders)[id := old(orders[id]).(total := Total(old(orders[id]).items))]
    {
      var order := orders[id];
      var sum := 0;
      var i := 0;
      while i < |order.items|
        invariant 0 <= i <= |order.items|
        invariant sum == Total(order.items[..i])
      {
        assert order.items[..i + 1][..|order.items[..i + 1]| - 1] == order.items[..i];
        sum := sum + order.items[i].Subtotal();
        i := i + 1;
      }
      assert order.items[..i] == order.items;
      orders := orders[id := order.(total := sum)];
    }
  }
}
