/**
  Stock counters (apps/inventory): one row per product, three row-locked updates.

  A row is a value: the ORM instance each service fetches is a private copy of the
  database row, written back by `save`.
*/
module Inventory {
  import opened Common

  type ProductId = int  // a UUID; only its identity matters

  datatype StockItem = StockItem(quantity: nat, reserved: nat, threshold: nat) {
    function Available(): nat {
      Max(quantity - reserved, 0)
    }

    predicate BelowReorderThreshold() {
      Available() <= threshold
    }

    predicate Bounded() {
      reserved <= quantity
    }
  }

  type Stock = map<ProductId, StockItem>

  ghost predicate Bounded(stock: Stock) {
    forall p | p in stock :: stock[p].Bounded()
  }

  datatype Kind = Reserve | Release | Commit

  /** One call of a stock service: which product, how many units. */
  datatype Part = Part(product: ProductId, amount: int)

  /** The payload of a `stock.reserved`, `stock.released` or `stock.committed` event. */
  datatype StockEvent = StockEvent(kind: Kind, product: ProductId, delta: int, available: nat, below: bool)

  function EventOf(kind: Kind, part: Part, item: StockItem): StockEvent {
    StockEvent(kind, part.product, part.amount, item.Available(), item.BelowReorderThreshold())
  }

  /** What one service call does to the locked row. */
  function ApplyRow(kind: Kind, item: StockItem, amount: int): Result<StockItem> {
    match kind
    case Reserve =>
      if item.Available() < amount then Err(InsufficientStock)
      else if item.reserved + amount < 0 then Err(IntegrityViolation)
      else Ok(item.(reserved := item.reserved + amount))
    case Release =>
      Ok(item.(reserved := Max(item.reserved - amount, 0)))
    case Commit =>
      Ok(item.(quantity := Max(item.quantity - amount, 0), reserved := Max(item.reserved - amount, 0)))
  }

  function Apply(kind: Kind, stock: Stock, part: Part): Result<StockItem> {
    if part.product !in stock then Err(StockNotFound) else ApplyRow(kind, stock[part.product], part.amount)
  }

  /** A loop of service calls so far: the table it left, what it published, what it raised. */
  datatype Trace = Trace(stock: Stock, events: seq<StockEvent>, failure: Option<Error>)

  function RunAll(kind: Kind, stock: Stock, parts: seq<Part>): Trace {
    if parts == [] then Trace(stock, [], None)
    else
      var t := RunAll(kind, stock, parts[..|parts| - 1]);
      if t.failure.Some? then t else Advance(kind, t, parts[|parts| - 1])
  }

  function Advance(kind: Kind, t: Trace, part: Part): Trace {
    match Apply(kind, t.stock, part)
    case Err(e) => t.(failure := Some(e))
    case Ok(item) => Trace(t.stock[part.product := item], t.events + [EventOf(kind, part, item)], None)
  }

  /** A loop that raised in a prefix stays where it raised. */
  lemma {:induction false} RunAllStops(kind: Kind, stock: Stock, parts: seq<Part>, i: nat)
    requires i <= |parts|
    requires RunAll(kind, stock, parts[..i]).failure.Some?
    ensures RunAll(kind, stock, parts) == RunAll(kind, stock, parts[..i])
    decreases |parts|
  {
    if i == |parts| {
      assert parts[..i] == parts;
    } else {
      var shorter := parts[..|parts| - 1];
      assert shorter[..i] == parts[..i];
      RunAllStops(kind, stock, shorter, i);
    }
  }

  // ---------------------------------------------------------------- aggregate demand

  /** Units of product `p` asked for by all the calls together, repeats included. */
  function Demand(parts: seq<Part>, p: ProductId): int {
    if parts == [] then 0
    else
      var last := parts[|parts| - 1];
      Demand(parts[..|parts| - 1], p) + (if last.product == p then last.amount else 0)
  }

  predicate Positive(parts: seq<Part>) {
    forall i | 0 <= i < |parts| :: parts[i].amount >= 1
  }

  predicate Known(stock: Stock, parts: seq<Part>) {
    forall i | 0 <= i < |parts| :: parts[i].product in stock
  }

  /** Every product asked for exists and has enough available for the whole demand on it. */
  predicate Fits(stock: Stock, parts: seq<Part>) {
    forall i | 0 <= i < |parts| ::
      parts[i].product in stock && Demand(parts, parts[i].product) <= stock[parts[i].product].Available()
  }

  lemma {:induction false} DemandNonNegative(parts: seq<Part>, p: ProductId)
    requires Positive(parts)
    ensures Demand(parts, p) >= 0
    ensures (exists i | 0 <= i < |parts| :: parts[i].product == p) <==> Demand(parts, p) > 0
  {
    if parts == [] {
    } else {
      var shorter := parts[..|parts| - 1];
      DemandNonNegative(shorter, p);
      if Demand(shorter, p) > 0 {
        var i :| 0 <= i < |shorter| && shorter[i].product == p;
        assert parts[i].product == p;
      }
      if i :| 0 <= i < |parts| && parts[i].product == p {
        if i < |shorter| {
          assert shorter[i].product == p;
        }
      }
      assert parts[|parts| - 1].amount >= 1;
    }
  }

  /** `after` is `stock` with exactly the aggregate demand added to every reservation. */
  ghost predicate AddsDemand(stock: Stock, parts: seq<Part>, after: Stock) {
    && after.Keys == stock.Keys
    && forall p | p in stock ::
      && after[p].reserved == stock[p].reserved + Demand(parts, p)
      && after[p].quantity == stock[p].quantity
      && after[p].threshold == stock[p].threshold
  }

  ghost function SettledRow(kind: Kind, item: StockItem, demand: int): StockItem {
    item.(quantity := if kind == Commit then Max(item.quantity - demand, 0) else item.quantity,
          reserved := Max(item.reserved - demand, 0))
  }

  /** The table after one clamped subtraction of the aggregate demand per row. */
  ghost function Settled(kind: Kind, stock: Stock, parts: seq<Part>): Stock {
    map p | p in stock :: SettledRow(kind, stock[p], Demand(parts, p))
  }

  lemma {:induction false} FitsExtends(stock: Stock, shorter: seq<Part>, last: Part)
    requires Positive(shorter + [last])
    ensures Positive(shorter)
    ensures Fits(stock, shorter + [last]) <==>
      && Fits(stock, shorter)
      && last.product in stock
      && Demand(shorter, last.product) + last.amount <= stock[last.product].Available()
  {
    var parts := shorter + [last];
    forall i | 0 <= i < |shorter| ensures shorter[i] == parts[i] && shorter[i].amount >= 1 {
    }
    assert parts[|parts| - 1] == last && last.amount >= 1;
    DemandExtends(shorter, last);
  }

  lemma DemandExtends(shorter: seq<Part>, last: Part)
    ensures forall p {:trigger Demand(shorter + [last], p)} ::
      Demand(shorter + [last], p) == Demand(shorter, p) + (if last.product == p then last.amount else 0)
  {
    assert (shorter + [last])[..|shorter + [last]| - 1] == shorter;
  }

  lemma RunAllExtends(kind: Kind, stock: Stock, shorter: seq<Part>, last: Part)
    ensures var t := RunAll(kind, stock, shorter);
      RunAll(kind, stock, shorter + [last]) == if t.failure.Some? then t else Advance(kind, t, last)
  {
    assert (shorter + [last])[..|shorter + [last]| - 1] == shorter;
  }

  /**
    A loop of reservations succeeds exactly when the aggregate demand fits what was
    available at entry, and then adds exactly that demand.
  */
  lemma {:induction false} ReserveAllOrNothing(stock: Stock, parts: seq<Part>)
    requires Positive(parts)
    ensures RunAll(Reserve, stock, parts).failure.None? <==> Fits(stock, parts)
    ensures Fits(stock, parts) ==> AddsDemand(stock, parts, RunAll(Reserve, stock, parts).stock)
  {
    if parts == [] {
    } else {
      var shorter, last := parts[..|parts| - 1], parts[|parts| - 1];
      assert parts == shorter + [last];
      FitsExtends(stock, shorter, last);
      ReserveAllOrNothing(stock, shorter);
      RunAllExtends(Reserve, stock, shorter, last);
      if Fits(stock, shorter) {
        ReserveOneMore(stock, shorter, last, RunAll(Reserve, stock, shorter));
      }
    }
  }

  lemma ReserveOneMore(stock: Stock, shorter: seq<Part>, last: Part, t: Trace)
    requires Positive(shorter) && Positive(shorter + [last])
    requires t.failure.None? && AddsDemand(stock, shorter, t.stock)
    ensures var t' := Advance(Reserve, t, last);
      && (t'.failure.None? <==>
            last.product in stock && Demand(shorter, last.product) + last.amount <= stock[last.product].Available())
      && (t'.failure.None? ==> AddsDemand(stock, shorter + [last], t'.stock))
  {
    DemandExtends(shorter, last);
    DemandNonNegative(shorter, last.product);
    assert (shorter + [last])[|shorter|].amount >= 1;
  }

  /**
    A loop of releases (or commits) fails only on a missing row, and its clamped
    subtractions collapse into one clamped subtraction of the aggregate demand.
  */
  lemma {:induction false} SettleCollapses(kind: Kind, stock: Stock, parts: seq<Part>)
    requires kind != Reserve && Positive(parts)
    ensures RunAll(kind, stock, parts).failure.None? <==> Known(stock, parts)
    ensures Known(stock, parts) ==> RunAll(kind, stock, parts).stock == Settled(kind, stock, parts)
  {
    if parts == [] {
      assert Settled(kind, stock, parts) == stock;
    } else {
      var shorter, last := parts[..|parts| - 1], parts[|parts| - 1];
      assert parts == shorter + [last];
      SettleCollapses(kind, stock, shorter);
      RunAllExtends(kind, stock, shorter, last);
      if Known(stock, shorter) {
        SettleOneMore(kind, stock, shorter, last, RunAll(kind, stock, shorter).events);
      }
      KnownExtends(stock, shorter, last);
    }
  }

  lemma KnownExtends(stock: Stock, shorter: seq<Part>, last: Part)
    ensures Known(stock, shorter + [last]) <==> Known(stock, shorter) && last.product in stock
  {
    var parts := shorter + [last];
    assert parts[|shorter|] == last;
    forall i | 0 <= i < |shorter| ensures parts[i] == shorter[i] {
    }
  }

  lemma SettleOneMore(kind: Kind, stock: Stock, shorter: seq<Part>, last: Part, events: seq<StockEvent>)
    requires kind != Reserve && Positive(shorter) && Positive(shorter + [last])
    ensures var t := Advance(kind, Trace(Settled(kind, stock, shorter), events, None), last);
      && (t.failure.None? <==> last.product in stock)
      && (t.failure.None? ==> t.stock == Settled(kind, stock, shorter + [last]))
  {
    DemandExtends(shorter, last);
    DemandNonNegative(shorter, last.product);
    assert (shorter + [last])[|shorter|].amount >= 1;
    var t := Advance(kind, Trace(Settled(kind, stock, shorter), events, None), last);
    if t.failure.None? {
      assert t.stock == Settled(kind, stock, shorter + [last]);
    }
  }

  /** At every point of every loop, with any amounts, `0 <= reserved <= quantity` and on-hand never rises. */
  lemma {:induction false} BoundedThroughout(kind: Kind, stock: Stock, parts: seq<Part>)
    requires Bounded(stock)
    requires kind == Reserve || Positive(parts)
    ensures var t := RunAll(kind, stock, parts);
      && t.stock.Keys == stock.Keys
      && Bounded(t.stock)
      && (forall p | p in stock :: t.stock[p].quantity <= stock[p].quantity && t.stock[p].threshold == stock[p].threshold)
      && (forall p | p in stock :: t.stock[p].Available() == t.stock[p].quantity - t.stock[p].reserved)
  {
    if parts == [] {
    } else {
      BoundedThroughout(kind, stock, parts[..|parts| - 1]);
      assert kind != Reserve ==> parts[|parts| - 1].amount >= 1;
    }
  }

  // ---------------------------------------------------------------- the services

  /** Units on hand and not reserved, never below zero. */
  ghost function Left(item: StockItem): nat {
    if item.quantity > item.reserved then item.quantity - item.reserved else 0
  }

  /** The stock table and the event topic, as the three services update them. */
  class StockTable {
    var rows: Stock
    var sent: seq<StockEvent>  // published at once; a rollback does not take events back

    constructor (rows: Stock)
      ensures this.rows == rows && sent == []
    {
      this.rows := rows;
      sent := [];
    }

    method PublishStockEvent(kind: Kind, product: ProductId, item: StockItem, quantity: int)
      modifies this`sent
      ensures sent == old(sent) + [StockEvent(kind, product, quantity, item.Available(), item.BelowReorderThreshold())]
    {
      sent := sent + [StockEvent(kind, product, quantity, item.Available(), item.BelowReorderThreshold())];
    }

    method ReserveStock(product: ProductId, quantity: int) returns (failure: Option<Error>)
      modifies this
      ensures Trace(rows, sent, failure) ==
              Advance(Reserve, Trace(old(rows), old(sent), None), Part(product, quantity))
      ensures product !in old(rows) ==> failure == Some(StockNotFound)
      ensures product in old(rows) && Left(old(rows[product])) < quantity ==> failure == Some(InsufficientStock)
      ensures failure.Some? ==> rows == old(rows) && sent == old(sent)
      ensures product in old(rows) && 0 <= quantity <= Left(old(rows[product])) ==>
        var item := old(rows[product]);
        && failure == None
        && rows == old(rows)[product := StockItem(item.quantity, item.reserved + quantity, item.threshold)]
        && sent == old(sent) + [StockEvent(Reserve, product, quantity, Left(item) - quantity, Left(item) - quantity <= item.threshold)]
    {
      if product !in rows {
        return Some(StockNotFound);
      }
      var item := rows[product];
      if item.Available() < quantity {
        return Some(InsufficientStock);
      }
      if item.reserved + quantity < 0 {
        return Some(IntegrityViolation);
      }
      item := item.(reserved := item.reserved + quantity);
      rows := rows[product := item];
      PublishStockEvent(Reserve, product, item, quantity);
      return None;
    }

    method ReleaseStock(product: ProductId, quantity: int) returns (failure: Option<Error>)
      modifies this
      ensures Trace(rows, sent, failure) ==
              Advance(Release, Trace(old(rows), old(sent), None), Part(product, quantity))
      ensures product !in old(rows) ==> failure == Some(StockNotFound) && rows == old(rows) && sent == old(sent)
      ensures product in old(rows) ==>
        var item := old(rows[product]);
        var after := StockItem(item.quantity, if item.reserved > quantity then item.reserved - quantity else 0, item.threshold);
        && failure == None
        && rows == old(rows)[product := after]
        && sent == old(sent) + [StockEvent(Release, product, quantity, Left(after), Left(after) <= item.threshold)]
    {
      if product !in rows {
        return Some(StockNotFound);
      }
      var item := rows[product];
      item := item.(reserved := Max(item.reserved - quantity, 0));
      rows := rows[product := item];
      PublishStockEvent(Release, product, item, quantity);
      return None;
    }

    method CommitStock(product: ProductId, quantity: int) returns (failure: Option<Error>)
      modifies this
      ensures Trace(rows, sent, failure) ==
              Advance(Commit, Trace(old(rows), old(sent), None), Part(product, quantity))
      ensures product !in old(rows) ==> failure == Some(StockNotFound) && rows == old(rows) && sent == old(sent)
      ensures product in old(rows) ==>
        var item := old(rows[product]);
        var after := StockItem(if item.quantity > quantity then item.quantity - quantity else 0,
                               if item.reserved > quantity then item.reserved - quantity else 0, item.threshold);
        && failure == None
        && rows == old(rows)[product := after]
        && sent == old(sent) + [StockEvent(Commit, product, quantity, Left(after), Left(after) <= item.threshold)]
    {
      if product !in rows {
        return Some(StockNotFound);
      }
      var item := rows[product];
      item := item.(quantity := Max(item.quantity - quantity, 0));
      item := item.(reserved := Max(item.reserved - quantity, 0));
      rows := rows[product := item];
      PublishStockEvent(Commit, product, item, quantity);
      return None;
    }
  }
}
