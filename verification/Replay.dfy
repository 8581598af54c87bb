/**
  The `max(..., 0)` clamps and the event log: when no clamp fires, adding up the published
  deltas reproduces the stock table, and every payload is right at its place in the log.
*/
module Replay {
  import opened Inventory
  import opened Orders
  import opened Ledger
  import opened Drift

  // ---------------------------------------------------------------- clamps

  /** No `max(..., 0)` in the loop ever changes the value it is given. */
  predicate Unclamped(kind: Kind, stock: Stock, parts: seq<Part>) {
    kind != Reserve ==>
      forall i | 0 <= i < |parts| :: UnclampedAt(kind, RunAll(kind, stock, parts[..i]).stock, parts[i])
  }

  predicate UnclampedAt(kind: Kind, stock: Stock, part: Part) {
    part.product in stock ==>
      && part.amount <= stock[part.product].reserved
      && (kind == Commit ==> part.amount <= stock[part.product].quantity)
  }

  /** The counters can absorb the whole demand of the loop. */
  predicate Absorbs(kind: Kind, stock: Stock, parts: seq<Part>, p: ProductId)
    requires p in stock
  {
    Demand(parts, p) <= stock[p].reserved && (kind == Commit ==> Demand(parts, p) <= stock[p].quantity)
  }

  /** No clamp fires inside the loop exactly when the entry counters absorb the aggregate demand. */
  lemma {:induction false} UnclampedIff(kind: Kind, stock: Stock, parts: seq<Part>)
    requires kind != Reserve && Positive(parts) && Known(stock, parts)
    ensures Unclamped(kind, stock, parts) <==> forall p | p in stock :: Absorbs(kind, stock, parts, p)
  {
    if parts == [] {
    } else {
      var shorter, last := parts[..|parts| - 1], parts[|parts| - 1];
      assert parts == shorter + [last];
      KnownExtends(stock, shorter, last);
      UnclampedIff(kind, stock, shorter);
      SettleCollapses(kind, stock, shorter);
      UnclampedExtends(kind, stock, shorter, last);
    }
  }

  lemma UnclampedExtends(kind: Kind, stock: Stock, shorter: seq<Part>, last: Part)
    requires kind != Reserve
    ensures Unclamped(kind, stock, shorter + [last]) <==>
            Unclamped(kind, stock, shorter) && UnclampedAt(kind, RunAll(kind, stock, shorter).stock, last)
  {
    var parts := shorter + [last];
    assert parts[|shorter|] == last && parts[..|shorter|] == shorter;
    forall i | 0 <= i < |shorter| ensures parts[i] == shorter[i] && parts[..i] == shorter[..i] {
    }
    if Unclamped(kind, stock, parts) {
      forall i | 0 <= i < |shorter| ensures UnclampedAt(kind, RunAll(kind, stock, shorter[..i]).stock, shorter[i]) {
        assert UnclampedAt(kind, RunAll(kind, stock, parts[..i]).stock, parts[i]);
      }
    }
  }

  /** No clamp fires while the request is served. */
  predicate Quiet(db: DB, req: Request) {
    Settles(db, req).Some? ==> Unclamped(Settles(db, req).value, db.stock, Parts(db.orders[req.id].items))
  }

  lemma CleanIsQuiet(base: Stock, db: DB, req: Request)
    requires Inv(base, db) && Clean(db, req)
    ensures Quiet(db, req)
  {
    if Settles(db, req).Some? {
      var parts := Parts(db.orders[req.id].items);
      PartsPositive(db.orders[req.id].items);
      UnclampedIff(Settles(db, req).value, db.stock, parts);
      forall p | p in db.stock ensures Absorbs(Settles(db, req).value, db.stock, parts, p) {
        StatusSumCovers(db.orders, Pending, p);
        assert ExactAt(base, db, p) && db.stock[p].Bounded();
      }
    }
  }

  /** In a clean run no `max(..., 0)` clamp ever fires. */
  lemma NoClampFires(base: Stock, db: DB, reqs: seq<Request>, i: nat)
    requires Inv(base, db) && CleanRun(db, reqs) && i < |reqs|
    ensures Quiet(ServeAll(db, reqs[..i]), reqs[i])
  {
    assert CleanRun(db, reqs[..i]) by {
      forall j | 0 <= j < i ensures Clean(ServeAll(db, reqs[..i][..j]), reqs[..i][j]) {
        assert reqs[..i][..j] == reqs[..j];
      }
    }
    ExactLedger(base, db, reqs[..i]);
    CleanIsQuiet(base, ServeAll(db, reqs[..i]), reqs[i]);
  }

  // ---------------------------------------------------------------- replaying the log

  /** What adding up the deltas does to the reservation of `p`. */
  function NetReserved(events: seq<StockEvent>, p: ProductId): int {
    if events == [] then 0
    else
      var e := events[|events| - 1];
      NetReserved(events[..|events| - 1], p) +
      (if e.product != p then 0 else if e.kind == Reserve then e.delta else -e.delta)
  }

  /** What adding up the deltas takes off the on-hand count of `p`. */
  function NetDeducted(events: seq<StockEvent>, p: ProductId): int {
    if events == [] then 0
    else
      var e := events[|events| - 1];
      NetDeducted(events[..|events| - 1], p) + (if e.product == p && e.kind == Commit then e.delta else 0)
  }

  /** Replaying `events` over `stock` gives `after`. */
  ghost predicate Replays(stock: Stock, events: seq<StockEvent>, after: Stock) {
    && after.Keys == stock.Keys
    && forall p | p in stock ::
      && after[p].reserved == stock[p].reserved + NetReserved(events, p)
      && after[p].quantity == stock[p].quantity - NetDeducted(events, p)
      && after[p].threshold == stock[p].threshold
  }

  /** The payload of the event equals the replayed row, the event included. */
  ghost predicate FaithfulAt(stock: Stock, past: seq<StockEvent>, e: StockEvent) {
    && e.product in stock
    && e.available == stock[e.product].quantity - NetDeducted(past, e.product)
                    - (stock[e.product].reserved + NetReserved(past, e.product))
    && (e.below <==> e.available <= stock[e.product].threshold)
  }

  ghost predicate Faithful(stock: Stock, events: seq<StockEvent>) {
    forall i | 0 <= i < |events| :: FaithfulAt(stock, events[..i + 1], events[i])
  }

  lemma {:induction false} NetConcat(a: seq<StockEvent>, b: seq<StockEvent>, p: ProductId)
    ensures NetReserved(a + b, p) == NetReserved(a, p) + NetReserved(b, p)
    ensures NetDeducted(a + b, p) == NetDeducted(a, p) + NetDeducted(b, p)
  {
    if b == [] {
      assert a + b == a;
    } else {
      NetConcat(a, b[..|b| - 1], p);
      assert (a + b)[..|a + b| - 1] == a + b[..|b| - 1];
    }
  }

  lemma ReplaysConcat(s0: Stock, a: seq<StockEvent>, s1: Stock, b: seq<StockEvent>, s2: Stock)
    requires Replays(s0, a, s1) && Replays(s1, b, s2)
    ensures Replays(s0, a + b, s2)
  {
    forall p | p in s0 {
      NetConcat(a, b, p);
    }
  }

  lemma FaithfulConcat(s0: Stock, a: seq<StockEvent>, s1: Stock, b: seq<StockEvent>)
    requires Faithful(s0, a) && Replays(s0, a, s1) && Faithful(s1, b)
    ensures Faithful(s0, a + b)
  {
    var all := a + b;
    forall i | 0 <= i < |all| ensures FaithfulAt(s0, all[..i + 1], all[i]) {
      if i < |a| {
        assert all[..i + 1] == a[..i + 1] && all[i] == a[i];
      } else {
        var j := i - |a|;
        assert all[..i + 1] == a + b[..j + 1] && all[i] == b[j];
        assert FaithfulAt(s1, b[..j + 1], b[j]);
        NetConcat(a, b[..j + 1], b[j].product);
      }
    }
  }

  lemma {:induction false} RunAllReplays(kind: Kind, stock: Stock, parts: seq<Part>)
    requires Bounded(stock) && (kind == Reserve || Positive(parts)) && Unclamped(kind, stock, parts)
    ensures var t := RunAll(kind, stock, parts);
      Replays(stock, t.events, t.stock) && Faithful(stock, t.events)
  {
    if parts == [] {
    } else {
      var shorter, last := parts[..|parts| - 1], parts[|parts| - 1];
      assert parts == shorter + [last];
      if kind != Reserve {
        UnclampedExtends(kind, stock, shorter, last);
      }
      RunAllReplays(kind, stock, shorter);
      BoundedThroughout(kind, stock, shorter);
      BoundedThroughout(kind, stock, parts);
      RunAllExtends(kind, stock, shorter, last);
      if RunAll(kind, stock, shorter).failure.None? {
        ReplayOneMore(kind, stock, RunAll(kind, stock, shorter), last);
      }
    }
  }

  lemma ReplayOneMore(kind: Kind, stock: Stock, t: Trace, last: Part)
    requires t.failure.None? && Replays(stock, t.events, t.stock) && Faithful(stock, t.events)
    requires Bounded(t.stock) && Bounded(Advance(kind, t, last).stock)
    requires kind != Reserve ==> UnclampedAt(kind, t.stock, last)
    ensures var t' := Advance(kind, t, last);
      Replays(stock, t'.events, t'.stock) && Faithful(stock, t'.events)
  {
    var t' := Advance(kind, t, last);
    if t'.failure.None? {
      var e := EventOf(kind, last, t'.stock[last.product]);
      OneEvent(t.stock, kind, last, t'.stock);
      ReplaysConcat(stock, t.events, t.stock, [e], t'.stock);
      FaithfulConcat(stock, t.events, t.stock, [e]);
    }
  }

  lemma OneEvent(stock: Stock, kind: Kind, part: Part, after: Stock)
    requires Bounded(stock) && Bounded(after) && (kind != Reserve ==> UnclampedAt(kind, stock, part))
    requires Apply(kind, stock, part).Ok? && after == stock[part.product := Apply(kind, stock, part).value]
    ensures var e := EventOf(kind, part, after[part.product]); Replays(stock, [e], after) && Faithful(stock, [e])
  {
    var e := EventOf(kind, part, after[part.product]);
    assert [e][..|[e]| - 1] == [];
    assert forall p :: NetReserved([e], p) == if e.product != p then 0 else if kind == Reserve then e.delta else -e.delta;
    assert forall p :: NetDeducted([e], p) == if e.product == p && kind == Commit then e.delta else 0;
    assert Faithful(stock, [e]) by {
      assert [e][..1] == [e] && after[part.product].Bounded();
    }
  }

  /** The events of the requests that went through, in commit order. */
  function Committed(db: DB, reqs: seq<Request>): seq<StockEvent> {
    if reqs == [] then []
    else
      var shorter := reqs[..|reqs| - 1];
      var out := Serve(ServeAll(db, shorter), reqs[|reqs| - 1]);
      Committed(db, shorter) + (if out.reply.Ok? then out.events else [])
  }

  lemma ServeReplays(db: DB, req: Request)
    requires Sound(db) && Quiet(db, req)
    ensures var out := Serve(db, req); var events := if out.reply.Ok? then out.events else [];
      Replays(db.stock, events, out.db.stock) && Faithful(db.stock, events)
  {
    var out := Serve(db, req);
    if out.reply.Ok? {
      if req.Place? {
        PlaceLinesIsReserving(db.stock, req.items);
        RunAllReplays(Reserve, db.stock, Wanted(req.items));
      } else {
        PartsPositive(db.orders[req.id].items);
        RunAllReplays(Settles(db, req).value, db.stock, Parts(db.orders[req.id].items));
      }
    }
  }

  /**
    Event-log replay: in a clean run, the deltas of the committed requests add up to the stock
    table, and every `available_quantity` and `below_reorder_threshold` is the replayed value.
  */
  lemma {:induction false} EventLogReplays(base: Stock, db: DB, reqs: seq<Request>)
    requires Inv(base, db) && CleanRun(db, reqs)
    ensures Replays(db.stock, Committed(db, reqs), ServeAll(db, reqs).stock)
    ensures Faithful(db.stock, Committed(db, reqs))
  {
    if reqs == [] {
    } else {
      var shorter, last := reqs[..|reqs| - 1], reqs[|reqs| - 1];
      assert CleanRun(db, shorter) by {
        forall i | 0 <= i < |shorter| ensures Clean(ServeAll(db, shorter[..i]), shorter[i]) {
          assert shorter[..i] == reqs[..i];
        }
      }
      EventLogReplays(base, db, shorter);
      ExactLedger(base, db, shorter);
      var before := ServeAll(db, shorter);
      var out := Serve(before, last);
      var events := if out.reply.Ok? then out.events else [];
      CleanIsQuiet(base, before, last);
      ServeReplays(before, last);
      ReplaysConcat(db.stock, Committed(db, shorter), before.stock, events, out.db.stock);
      FaithfulConcat(db.stock, Committed(db, shorter), before.stock, events);
    }
  }

  /** Units the call adds to the reservation, and takes off on-hand, by its event. */
  function DeltaReserved(kind: Kind, amount: int): int {
    if kind == Reserve then amount else -amount
  }

  function DeltaDeducted(kind: Kind, amount: int): int {
    if kind == Commit then amount else 0
  }

  lemma {:induction false} RunAllNet(kind: Kind, stock: Stock, parts: seq<Part>, p: ProductId)
    requires RunAll(kind, stock, parts).failure.None?
    ensures NetReserved(RunAll(kind, stock, parts).events, p) == DeltaReserved(kind, Demand(parts, p))
    ensures NetDeducted(RunAll(kind, stock, parts).events, p) == DeltaDeducted(kind, Demand(parts, p))
  {
    if parts == [] {
    } else {
      var shorter, last := parts[..|parts| - 1], parts[|parts| - 1];
      assert parts == shorter + [last];
      RunAllExtends(kind, stock, shorter, last);
      DemandExtends(shorter, last);
      RunAllNet(kind, stock, shorter, p);
    }
  }

  /**
    The replay is exactly as good as the clamps are quiet: a settling request that goes through
    can be replayed from its deltas if and only if no clamp fired in it.
  */
  lemma ReplayIffQuiet(db: DB, req: Request)
    requires Sound(db) && Settles(db, req).Some?
    ensures Replays(db.stock, Serve(db, req).events, Serve(db, req).db.stock) <==> Quiet(db, req)
  {
    var kind, parts := Settles(db, req).value, Parts(db.orders[req.id].items);
    PartsPositive(db.orders[req.id].items);
    UnclampedIff(kind, db.stock, parts);
    SettleCollapses(kind, db.stock, parts);
    ServeEffect(db, req);
    var out := Serve(db, req);
    forall p | p in db.stock
      ensures Absorbs(kind, db.stock, parts, p) <==>
        && out.db.stock[p].reserved == db.stock[p].reserved + NetReserved(out.events, p)
        && out.db.stock[p].quantity == db.stock[p].quantity - NetDeducted(out.events, p)
    {
      RunAllNet(kind, db.stock, parts, p);
      DemandNonNegative(parts, p);
    }
  }
}
