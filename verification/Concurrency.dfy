/**
  Concurrent requests over row locks: each request is a transaction that locks a row on first
  touch, holds it to the end (ATOMIC_REQUESTS), writes only its own uncommitted rows, and commits
  or rolls back at any point. Order snapshots are read without a lock when the request starts.

  Main result: what is committed is always what the committed requests would leave if they ran one
  after the other in commit order.
*/
module Concurrency {
  import opened Common
  import opened Inventory
  import opened Orders

  // ---------------------------------------------------------------- row actions

  datatype RowKey = StockRow(product: ProductId) | OrderRow(order: OrderId)

  /** One row operation of a service. */
  datatype Action =
    | StockCall(kind: Kind, part: Part)                                    // select_for_update, then save
    | InsertOrder(id: OrderId, customer: CustomerId)                       // Order.objects.create
    | InsertLine(id: OrderId, product: ProductId, quantity: int, price: int)  // OrderItem.objects.create
    | WriteTotal(id: OrderId, total: int)                                  // save(update_fields=["total_amount"])
    | WriteStatus(id: OrderId, status: Status)                             // save(update_fields=["status", ...])
    | Announce(id: OrderId, what: Transition)                              // publish_event, for the row as written
    | Raise(id: OrderId, error: Error)                                     // an exception before any row is touched

  function KeyOf(a: Action): RowKey {
    if a.StockCall? then StockRow(a.part.product) else OrderRow(a.id)
  }

  datatype Effect = Effect(db: DB, events: seq<StockEvent>, announced: seq<OrderEvent>) {
    function Then(last: Effect): (both: Effect)
      ensures last.events == [] ==> both.events == events
      ensures last.announced == [] ==> both.announced == announced
      ensures announced == [] ==> both.announced == last.announced
    {
      assert last.events == [] ==> events + last.events == events;
      assert last.announced == [] ==> announced + last.announced == announced;
      assert announced == [] ==> announced + last.announced == last.announced;
      Effect(last.db, events + last.events, announced + last.announced)
    }
  }

  function Act(db: DB, a: Action): Result<Effect> {
    match a
    case StockCall(kind, part) =>
      (match Apply(kind, db.stock, part)
       case Err(e) => Err(e)
       case Ok(item) => Ok(Effect(db.(stock := db.stock[part.product := item]), [EventOf(kind, part, item)], [])))
    case InsertOrder(id, customer) =>
      if id in db.orders then Err(IntegrityViolation)
      else Ok(Effect(db.(orders := db.orders[id := Order(customer, Pending, 0, [])]), [], []))
    case InsertLine(id, product, quantity, price) =>
      if id !in db.orders || quantity < 1 then Err(IntegrityViolation)
      else
        var order := db.orders[id];
        Ok(Effect(db.(orders := db.orders[id := order.(items := order.items + [Line(product, quantity, price)])]), [], []))
    case WriteTotal(id, total) =>
      if id !in db.orders then Err(OrderNotFound)
      else Ok(Effect(db.(orders := db.orders[id := db.orders[id].(total := total)]), [], []))
    case WriteStatus(id, status) =>
      if id !in db.orders then Err(OrderNotFound)
      else Ok(Effect(db.(orders := db.orders[id := db.orders[id].(status := status)]), [], []))
    case Announce(id, what) =>
      if id !in db.orders then Err(OrderNotFound)
      else Ok(Effect(db, [], [OrderEventOf(what, id, db.orders[id])]))
    case Raise(_, error) => Err(error)
  }

  function ActAll(db: DB, actions: seq<Action>): Result<Effect> {
    if actions == [] then Ok(Effect(db, [], []))
    else
      match ActAll(db, actions[..|actions| - 1])
      case Err(e) => Err(e)
      case Ok(done) =>
        match Act(done.db, actions[|actions| - 1])
        case Err(e) => Err(e)
        case Ok(last) => Ok(done.Then(last))
  }

  lemma ActAllExtends(db: DB, actions: seq<Action>, a: Action)
    ensures ActAll(db, actions + [a]) ==
      match ActAll(db, actions)
      case Err(e) => Err(e)
      case Ok(done) =>
        match Act(done.db, a)
        case Err(e) => Err(e)
        case Ok(last) => Ok(done.Then(last))
  {
    assert (actions + [a])[..|actions + [a]| - 1] == actions;
  }

  lemma {:induction false} ActAllStops(db: DB, actions: seq<Action>, i: nat)
    requires i <= |actions| && ActAll(db, actions[..i]).Err?
    ensures ActAll(db, actions) == ActAll(db, actions[..i])
    decreases |actions|
  {
    if i == |actions| {
      assert actions[..i] == actions;
    } else {
      var shorter := actions[..|actions| - 1];
      assert shorter[..i] == actions[..i];
      ActAllStops(db, shorter, i);
    }
  }

  /** The operation after a prefix that went through decides: if it raises, the whole program raises that. */
  lemma NextDecides(db: DB, actions: seq<Action>, pc: nat, done: Effect)
    requires pc < |actions| && ActAll(db, actions[..pc]) == Ok(done)
    ensures Act(done.db, actions[pc]).Err? ==> ActAll(db, actions) == Err(Act(done.db, actions[pc]).error)
  {
    assert actions[..pc + 1] == actions[..pc] + [actions[pc]];
    ActAllExtends(db, actions[..pc], actions[pc]);
    if Act(done.db, actions[pc]).Err? {
      ActAllStops(db, actions, pc + 1);
    }
  }

  // ---------------------------------------------------------------- requests as programs

  function ItemActions(id: OrderId, item: Item): seq<Action> {
    match Lookup(item)
    case None => [Raise(id, ProductNotFound)]
    case Some(price) =>
      [StockCall(Reserve, Part(item.product, item.quantity)), InsertLine(id, item.product, item.quantity, price)]
  }

  function LineActions(id: OrderId, items: seq<Item>): seq<Action> {
    if items == [] then []
    else LineActions(id, items[..|items| - 1]) + ItemActions(id, items[|items| - 1])
  }

  function RunningTotal(items: seq<Item>): int {
    if items == [] then 0
    else
      var item := items[|items| - 1];
      RunningTotal(items[..|items| - 1]) +
      (match Lookup(item) case None => 0 case Some(price) => price * item.quantity)
  }

  function Calls(kind: Kind, parts: seq<Part>): seq<Action> {
    seq(|parts|, i requires 0 <= i < |parts| => StockCall(kind, parts[i]))
  }

  /** The row operations of a request, given the order snapshot its view read (if it found one). */
  function Program(req: Request, snapshot: Option<Order>): seq<Action> {
    match req
    case Place(id, customer, items) =>
      [InsertOrder(id, customer)] + LineActions(id, items) + [WriteTotal(id, RunningTotal(items)), Announce(id, OrderCreated)]
    case Pay(id) =>
      if snapshot.None? then [Raise(id, OrderNotFound)]
      else [WriteStatus(id, Paid)] + Calls(Commit, Parts(snapshot.value.items)) + [Announce(id, OrderPaid)]
    case Cancel(id, seen) =>
      if snapshot.None? then [Raise(id, OrderNotFound)]
      else if seen != Pending then [Raise(id, NotPending)]
      else Calls(Release, Parts(snapshot.value.items)) + [WriteStatus(id, Cancelled), Announce(id, OrderCancelled)]
  }

  /** The snapshot still has the right lines (its status may be stale). */
  predicate Current(db: DB, req: Request, snapshot: Option<Order>) {
    !req.Place? ==>
      match snapshot
      case None => true
      case Some(order) => req.id in db.orders && db.orders[req.id].items == order.items
  }

  /** What the transaction placing `id` sees once the loop has got as far as `p`. */
  function PlacedSoFar(db: DB, id: OrderId, customer: CustomerId, p: Placing): Result<Effect> {
    if p.failure.Some? then Err(p.failure.value)
    else Ok(Effect(DB(p.stock, db.orders[id := Order(customer, Pending, 0, p.lines)]), p.events, []))
  }

  lemma ReserveActs(db: DB, id: OrderId, customer: CustomerId, p: Placing, part: Part, before: seq<Action>)
    requires p.failure.None? && ActAll(db, before) == PlacedSoFar(db, id, customer, p)
    ensures var t := Advance(Reserve, Trace(p.stock, p.events, None), part);
      ActAll(db, before + [StockCall(Reserve, part)]) ==
      PlacedSoFar(db, id, customer, p.(stock := t.stock, events := t.events, failure := t.failure))
  {
    ActAllExtends(db, before, StockCall(Reserve, part));
  }

  lemma InsertLineActs(db: DB, id: OrderId, customer: CustomerId, p: Placing, a: Action, before: seq<Action>)
    requires p.failure.None? && ActAll(db, before) == PlacedSoFar(db, id, customer, p)
    requires a.InsertLine? && a.id == id
    ensures ActAll(db, before + [a]) ==
      if a.quantity < 1 then Err(IntegrityViolation)
      else PlacedSoFar(db, id, customer, p.(lines := p.lines + [Line(a.product, a.quantity, a.price)]))
  {
    ActAllExtends(db, before, a);
    if a.quantity >= 1 {
      var rows := PlacedSoFar(db, id, customer, p).value.db;
      var order := Order(customer, Pending, 0, p.lines + [Line(a.product, a.quantity, a.price)]);
      assert Act(rows, a).value.db.orders == db.orders[id := order];
      assert p.events + Act(rows, a).value.events == p.events;
    }
  }

  lemma PlaceLineActs(db: DB, id: OrderId, customer: CustomerId, p: Placing, item: Item, before: seq<Action>)
    requires p.failure.None? && ActAll(db, before) == PlacedSoFar(db, id, customer, p)
    ensures ActAll(db, before + ItemActions(id, item)) == PlacedSoFar(db, id, customer, PlaceLine(p, item))
  {
    match Lookup(item)
    case None =>
      ActAllExtends(db, before, Raise(id, ProductNotFound));
    case Some(price) =>
      var part := Part(item.product, item.quantity);
      var line := InsertLine(id, item.product, item.quantity, price);
      var t := Advance(Reserve, Trace(p.stock, p.events, None), part);
      var reserved := before + [StockCall(Reserve, part)];
      assert before + ItemActions(id, item) == reserved + [line];
      ReserveActs(db, id, customer, p, part, before);
      if t.failure.None? {
        InsertLineActs(db, id, customer, p.(stock := t.stock, events := t.events), line, reserved);
      } else {
        ActAllExtends(db, reserved, line);
      }
  }

  lemma {:induction false} PlaceProgram(db: DB, id: OrderId, customer: CustomerId, items: seq<Item>)
    requires id !in db.orders
    ensures ActAll(db, [InsertOrder(id, customer)] + LineActions(id, items)) ==
            PlacedSoFar(db, id, customer, PlaceLines(db.stock, items))
  {
    var insert := [InsertOrder(id, customer)];
    if items == [] {
      assert insert + LineActions(id, items) == insert;
    } else {
      var shorter, item := items[..|items| - 1], items[|items| - 1];
      PlaceProgram(db, id, customer, shorter);
      var before := insert + LineActions(id, shorter);
      var all := insert + LineActions(id, items);
      assert all == before + ItemActions(id, item);
      if PlaceLines(db.stock, shorter).failure.None? {
        PlaceLineActs(db, id, customer, PlaceLines(db.stock, shorter), item, before);
      } else {
        assert all[..|before|] == before;
        ActAllStops(db, all, |before|);
      }
    }
  }

  lemma {:induction false} RunningTotalIsTotal(stock: Stock, items: seq<Item>)
    requires PlaceLines(stock, items).failure.None?
    ensures PlaceLines(stock, items).total == RunningTotal(items)
  {
    if items == [] {
    } else {
      RunningTotalIsTotal(stock, items[..|items| - 1]);
    }
  }

  lemma {:induction false} CallsProgram(db: DB, kind: Kind, parts: seq<Part>)
    ensures var t := RunAll(kind, db.stock, parts);
      ActAll(db, Calls(kind, parts)) ==
        if t.failure.Some? then Err(t.failure.value) else Ok(Effect(db.(stock := t.stock), t.events, []))
  {
    if parts == [] {
    } else {
      var shorter, last := parts[..|parts| - 1], parts[|parts| - 1];
      CallsProgram(db, kind, shorter);
      assert Calls(kind, parts) == Calls(kind, shorter) + [StockCall(kind, last)];
      ActAllExtends(db, Calls(kind, shorter), StockCall(kind, last));
    }
  }

  lemma {:induction false} PayProgram(db: DB, id: OrderId, parts: seq<Part>)
    requires id in db.orders
    ensures var t := RunAll(Commit, db.stock, parts);
      ActAll(db, [WriteStatus(id, Paid)] + Calls(Commit, parts)) ==
        if t.failure.Some? then Err(t.failure.value)
        else Ok(Effect(DB(t.stock, db.orders[id := db.orders[id].(status := Paid)]), t.events, []))
  {
    var write := WriteStatus(id, Paid);
    if parts == [] {
      assert [write] + Calls(Commit, parts) == [] + [write];
      ActAllExtends(db, [], write);
      assert ActAll(db, []) == Ok(Effect(db, [], []));
      assert [] + Act(db, write).value.events == [];
    } else {
      var shorter, last := parts[..|parts| - 1], parts[|parts| - 1];
      PayProgram(db, id, shorter);
      assert [write] + Calls(Commit, parts) == [write] + Calls(Commit, shorter) + [StockCall(Commit, last)];
      ActAllExtends(db, [write] + Calls(Commit, shorter), StockCall(Commit, last));
    }
  }

  /** Running the operations of a request gave what serving it gives, errors included. */
  predicate Matches(out: Outcome, id: OrderId, run: Result<Effect>) {
    match run
    case Err(e) => out.reply == Err(e)
    case Ok(done) => id in done.db.orders && out == Outcome(done.db, done.events, done.announced, Ok(done.db.orders[id]))
  }

  lemma TakenIdRaises(db: DB, id: OrderId, customer: CustomerId, rest: seq<Action>)
    requires id in db.orders
    ensures ActAll(db, [InsertOrder(id, customer)] + rest) == Err(IntegrityViolation)
  {
    NextDecides(db, [InsertOrder(id, customer)] + rest, 0, Effect(db, [], []));
  }

  /** The last operation of every request: announce the row as it was written. */
  lemma AnnounceActs(db: DB, id: OrderId, what: Transition, before: seq<Action>)
    requires ActAll(db, before).Ok? ==> id in ActAll(db, before).value.db.orders && ActAll(db, before).value.announced == []
    ensures ActAll(db, before + [Announce(id, what)]) ==
      match ActAll(db, before)
      case Err(e) => Err(e)
      case Ok(e) => Ok(e.(announced := [OrderEventOf(what, id, e.db.orders[id])]))
  {
    ActAllExtends(db, before, Announce(id, what));
    if ActAll(db, before).Ok? {
      assert ActAll(db, before).value.events + [] == ActAll(db, before).value.events;
    }
  }

  lemma FreshIdPlaces(db: DB, id: OrderId, customer: CustomerId, items: seq<Item>, body: seq<Action>)
    requires id !in db.orders && body == [InsertOrder(id, customer)] + LineActions(id, items)
    ensures var p := PlaceLines(db.stock, items);
      ActAll(db, body + [WriteTotal(id, RunningTotal(items))]) ==
      if p.failure.Some? then Err(p.failure.value)
      else Ok(Effect(DB(p.stock, db.orders[id := Order(customer, Pending, p.total, p.lines)]), p.events, []))
  {
    PlaceProgram(db, id, customer, items);
    var p := PlaceLines(db.stock, items);
    if p.failure.None? {
      RunningTotalIsTotal(db.stock, items);
      var e := ActAll(db, body).value;
      assert e.db.orders[id := e.db.orders[id].(total := p.total)] == db.orders[id := Order(customer, Pending, p.total, p.lines)];
    } else {
      ActAllExtends(db, body, WriteTotal(id, RunningTotal(items)));
    }
  }

  lemma PlaceIsServed(db: DB, id: OrderId, customer: CustomerId, items: seq<Item>)
    ensures Matches(PlaceOutcome(db, id, customer, items), id, ActAll(db, Program(Place(id, customer, items), None)))
  {
    var insert, write, announce := [InsertOrder(id, customer)], [WriteTotal(id, RunningTotal(items))], [Announce(id, OrderCreated)];
    assert write + announce == [WriteTotal(id, RunningTotal(items)), Announce(id, OrderCreated)];
    if id in db.orders {
      TakenIdRaises(db, id, customer, LineActions(id, items) + (write + announce));
      assert insert + LineActions(id, items) + (write + announce) == insert + (LineActions(id, items) + (write + announce));
    } else {
      FreshIdPlaces(db, id, customer, items, insert + LineActions(id, items));
      AnnounceActs(db, id, OrderCreated, insert + LineActions(id, items) + write);
      assert insert + LineActions(id, items) + (write + announce) == insert + LineActions(id, items) + write + announce;
    }
  }

  lemma PayIsServed(db: DB, id: OrderId)
    requires id in db.orders
    ensures var program := [WriteStatus(id, Paid)] + Calls(Commit, Parts(db.orders[id].items)) + [Announce(id, OrderPaid)];
      Matches(PayOutcome(db, id), id, ActAll(db, program))
  {
    PayProgram(db, id, Parts(db.orders[id].items));
    AnnounceActs(db, id, OrderPaid, [WriteStatus(id, Paid)] + Calls(Commit, Parts(db.orders[id].items)));
  }

  lemma CancelIsServed(db: DB, id: OrderId)
    requires id in db.orders
    ensures var program := Calls(Release, Parts(db.orders[id].items)) + [WriteStatus(id, Cancelled), Announce(id, OrderCancelled)];
      Matches(CancelOutcome(db, id, Pending), id, ActAll(db, program))
  {
    var calls, write, announce := Calls(Release, Parts(db.orders[id].items)), WriteStatus(id, Cancelled), Announce(id, OrderCancelled);
    CallsProgram(db, Release, Parts(db.orders[id].items));
    ActAllExtends(db, calls, write);
    AnnounceActs(db, id, OrderCancelled, calls + [write]);
    assert calls + [write] + [announce] == calls + [write, announce];
  }

  /** The row operations of a request, run alone, do what serving the request does, errors included. */
  lemma ProgramIsServe(db: DB, req: Request, snapshot: Option<Order>)
    requires Current(db, req, snapshot)
    requires req.Place? ==> snapshot.None?
    requires !req.Place? && snapshot.None? ==> req.id !in db.orders
    ensures Matches(Serve(db, req), req.id, ActAll(db, Program(req, snapshot)))
  {
    match req
    case Place(id, customer, items) => PlaceIsServed(db, id, customer, items);
    case Pay(id) =>
      if snapshot.None? {
      } else {
        PayIsServed(db, id);
      }
    case Cancel(id, seen) =>
      if snapshot.None? {
      } else if seen != Pending {
      } else {
        CancelIsServed(db, id);
      }
  }

  // ---------------------------------------------------------------- framing

  /** The rows of `over` on top of `db`. */
  function Overlay(db: DB, over: DB): DB {
    DB(db.stock + over.stock, db.orders + over.orders)
  }

  predicate HasRow(db: DB, key: RowKey) {
    match key
    case StockRow(p) => p in db.stock
    case OrderRow(o) => o in db.orders
  }

  lemma ActFrame(db: DB, over: DB, a: Action)
    requires !HasRow(over, KeyOf(a))
    ensures Act(Overlay(db, over), a) ==
      match Act(db, a) case Err(e) => Err(e) case Ok(e) => Ok(Effect(Overlay(e.db, over), e.events, e.announced))
  {
    if Act(db, a).Ok? {
      var plain, framed := Act(db, a).value.db, Act(Overlay(db, over), a).value.db;
      assert framed.stock == (plain.stock + over.stock);
      assert framed.orders == (plain.orders + over.orders);
    }
  }

  /** Rows a program does not touch neither change what it does nor are changed by it. */
  lemma {:induction false} ActAllFrame(db: DB, over: DB, actions: seq<Action>)
    requires forall i | 0 <= i < |actions| :: !HasRow(over, KeyOf(actions[i]))
    ensures ActAll(Overlay(db, over), actions) ==
      match ActAll(db, actions) case Err(e) => Err(e) case Ok(e) => Ok(Effect(Overlay(e.db, over), e.events, e.announced))
  {
    if actions == [] {
    } else {
      ActAllFrame(db, over, actions[..|actions| - 1]);
      if ActAll(db, actions[..|actions| - 1]).Ok? {
        ActFrame(ActAll(db, actions[..|actions| - 1]).value.db, over, actions[|actions| - 1]);
      }
    }
  }

  // ---------------------------------------------------------------- the machine

  type TxnId = int

  /** An open transaction: its operations, how many are done, and its uncommitted rows. */
  datatype Txn = Txn(
    req: Request,
    snapshot: Option<Order>,
    actions: seq<Action>,
    pc: nat,
    rows: DB,
    events: seq<StockEvent>,
    announced: seq<OrderEvent>)

  /** A committed request with the events it published to either topic. */
  datatype Entry = Entry(txn: TxnId, req: Request, events: seq<StockEvent>, announced: seq<OrderEvent>)

  datatype Sys = Sys(
    committed: DB,
    txns: map<TxnId, Txn>,
    locks: map<RowKey, TxnId>,
    used: set<TxnId>,
    log: seq<Entry>)

  /** What the transaction sees: the last committed rows under its own. */
  function View(s: Sys, t: TxnId): DB
    requires t in s.txns
  {
    Overlay(s.committed, s.txns[t].rows)
  }

  datatype Step =
    | Begin(t: TxnId, req: Request)  // reads the order snapshot, without a lock
    | Lock(t: TxnId)                 // takes the row lock of the next operation, if free
    | Exec(t: TxnId)                 // performs the next operation on the locked row
    | Abort(t: TxnId)                // exception, crash or deadlock victim: everything rolls back
    | CommitTxn(t: TxnId)

  function Snapshot(db: DB, req: Request): Option<Order> {
    if req.Place? || req.id !in db.orders then None else Some(db.orders[req.id])
  }

  function Unlock(locks: map<RowKey, TxnId>, t: TxnId): map<RowKey, TxnId> {
    map k | k in locks && locks[k] != t :: locks[k]
  }

  predicate Enabled(s: Sys, step: Step) {
    match step
    case Begin(t, req) =>
      && t !in s.used
      && (req.Cancel? && req.id in s.committed.orders ==> req.seen == s.committed.orders[req.id].status)
    case Lock(t) =>
      && t in s.txns && s.txns[t].pc < |s.txns[t].actions|
      && KeyOf(s.txns[t].actions[s.txns[t].pc]) !in s.locks
    case Exec(t) =>
      && t in s.txns && s.txns[t].pc < |s.txns[t].actions|
      && var a := s.txns[t].actions[s.txns[t].pc];
      && KeyOf(a) in s.locks && s.locks[KeyOf(a)] == t
      && Act(View(s, t), a).Ok?
    case Abort(t) => t in s.txns
    case CommitTxn(t) => t in s.txns && s.txns[t].pc == |s.txns[t].actions|
  }

  /** The uncommitted rows once the row `key` has been saved as in `db`. */
  function SaveRow(rows: DB, key: RowKey, db: DB): DB
    requires HasRow(db, key)
  {
    match key
    case StockRow(p) => rows.(stock := rows.stock[p := db.stock[p]])
    case OrderRow(o) => rows.(orders := rows.orders[o := db.orders[o]])
  }

  function Next(s: Sys, step: Step): Sys
    requires Enabled(s, step)
  {
    match step
    case Begin(t, req) =>
      var snapshot := Snapshot(s.committed, req);
      s.(txns := s.txns[t := Txn(req, snapshot, Program(req, snapshot), 0, DB(map[], map[]), [], [])], used := s.used + {t})
    case Lock(t) =>
      s.(locks := s.locks[KeyOf(s.txns[t].actions[s.txns[t].pc]) := t])
    case Exec(t) =>
      var txn := s.txns[t];
      var a := txn.actions[txn.pc];
      var done := Act(View(s, t), a).value;
      s.(txns := s.txns[t := txn.(pc := txn.pc + 1, rows := SaveRow(txn.rows, KeyOf(a), done.db),
                                  events := txn.events + done.events, announced := txn.announced + done.announced)])
    case Abort(t) =>
      s.(txns := s.txns - {t}, locks := Unlock(s.locks, t))
    case CommitTxn(t) =>
      s.(committed := View(s, t), txns := s.txns - {t}, locks := Unlock(s.locks, t),
         log := s.log + [Entry(t, s.txns[t].req, s.txns[t].events, s.txns[t].announced)])
  }

  function Opening(db: DB): Sys {
    Sys(db, map[], map[], {}, [])
  }

  ghost predicate ValidRun(s: Sys, steps: seq<Step>)
    decreases |steps|, 0
  {
    steps == [] || (ValidRun(s, steps[..|steps| - 1]) && Enabled(After(s, steps[..|steps| - 1]), steps[|steps| - 1]))
  }

  ghost function After(s: Sys, steps: seq<Step>): Sys
    requires ValidRun(s, steps)
    decreases |steps|, 1
  {
    if steps == [] then s else Next(After(s, steps[..|steps| - 1]), steps[|steps| - 1])
  }

  function Logged(log: seq<Entry>): seq<Request> {
    seq(|log|, i requires 0 <= i < |log| => log[i].req)
  }

  // ---------------------------------------------------------------- the invariant

  predicate Holds(s: Sys, t: TxnId, key: RowKey) {
    key in s.locks && s.locks[key] == t
  }

  /** The transaction's view is its operations so far, run alone on what is committed now. */
  ghost predicate TxnOk(s: Sys, t: TxnId)
    requires t in s.txns
  {
    var txn := s.txns[t];
    && txn.pc <= |txn.actions|
    && ActAll(s.committed, txn.actions[..txn.pc]) == Ok(Effect(View(s, t), txn.events, txn.announced))
    && (forall i | 0 <= i < txn.pc :: Holds(s, t, KeyOf(txn.actions[i])) && HasRow(txn.rows, KeyOf(txn.actions[i])))
    && (forall p | p in txn.rows.stock :: Holds(s, t, StockRow(p)))
    && (forall o | o in txn.rows.orders :: Holds(s, t, OrderRow(o)))
  }

  /** It runs the operations of its request, on a snapshot whose lines are still right. */
  ghost predicate RequestOk(s: Sys, t: TxnId)
    requires t in s.txns
  {
    var txn := s.txns[t];
    && txn.actions == Program(txn.req, txn.snapshot)
    && Current(s.committed, txn.req, txn.snapshot)
    && (txn.req.Place? ==> txn.snapshot.None?)
  }

  /** Served after the entries before it, the entry's request succeeds and publishes what the entry says. */
  ghost predicate EntryOk(db: DB, log: seq<Entry>, i: nat)
    requires i < |log|
  {
    var out := Serve(ServeAll(db, Logged(log[..i])), log[i].req);
    out.reply.Ok? && out.events == log[i].events && out.announced == log[i].announced
  }

  /** The log, replayed serially, explains the committed database and every published event. */
  ghost predicate LogOk(db: DB, s: Sys) {
    && s.committed == ServeAll(db, Logged(s.log))
    && forall i | 0 <= i < |s.log| :: EntryOk(db, s.log, i)
  }

  ghost predicate SysOk(db: DB, s: Sys) {
    && LogOk(db, s)
    && s.txns.Keys <= s.used
    && forall t | t in s.txns :: TxnOk(s, t) && RequestOk(s, t)
  }

  /** An operation leaves every row but its own as it was. */
  ghost predicate OnlyRow(before: DB, after: DB, key: RowKey) {
    && HasRow(after, key)
    && (forall p | StockRow(p) != key :: p in after.stock <==> p in before.stock)
    && (forall p | StockRow(p) != key && p in after.stock :: after.stock[p] == before.stock[p])
    && (forall o | OrderRow(o) != key :: o in after.orders <==> o in before.orders)
    && (forall o | OrderRow(o) != key && o in after.orders :: after.orders[o] == before.orders[o])
  }

  lemma OverlaySave(db: DB, rows: DB, key: RowKey, after: DB)
    requires OnlyRow(Overlay(db, rows), after, key)
    ensures Overlay(db, SaveRow(rows, key, after)) == after
  {
    var before, saved := Overlay(db, rows), Overlay(db, SaveRow(rows, key, after));
    forall p
      ensures p in saved.stock <==> p in after.stock
      ensures p in after.stock ==> saved.stock[p] == after.stock[p]
    {
      if StockRow(p) != key {
        assert p in saved.stock <==> p in before.stock;
      }
    }
    forall o
      ensures o in saved.orders <==> o in after.orders
      ensures o in after.orders ==> saved.orders[o] == after.orders[o]
    {
      if OrderRow(o) != key {
        assert o in saved.orders <==> o in before.orders;
      }
    }
    assert saved.stock == after.stock;
    assert saved.orders == after.orders;
  }

  /** The view after the operation is exactly what the operation produced. */
  lemma ExecView(s: Sys, t: TxnId)
    requires Enabled(s, Exec(t))
    ensures View(Next(s, Exec(t)), t) == Act(View(s, t), s.txns[t].actions[s.txns[t].pc]).value.db
    ensures HasRow(Act(View(s, t), s.txns[t].actions[s.txns[t].pc]).value.db, KeyOf(s.txns[t].actions[s.txns[t].pc]))
  {
    var txn := s.txns[t];
    var a := txn.actions[txn.pc];
    OverlaySave(s.committed, txn.rows, KeyOf(a), Act(View(s, t), a).value.db);
  }

  lemma ExecKeepsTxn(s: Sys, t: TxnId)
    requires t in s.txns && TxnOk(s, t) && Enabled(s, Exec(t))
    ensures TxnOk(Next(s, Exec(t)), t)
  {
    var txn := s.txns[t];
    var a := txn.actions[txn.pc];
    ExecView(s, t);
    assert txn.actions[..txn.pc + 1] == txn.actions[..txn.pc] + [a];
    ActAllExtends(s.committed, txn.actions[..txn.pc], a);
    SavedHeld(s, t, txn.rows, KeyOf(a), Act(View(s, t), a).value.db);
    SavedKept(txn.rows, KeyOf(a), Act(View(s, t), a).value.db);
  }

  lemma SavedKept(rows: DB, key: RowKey, after: DB)
    requires HasRow(after, key)
    ensures HasRow(SaveRow(rows, key, after), key)
    ensures forall k | HasRow(rows, k) :: HasRow(SaveRow(rows, key, after), k)
  {
  }

  lemma SavedHeld(s: Sys, t: TxnId, rows: DB, key: RowKey, after: DB)
    requires HasRow(after, key) && Holds(s, t, key)
    requires forall p | p in rows.stock :: Holds(s, t, StockRow(p))
    requires forall o | o in rows.orders :: Holds(s, t, OrderRow(o))
    ensures forall p | p in SaveRow(rows, key, after).stock :: Holds(s, t, StockRow(p))
    ensures forall o | o in SaveRow(rows, key, after).orders :: Holds(s, t, OrderRow(o))
  {
  }

  lemma OverlaySwap(db: DB, a: DB, b: DB)
    requires a.stock.Keys !! b.stock.Keys && a.orders.Keys !! b.orders.Keys
    ensures Overlay(Overlay(db, a), b) == Overlay(Overlay(db, b), a)
  {
    assert Overlay(Overlay(db, a), b).stock == Overlay(Overlay(db, b), a).stock;
    assert Overlay(Overlay(db, a), b).orders == Overlay(Overlay(db, b), a).orders;
  }

  lemma DisjointRows(s: Sys, u: TxnId, t: TxnId)
    requires u in s.txns && t in s.txns && t != u && TxnOk(s, u) && TxnOk(s, t)
    ensures s.txns[t].rows.stock.Keys !! s.txns[u].rows.stock.Keys
    ensures s.txns[t].rows.orders.Keys !! s.txns[u].rows.orders.Keys
    ensures forall i | 0 <= i < s.txns[t].pc :: !HasRow(s.txns[u].rows, KeyOf(s.txns[t].actions[i]))
  {
    forall p | p in s.txns[t].rows.stock ensures p !in s.txns[u].rows.stock {
      assert Holds(s, t, StockRow(p));
    }
    forall o | o in s.txns[t].rows.orders ensures o !in s.txns[u].rows.orders {
      assert Holds(s, t, OrderRow(o));
    }
    forall i | 0 <= i < s.txns[t].pc ensures !HasRow(s.txns[u].rows, KeyOf(s.txns[t].actions[i])) {
      assert Holds(s, t, KeyOf(s.txns[t].actions[i]));
    }
  }

  /** A commit by another transaction changes only rows this one has not touched. */
  lemma CommitKeepsOther(s: Sys, u: TxnId, t: TxnId)
    requires u in s.txns && t in s.txns && t != u
    requires TxnOk(s, u) && TxnOk(s, t) && Enabled(s, CommitTxn(u))
    ensures TxnOk(Next(s, CommitTxn(u)), t)
  {
    var txn, over := s.txns[t], s.txns[u].rows;
    var s' := Next(s, CommitTxn(u));
    DisjointRows(s, u, t);
    ActAllFrame(s.committed, over, txn.actions[..txn.pc]);
    OverlaySwap(s.committed, txn.rows, over);
    assert View(s', t) == Overlay(View(s, t), over);
    UnlockKeepsOther(s, s', u, t);
  }

  lemma UnlockKeepsOther(s: Sys, s': Sys, u: TxnId, t: TxnId)
    requires t in s.txns && t != u && TxnOk(s, t) && s'.locks == Unlock(s.locks, u)
    ensures forall k | Holds(s, t, k) :: Holds(s', t, k)
  {
  }

  /** Serving a request never changes the lines of an order already stored. */
  lemma ServeKeepsLines(db: DB, req: Request, id: OrderId)
    requires id in db.orders
    ensures id in Serve(db, req).db.orders && Serve(db, req).db.orders[id].items == db.orders[id].items
  {
  }

  /** A finished transaction's view is the request served on what is committed now. */
  lemma FinishedIsServed(s: Sys, t: TxnId)
    requires t in s.txns && TxnOk(s, t) && RequestOk(s, t) && Enabled(s, CommitTxn(t))
    ensures var out := Serve(s.committed, s.txns[t].req);
      out.reply.Ok? && out.db == View(s, t) && out.events == s.txns[t].events && out.announced == s.txns[t].announced
  {
    var txn := s.txns[t];
    assert txn.actions[..txn.pc] == txn.actions;
    if !txn.req.Place? && txn.snapshot.None? {
    } else {
      ProgramIsServe(s.committed, txn.req, txn.snapshot);
    }
  }

  lemma CommitKeepsLog(db: DB, s: Sys, t: TxnId)
    requires SysOk(db, s) && t in s.txns && Enabled(s, CommitTxn(t))
    ensures LogOk(db, Next(s, CommitTxn(t)))
  {
    var s' := Next(s, CommitTxn(t));
    FinishedIsServed(s, t);
    assert Logged(s'.log) == Logged(s.log) + [s.txns[t].req];
    ServeAllExtends(db, Logged(s.log), s.txns[t].req);
    forall i | 0 <= i < |s'.log| ensures EntryOk(db, s'.log, i) {
      if i < |s.log| {
        assert EntryOk(db, s.log, i);
        assert s'.log[..i] == s.log[..i];
      } else {
        assert s'.log[..i] == s.log;
      }
    }
  }

  lemma CommitKeepsOk(db: DB, s: Sys, t: TxnId)
    requires SysOk(db, s) && Enabled(s, CommitTxn(t))
    ensures SysOk(db, Next(s, CommitTxn(t)))
  {
    CommitKeepsLog(db, s, t);
    var s' := Next(s, CommitTxn(t));
    forall u | u in s'.txns ensures TxnOk(s', u) && RequestOk(s', u) {
      CommitKeepsOther(s, t, u);
      CommitKeepsRequest(s, t, u);
    }
  }

  lemma CommitKeepsRequest(s: Sys, t: TxnId, u: TxnId)
    requires t in s.txns && u in s.txns && t != u && Enabled(s, CommitTxn(t))
    requires TxnOk(s, t) && RequestOk(s, t) && RequestOk(s, u)
    ensures RequestOk(Next(s, CommitTxn(t)), u)
  {
    FinishedIsServed(s, t);
    if !s.txns[u].req.Place? && s.txns[u].snapshot.Some? {
      ServeKeepsLines(s.committed, s.txns[t].req, s.txns[u].req.id);
    }
  }

  lemma BeginKeepsOk(db: DB, s: Sys, t: TxnId, req: Request)
    requires SysOk(db, s) && Enabled(s, Begin(t, req))
    ensures SysOk(db, Next(s, Begin(t, req)))
  {
    var s' := Next(s, Begin(t, req));
    forall u | u in s'.txns ensures TxnOk(s', u) && RequestOk(s', u) {
      if u == t {
        assert s'.txns[t].actions[..0] == [];
        assert View(s', t) == s.committed;
      } else {
        OtherTxnKept(s, s', u);
      }
    }
  }

  /** A step that commits nothing leaves the other transactions as they were. */
  lemma OtherTxnKept(s: Sys, s': Sys, u: TxnId)
    requires u in s.txns && TxnOk(s, u) && RequestOk(s, u)
    requires u in s'.txns && s'.txns[u] == s.txns[u] && s'.committed == s.committed
    requires forall k | Holds(s, u, k) :: Holds(s', u, k)
    ensures TxnOk(s', u) && RequestOk(s', u)
  {
    assert View(s', u) == View(s, u);
  }

  lemma ExecKeepsOk(db: DB, s: Sys, t: TxnId)
    requires SysOk(db, s) && Enabled(s, Exec(t))
    ensures SysOk(db, Next(s, Exec(t)))
  {
    var s' := Next(s, Exec(t));
    ExecKeepsTxn(s, t);
    forall u | u in s'.txns ensures TxnOk(s', u) && RequestOk(s', u) {
      if u != t {
        OtherTxnKept(s, s', u);
      }
    }
  }

  lemma LockKeepsOk(db: DB, s: Sys, t: TxnId)
    requires SysOk(db, s) && Enabled(s, Lock(t))
    ensures SysOk(db, Next(s, Lock(t)))
  {
    var s' := Next(s, Lock(t));
    forall u | u in s'.txns ensures TxnOk(s', u) && RequestOk(s', u) {
      OtherTxnKept(s, s', u);
    }
  }

  lemma AbortKeepsOk(db: DB, s: Sys, t: TxnId)
    requires SysOk(db, s) && Enabled(s, Abort(t))
    ensures SysOk(db, Next(s, Abort(t)))
  {
    var s' := Next(s, Abort(t));
    forall u | u in s'.txns ensures TxnOk(s', u) && RequestOk(s', u) {
      OtherTxnKept(s, s', u);
    }
  }

  lemma StepKeepsOk(db: DB, s: Sys, step: Step)
    requires SysOk(db, s) && Enabled(s, step)
    ensures SysOk(db, Next(s, step))
  {
    match step
    case Begin(t, req) => BeginKeepsOk(db, s, t, req);
    case Lock(t) => LockKeepsOk(db, s, t);
    case Exec(t) => ExecKeepsOk(db, s, t);
    case Abort(t) => AbortKeepsOk(db, s, t);
    case CommitTxn(t) => CommitKeepsOk(db, s, t);
  }

  /**
    Serializability: in every interleaving, with any transactions aborting anywhere, the committed
    database is the committed requests served serially in commit order; each of them succeeds there
    and publishes the same stock events, with the same payloads.
  */
  lemma {:induction false} Serializable(db: DB, steps: seq<Step>)
    requires ValidRun(Opening(db), steps)
    ensures SysOk(db, After(Opening(db), steps))
  {
    if steps == [] {
    } else {
      Serializable(db, steps[..|steps| - 1]);
      StepKeepsOk(db, After(Opening(db), steps[..|steps| - 1]), steps[|steps| - 1]);
    }
  }
}
