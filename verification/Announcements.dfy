/**
  From core_api to the notification service: the events the order and stock services publish, as the
  JSON messages the consumer reads, and the histories they end up in.
*/
module Announcements {
  import opened Inventory
  import opened Orders
  import opened Ledger
  import opened Drift
  import opened Concurrency
  import opened Notifications

  /** An event on either topic. */
  datatype Published = StockNews(stock: StockEvent) | OrderNews(order: OrderEvent)

  /** How core_api renders UUIDs, money and numbers as text, and the SKU of a product. */
  datatype Rendering = Rendering(uuid: int -> string, money: int -> string, number: int -> string, sku: ProductId -> string)

  /** UUIDs have texts of their own, none of them empty or `ops`. */
  ghost predicate Proper(render: Rendering) {
    && (forall a, b | render.uuid(a) == render.uuid(b) :: a == b)
    && (forall a :: render.uuid(a) != "" && render.uuid(a) != OPS)
  }

  function EventTypeOf(e: Published): string {
    match e
    case StockNews(s) =>
      (match s.kind case Reserve => "stock.reserved" case Release => "stock.released" case Commit => "stock.committed")
    case OrderNews(o) =>
      (match o.what case OrderCreated => "order.created" case OrderPaid => "order.paid" case OrderCancelled => "order.cancelled")
  }

  function StatusText(status: Status): string {
    match status
    case Pending => "pending"
    case Paid => "paid"
    case Shipped => "shipped"
    case Delivered => "delivered"
    case Cancelled => "cancelled"
  }

  function Payload(render: Rendering, e: Published): map<string, Json> {
    match e
    case StockNews(s) =>
      map["product_id" := Text(render.uuid(s.product)),
          "sku" := Text(render.sku(s.product)),
          "quantity_delta" := Number(render.number(s.delta)),
          "available_quantity" := Number(render.number(s.available)),
          "below_reorder_threshold" := Bool(s.below)]
    case OrderNews(o) =>
      map["order_id" := Text(render.uuid(o.id)),
          "customer_id" := Text(render.uuid(o.customer)),
          "status" := Text(StatusText(o.status)),
          "total_amount" := Text(render.money(o.total))]
  }

  predicate Says(render: Rendering, note: Note, e: Published) {
    note.eventType == EventTypeOf(e) && note.data.Object? && note.data.fields == Payload(render, e)
  }

  /** The message is the envelope `publish_event` sends for the event. */
  predicate Carries(render: Rendering, raw: Raw, e: Published) {
    && raw.Parsed? && raw.json.Object? && raw.json.fields.Keys == {"event_type", "data"}
    && raw.json.fields["event_type"].Text?
    && Says(render, Note(raw.json.fields["event_type"].text, raw.json.fields["data"]), e)
  }

  /** Whose list the event belongs in. */
  function HomeOf(render: Rendering, e: Published): string {
    match e
    case StockNews(_) => OPS
    case OrderNews(o) => render.uuid(o.customer)
  }

  /** A published event never stops the consumer, and is stored word for word where it belongs. */
  lemma PublishedIsDelivered(render: Rendering, raw: Raw, e: Published)
    requires Proper(render) && Carries(render, raw, e)
    ensures !WrongShape(raw)
    ensures Appended(raw).Some?
    ensures Appended(raw).value.recipient == Text(HomeOf(render, e)) && Says(render, Appended(raw).value.note, e)
  {
    var data := raw.json.fields["data"];
    assert raw.json.fields["event_type"].text == EventTypeOf(e);
    if e.OrderNews? {
      assert data.fields["customer_id"] == Text(render.uuid(e.order.customer));
    }
  }

  // ---------------------------------------------------------------- the feeds

  /** The messages carry the events, one each, in the same order. */
  ghost predicate AllCarry(render: Rendering, messages: seq<Raw>, produced: seq<Published>) {
    |messages| == |produced| && forall i | 0 <= i < |messages| :: Carries(render, messages[i], produced[i])
  }

  ghost predicate AllSay(render: Rendering, notes: seq<Note>, events: seq<Published>) {
    |notes| == |events| && forall i | 0 <= i < |notes| :: Says(render, notes[i], events[i])
  }

  /** The published changes of one customer's orders. */
  function ChangesOf(produced: seq<Published>, customer: CustomerId): seq<Published> {
    if produced == [] then []
    else
      var last := produced[|produced| - 1];
      ChangesOf(produced[..|produced| - 1], customer) +
      (if last.OrderNews? && last.order.customer == customer then [last] else [])
  }

  function StockChanges(produced: seq<Published>): seq<Published> {
    if produced == [] then []
    else
      var last := produced[|produced| - 1];
      StockChanges(produced[..|produced| - 1]) + (if last.StockNews? then [last] else [])
  }

  /** The published events that belong in one list. */
  function HomedAt(render: Rendering, produced: seq<Published>, key: string): seq<Published> {
    if produced == [] then []
    else
      var last := produced[|produced| - 1];
      HomedAt(render, produced[..|produced| - 1], key) + (if HomeOf(render, last) == key then [last] else [])
  }

  lemma {:induction false} HomesAreOwners(render: Rendering, produced: seq<Published>, customer: CustomerId)
    requires Proper(render)
    ensures HomedAt(render, produced, render.uuid(customer)) == ChangesOf(produced, customer)
    ensures HomedAt(render, produced, OPS) == StockChanges(produced)
  {
    if produced == [] {
    } else {
      HomesAreOwners(render, produced[..|produced| - 1], customer);
    }
  }

  predicate AllAppend(messages: seq<Raw>) {
    forall i | 0 <= i < |messages| :: Appended(messages[i]).Some?
  }

  function Deliveries(messages: seq<Raw>): seq<Delivery>
    requires AllAppend(messages)
  {
    seq(|messages|, i requires 0 <= i < |messages| => Appended(messages[i]).value)
  }

  function NotesFor(deliveries: seq<Delivery>, key: string): seq<Note> {
    if deliveries == [] then []
    else
      var last := deliveries[|deliveries| - 1];
      NotesFor(deliveries[..|deliveries| - 1], key) + (if last.Key() == key then [last.note] else [])
  }

  lemma {:induction false} RoutedIsNotes(messages: seq<Raw>, key: string)
    requires AllAppend(messages)
    ensures RoutedTo(messages, key) == NotesFor(Deliveries(messages), key)
  {
    if messages == [] {
    } else {
      RoutedIsNotes(messages[..|messages| - 1], key);
      assert Deliveries(messages)[..|messages| - 1] == Deliveries(messages[..|messages| - 1]);
    }
  }

  /** The deliveries bring the events home. */
  ghost predicate BringHome(render: Rendering, deliveries: seq<Delivery>, produced: seq<Published>) {
    && |deliveries| == |produced|
    && forall i | 0 <= i < |deliveries| ::
      deliveries[i].Key() == HomeOf(render, produced[i]) && Says(render, deliveries[i].note, produced[i])
  }

  lemma AllAreDelivered(render: Rendering, messages: seq<Raw>, produced: seq<Published>)
    requires Proper(render) && AllCarry(render, messages, produced)
    ensures AllAppend(messages) && BringHome(render, Deliveries(messages), produced)
  {
    forall i | 0 <= i < |messages|
      ensures Appended(messages[i]).Some?
      ensures Appended(messages[i]).value.Key() == HomeOf(render, produced[i])
      ensures Says(render, Appended(messages[i]).value.note, produced[i])
    {
      PublishedIsDelivered(render, messages[i], produced[i]);
    }
  }

  lemma AllAreTaken(render: Rendering, messages: seq<Raw>, produced: seq<Published>)
    requires Proper(render) && AllCarry(render, messages, produced)
    ensures Taken(messages) == |messages|
  {
    forall i | 0 <= i < |messages| ensures !WrongShape(messages[i]) {
      PublishedIsDelivered(render, messages[i], produced[i]);
    }
    TakenIs(messages, |messages|);
  }

  lemma {:induction false} NotesOfHomed(render: Rendering, deliveries: seq<Delivery>, produced: seq<Published>, key: string)
    requires BringHome(render, deliveries, produced)
    ensures AllSay(render, NotesFor(deliveries, key), HomedAt(render, produced, key))
  {
    if deliveries == [] {
    } else {
      NotesOfHomed(render, deliveries[..|deliveries| - 1], produced[..|produced| - 1], key);
    }
  }

  /**
    However the published events arrive, the consumer takes all of them, and the log behind a
    customer's history is exactly the changes of that customer's orders, in arrival order, and the log
    behind the ops feed exactly the stock changes.
  */
  lemma FeedsAreExact(render: Rendering, messages: seq<Raw>, produced: seq<Published>, customer: CustomerId)
    requires Proper(render) && AllCarry(render, messages, produced)
    ensures Taken(messages) == |messages|
    ensures AllSay(render, RoutedTo(messages, render.uuid(customer)), ChangesOf(produced, customer))
    ensures AllSay(render, RoutedTo(messages, OPS), StockChanges(produced))
  {
    AllAreTaken(render, messages, produced);
    AllAreDelivered(render, messages, produced);
    HomesAreOwners(render, produced, customer);
    NotesOfHomed(render, Deliveries(messages), produced, render.uuid(customer));
    RoutedIsNotes(messages, render.uuid(customer));
    NotesOfHomed(render, Deliveries(messages), produced, OPS);
    RoutedIsNotes(messages, OPS);
  }

  // ---------------------------------------------------------------- what is announced

  /** A note about the stored order `o`: the type of the change, and the order's own row in four fields. */
  predicate TellsOrder(render: Rendering, note: Note, req: Request, o: Order) {
    && note.eventType == (if req.Place? then "order.created" else if req.Pay? then "order.paid" else "order.cancelled")
    && note.data.Object?
    && note.data.fields == map[
         "order_id" := Text(render.uuid(req.id)),
         "customer_id" := Text(render.uuid(o.customer)),
         "status" := Text(if req.Place? then "pending" else if req.Pay? then "paid" else "cancelled"),
         "total_amount" := Text(render.money(o.total))]
  }

  /** The message of an announced order row is stored with its customer and tells the row. */
  lemma OrderIsTold(render: Rendering, req: Request, o: Order, e: OrderEvent, raw: Raw)
    requires Proper(render) && Carries(render, raw, OrderNews(e))
    requires e == OrderEvent(TransitionOf(req), req.id, o.customer, o.status, o.total)
    requires o.status == if req.Place? then Pending else if req.Pay? then Paid else Cancelled
    ensures Appended(raw).Some? && Appended(raw).value.recipient == Text(render.uuid(o.customer))
    ensures TellsOrder(render, Appended(raw).value.note, req, o)
  {
    PublishedIsDelivered(render, raw, OrderNews(e));
  }

  /**
    Every committed change reaches its customer, under every interleaving: each committed transaction
    has announced exactly one event, and its message is stored in the list of the customer the order
    belongs to and tells the order row as committed. The total it tells is the sum of the stored lines.
  */
  lemma CommitReachesItsCustomer(render: Rendering, db: DB, steps: seq<Step>, i: nat, raw: Raw)
    requires Proper(render) && ValidRun(Opening(db), steps) && i < |After(Opening(db), steps).log|
    requires var announced := After(Opening(db), steps).log[i].announced;
      announced != [] ==> Carries(render, raw, OrderNews(announced[0]))
    ensures var log := After(Opening(db), steps).log; var req := log[i].req;
      var orders := Serve(ServeAll(db, Logged(log[..i])), req).db.orders;
      && |log[i].announced| == 1 && req.id in orders
      && (Sound(db) ==> orders[req.id].total == Total(orders[req.id].items))
      && Appended(raw).Some? && Appended(raw).value.recipient == Text(render.uuid(orders[req.id].customer))
      && TellsOrder(render, Appended(raw).value.note, req, orders[req.id])
  {
    Serializable(db, steps);
    var log := After(Opening(db), steps).log;
    assert EntryOk(db, log, i);
    var before := ServeAll(db, Logged(log[..i]));
    OneAnnouncement(before, log[i].req);
    if Sound(db) {
      AlwaysBounded(db, Logged(log[..i]));
      ServeKeepsSound(before, log[i].req);
    }
    OrderIsTold(render, log[i].req, Serve(before, log[i].req).db.orders[log[i].req.id], log[i].announced[0], raw);
  }

  /** A stock event is stored with ops, and tells the product, the change and what is left. */
  lemma StockChangeReachesOps(render: Rendering, e: StockEvent, raw: Raw)
    requires Proper(render) && Carries(render, raw, StockNews(e))
    ensures Appended(raw).Some? && Appended(raw).value.recipient == Text("ops")
    ensures var note := Appended(raw).value.note;
      && note.eventType == (if e.kind == Reserve then "stock.reserved" else if e.kind == Release then "stock.released"
                            else "stock.committed")
      && note.data.Object?
      && note.data.fields == map[
           "product_id" := Text(render.uuid(e.product)),
           "sku" := Text(render.sku(e.product)),
           "quantity_delta" := Number(render.number(e.delta)),
           "available_quantity" := Number(render.number(e.available)),
           "below_reorder_threshold" := Bool(e.below)]
  {
    PublishedIsDelivered(render, raw, StockNews(e));
  }
}
