/**
  The order endpoints (apps/orders/views.py) as one request at a time runs them: `create` around
  the key protocol, `pay` and `cancel` around the services.
*/
module Views {
  import opened Common
  import opened Inventory
  import opened Orders
  import opened Idempotency
  import opened Checkout

  const SCOPE := "order-create"

  datatype CreateReply =
    | Fresh(result: Result<Body>)  // the handler's own response or exception
    | Cached(body: Body)           // the replayed response
    | InProgress409

  /** The payload of a create request, with the catalogue as the serializer sees it. */
  datatype Payload = Payload(id: OrderId, customer: CustomerId, items: seq<Item>, catalog: Catalog)

  /** The serializer: at least one line, every quantity at least 1, every product active. */
  predicate Valid(payload: Payload) {
    && payload.items != []
    && forall i | 0 <= i < |payload.items| ::
      && payload.items[i].quantity >= 1
      && payload.items[i].product in payload.catalog && payload.catalog[payload.items[i].product].active
  }

  function HandleOutcome(db: DB, payload: Payload): Outcome {
    if Valid(payload) then PlaceOutcome(db, payload.id, payload.customer, payload.items)
    else Outcome(db, [], [], Err(ValidationFailed))
  }

  /** What a create request leaves in the database and the cache, what it published, and its reply. */
  datatype Served = Served(db: DB, slots: Slots<Body>, events: seq<StockEvent>, announced: seq<OrderEvent>, reply: CreateReply)

  /** The handler's own response. */
  function Response(payload: Payload, reply: Result<Order>): Result<Body> {
    match reply case Ok(order) => Ok(Body(payload.id, order)) case Err(e) => Err(e)
  }

  /** A create request without an Idempotency-Key. */
  function PlainOutcome(db: DB, slots: Slots<Body>, payload: Payload): Served {
    var out := HandleOutcome(db, payload);
    Served(out.db, slots, out.events, out.announced, Fresh(Response(payload, out.reply)))
  }

  /** A whole create request with an Idempotency-Key, nothing else happening meanwhile. */
  function CreateOutcome(db: DB, slots: Slots<Body>, now: nat, key: string, payload: Payload): Served {
    match BeginOutcome(slots, now, key)
    case Busy => Served(db, slots, [], [], InProgress409)
    case Replay(body) => Served(db, slots, [], [], Cached(body))
    case Proceed =>
      var plain := PlainOutcome(db, slots, payload);
      match plain.reply.result
      case Err(_) => plain.(slots := slots - {key})
      case Ok(body) => plain.(slots := Put(slots, now, key, Done(body), RESULT_TTL_SECONDS))
  }

  // ---------------------------------------------------------------- what the endpoint promises

  /** The payload is one the serializer lets through. */
  predicate Acceptable(payload: Payload) {
    && |payload.items| > 0
    && forall item | item in payload.items ::
      && item.quantity > 0 && item.product in payload.catalog && payload.catalog[item.product].active
  }

  /** It is, its products are still active, its id is new, and all its lines together are available. */
  predicate CanBePlaced(db: DB, payload: Payload) {
    && Acceptable(payload)
    && (forall item | item in payload.items :: item.product in item.catalog && item.catalog[item.product].active)
    && payload.id !in db.orders && Fits(db.stock, Wanted(payload.items))
  }

  /** The order a payload asks for, at the prices its lines' own lookups see. */
  function OrderOf(payload: Payload): Order
    requires Orderable(payload.items)
  {
    Order(payload.customer, Pending, Total(Lines(payload.items)), Lines(payload.items))
  }

  /**
    What the handler does to the database and the topics: a 201 for the one order stored, its demand
    reserved and announced, if the payload can be placed; otherwise an error and an unchanged database.
  */
  ghost predicate HandlesAsPromised(db: DB, payload: Payload, s: Served) {
    s.reply.Fresh? &&
    if CanBePlaced(db, payload) then
      var order := OrderOf(payload);
      && s.reply.result == Ok(Body(payload.id, order))
      && s.db.orders == db.orders[payload.id := order]
      && AddsDemand(db.stock, Wanted(payload.items), s.db.stock)
      && s.announced == [OrderEvent(OrderCreated, payload.id, payload.customer, Pending, order.total)]
      && s.events == RunAll(Reserve, db.stock, Wanted(payload.items)).events
    else
      && s.reply.result.Err? && s.db == db && s.announced == []
      && (s.reply.result.error == ValidationFailed <==> !Acceptable(payload))
      && (!Acceptable(payload) ==> s.events == [])
  }

  /**
    What a create request with an Idempotency-Key does: replays the response the key has, turns the
    request away while the key is locked, and otherwise handles it and keeps a success, but not a
    failure, for a day.
  */
  ghost predicate CreatesAsPromised(db: DB, slots: Slots<Body>, now: nat, key: string, payload: Payload, s: Served) {
    if key in slots && now < slots[key].expires then
      match slots[key].entry
      case Done(body) => s == Served(db, slots, [], [], Cached(body))
      case InProgress => s == Served(db, slots, [], [], InProgress409)
    else
      && HandlesAsPromised(db, payload, s)
      && s.slots == match s.reply.result
           case Ok(body) => slots[key := Slot(Done(body), now + 86400)]
           case Err(_) => slots - {key}
  }

  lemma HandlerKeepsPromise(db: DB, slots: Slots<Body>, payload: Payload)
    ensures HandlesAsPromised(db, payload, PlainOutcome(db, slots, payload))
  {
    PlaceOrderAllOrNothing(db, payload.id, payload.customer, payload.items);
    PlaceLinesIsReserving(db.stock, payload.items);
    assert Acceptable(payload) <==> Valid(payload) by {
      assert forall i | 0 <= i < |payload.items| :: payload.items[i] in payload.items;
    }
    assert CanBePlaced(db, payload) ==> Orderable(payload.items) by {
      assert forall i | 0 <= i < |payload.items| :: payload.items[i] in payload.items;
    }
    if payload.id !in db.orders && !CanPlace(db.stock, payload.items) {
      var i := PlaceRefusal(db, payload.id, payload.customer, payload.items);
    }
  }

  lemma CreateKeepsPromise(db: DB, slots: Slots<Body>, now: nat, key: string, payload: Payload)
    ensures CreatesAsPromised(db, slots, now, key, payload, CreateOutcome(db, slots, now, key, payload))
  {
    HandlerKeepsPromise(db, slots, payload);
  }

  /**
    Two creates with one key: after a success, any second one inside the replay window is answered with
    the first one's body, stores nothing, reserves nothing and publishes nothing, whatever it sends.
  */
  lemma RetryReplays(db: DB, slots: Slots<Body>, now: nat, later: nat, key: string,
                     first: Payload, again: Payload, one: Served, two: Served)
    requires CreatesAsPromised(db, slots, now, key, first, one)
    requires CreatesAsPromised(one.db, one.slots, later, key, again, two)
    requires one.reply.Fresh? && one.reply.result.Ok? && now <= later < now + 86400
    ensures two == Served(one.db, one.slots, [], [], Cached(one.reply.result.value))
    ensures one.reply.result.value.id == first.id && first.id in two.db.orders
    ensures two.db.orders[first.id] == one.reply.result.value.order
  {
  }

  class OrderViews {
    const cache: Cache<Body>
    const service: OrderService

    constructor (cache: Cache<Body>, service: OrderService)
      ensures this.cache == cache && this.service == service
    {
      this.cache := cache;
      this.service := service;
    }

    method CreateOrder(payload: Payload) returns (reply: Result<Body>)
      modifies service, service.inventory
      ensures var out := HandleOutcome(old(service.Contents()), payload);
        && service.Contents() == out.db
        && service.inventory.sent == old(service.inventory.sent) + out.events
        && service.announced == old(service.announced) + out.announced
        && reply == Response(payload, out.reply)
    {
      if !Valid(payload) {
        return Err(ValidationFailed);
      }
      var placed := service.PlaceOrder(payload.id, payload.customer, payload.items);
      match placed
      case Ok(order) => return Ok(Body(payload.id, order));
      case Err(e) => return Err(e);
    }

    /** The handler of a request that got "proceed", and what it tells the cache. */
    method CreateUnderKey(key: string, payload: Payload) returns (reply: CreateReply)
      modifies cache`slots, service, service.inventory
      ensures var out := PlainOutcome(old(service.Contents()), old(cache.slots), payload);
        && service.Contents() == out.db && reply == out.reply
        && service.inventory.sent == old(service.inventory.sent) + out.events
        && service.announced == old(service.announced) + out.announced
        && cache.slots == match out.reply.result
             case Err(_) => old(cache.slots) - {key}
             case Ok(body) => Put(old(cache.slots), cache.now, key, Done(body), RESULT_TTL_SECONDS)
    {
      var response := CreateOrder(payload);
      if response.Err? {
        cache.Abandon(key);
      } else {
        cache.Complete(key, response.value);
      }
      return Fresh(response);
    }

    /** A request with a key: `begin`, and then the handler if the outcome is "proceed". */
    method CreateWithKey(key: string, payload: Payload) returns (reply: CreateReply)
      modifies cache`slots, service, service.inventory
      ensures var out := CreateOutcome(old(service.Contents()), old(cache.slots), cache.now, key, payload);
        && service.Contents() == out.db && cache.slots == out.slots && reply == out.reply
        && service.inventory.sent == old(service.inventory.sent) + out.events
        && service.announced == old(service.announced) + out.announced
    {
      var outcome := cache.Begin(key);
      match outcome
      case Busy => return InProgress409;
      case Replay(body) => return Cached(body);
      case Proceed => reply := CreateUnderKey(key, payload);
    }

    /** `header` is the Idempotency-Key header, empty when missing. */
    method Create(user: string, header: string, payload: Payload) returns (reply: CreateReply)
      modifies cache`slots, service, service.inventory
      ensures old(service.inventory.sent) <= service.inventory.sent && old(service.announced) <= service.announced
      ensures
        var s := Served(service.Contents(), cache.slots, service.inventory.sent[|old(service.inventory.sent)|..],
                        service.announced[|old(service.announced)|..], reply);
        if header == "" then
          s == PlainOutcome(old(service.Contents()), old(cache.slots), payload) &&
          HandlesAsPromised(old(service.Contents()), payload, s) && cache.slots == old(cache.slots)
        else
          var key := "idempotency:order-create:" + user + ":" + header;
          s == CreateOutcome(old(service.Contents()), old(cache.slots), cache.now, key, payload) &&
          CreatesAsPromised(old(service.Contents()), old(cache.slots), cache.now, key, payload, s)
    {
      if header == "" {
        HandlerKeepsPromise(service.Contents(), cache.slots, payload);
        var plain := CreateOrder(payload);
        return Fresh(plain);
      }
      var key := CacheKey(SCOPE, user, header);
      assert key == "idempotency:order-create:" + user + ":" + header;
      CreateKeepsPromise(service.Contents(), cache.slots, cache.now, key, payload);
      reply := CreateWithKey(key, payload);
    }

    method Pay(id: OrderId) returns (reply: Result<Order>)
      modifies service, service.inventory
      ensures Outcome(service.Contents(), service.inventory.sent, service.announced, reply) ==
              Serve(old(service.Contents()), Request.Pay(id)).On(old(service.inventory.sent), old(service.announced))
      ensures id !in old(service.orders) ==> reply == Err(OrderNotFound) && service.Contents() == old(service.Contents())
    {
      if id !in service.orders {
        return Err(OrderNotFound);
      }
      reply := service.MarkOrderPaid(id);
    }

    method Cancel(id: OrderId) returns (reply: Result<Order>)
      modifies service, service.inventory
      ensures Outcome(service.Contents(), service.inventory.sent, service.announced, reply) ==
              (var before := old(service.Contents());
               var seen := if id in before.orders then before.orders[id].status else Pending;
               Serve(before, Request.Cancel(id, seen)).On(old(service.inventory.sent), old(service.announced)))
      ensures id !in old(service.orders) ==> reply == Err(OrderNotFound) && service.Contents() == old(service.Contents())
      ensures id in old(service.orders) && old(service.orders[id].status) != Pending ==>
        reply == Err(NotPending) && service.Contents() == old(service.Contents())
    {
      if id !in service.orders {
        return Err(OrderNotFound);
      }
      var snapshot := service.orders[id];
      reply := service.CancelOrder(id, snapshot.status);
    }
  }
}
