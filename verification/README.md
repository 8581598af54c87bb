# Orbit commerce platform: orders, stock, idempotency and notifications in Dafny

This project models the parts of the platform where correctness depends on many steps over shared
state, and proves what those parts promise.

- **Stock and orders** (core_api). Every product has two counters, on-hand and reserved. Placing,
  paying and cancelling an order loop over its lines, update one row-locked counter per line, and
  roll everything back when a line fails.
- **Concurrent requests.** Each request is a transaction that locks a row on first touch and keeps
  it to the end; order snapshots are read without a lock.
- **Idempotency keys.** `POST /orders/` wraps that transaction in a cache protocol of separate
  `get`, `add`, `set` and `delete` operations with two times to live.
- **Notifications** (notification_service). JSON messages are routed to a recipient's capped Redis
  list, built by separate commands of several processes, and fanned out to a socket registry that
  changes across awaits. The order and stock events core_api publishes are followed to the list they
  end up in.

`dafny verify dfyconfig.toml` verifies all of it.

## How it is laid out

| file | what it holds |
|---|---|
| `Common.dfy` | option, result and error types |
| `Inventory.dfy` | stock rows, the three services, loops of them and their closed form (`StockTable`) |
| `Orders.dfy` | place, pay, cancel: specification functions, and the loops with rollback (`OrderService`) |
| `Ledger.dfy` | sums over the order table, the exact ledger, when a request and a run keep it |
| `Drift.dfy` | what holds of every run of the code as written |
| `Settlement.dfy` | no oversell, commuting settlements, cancel undoing place |
| `Replay.dfy` | the `max(..., 0)` clamps and the event log |
| `Concurrency.dfy` | the interleaved machine of row locks, and serializability |
| `ConcurrentLedger.dfy` | the ledger results for every interleaving |
| `Progress.dfy` | every serial run is an interleaving; disjoint requests side by side; the stale cancels that both commit |
| `Idempotency.dfy` | the cache, and `begin`, `complete`, `abandon` (`Cache`) |
| `Checkout.dfy` | the interleaved world of requests, cache, clock and transactions; mutual exclusion |
| `AtMostOnce.dfy` | the end-to-end promise of an Idempotency-Key |
| `Runs.dfy` | runs that do happen: an order placed, a phantom replay, a key that places twice |
| `Views.dfy` | the endpoints one request at a time (`OrderViews`) |
| `Endpoint.dfy` | a create request alone, as a run of the interleaved world |
| `Notifications.dfy` | JSON messages, routing, Redis lists, the consumer (`NotificationStore`, `EventConsumer`) |
| `Announcements.dfy` | the events core_api publishes, as messages, and the feeds they make |
| `Feed.dfy` | many writers interleaving `lpush`, `ltrim`, `expire` |
| `Sockets.dfy` | the registry (`ConnectionManager`) and its await interleavings |

Money is in integer cents. Identifiers stand for UUIDs. A requested line carries the catalogue as
its own lookup sees it, so prices and activity may change between two lines. Requests take the
order id that `uuid4` would draw as a parameter; an id that is already taken fails with the primary
key's integrity error.

## Where the code does less than its documentation says

- **Pay has no status guard, and pay and cancel act on an unlocked snapshot.** The exact ledger
  (reserved = pending lines, on-hand = start minus paid lines) therefore holds exactly while every
  settled order is still PENDING in the database. `Ledger.SettleExactIff` gives the condition for one
  request in both directions, `Ledger.CleanIffSettledOnce` reads it off the requests of a whole run
  (no order settled twice); `Drift.CancelTwiceIff` says when cancelling twice is noticed, and
  `Progress.StaleCancelsBothCommit` shows row locks do not prevent it. For the
  code as written, `Drift.DriftBound` bounds the damage over every run.
- **`complete` runs before the commit.** A request that completes and then loses its commit leaves a
  201 in the cache. At most one order is still placed, but a replayed body may describe an order that
  does not exist: `AtMostOnce.ReplayIsRealIff` says when, and `Runs.PhantomReplay` builds such a run
  for any call that can be served.
- **A handler can outlive its lock, and `abandon` deletes without an ownership check.** Mutual
  exclusion holds of a key exactly as long as no `add` for it finds one of its handlers past its
  deadline (`Checkout.ApartIff`), and so long at-most-once holds too
  (`AtMostOnce.AtMostOnceEndToEnd`). Handlers ending before
  `_LOCK_TTL_SECONDS`, the protocol's own assumption (`Checkout.Timely`), are enough for that
  (`Checkout.MutualExclusion`); what the protocol lets happen without it is `Checkout.Legal`.
  `Runs.OverrunPlacesTwice` is a run in which one key places two orders after an overrun, and in
  `Runs.AbandonLetsIn` a late handler that raises makes two handlers proceed together although neither
  of them is late.
- **Some messages stop the consumer.** Only unparseable bytes are dropped. A message raises out of the
  loop, and later messages are not handled, exactly if it is no JSON object, its event type is no
  string, or it is an order event whose data is no object or whose customer id is a non-empty array or
  object (`Notifications.WrongShape`, `Notifications.EventConsumer.HandleMessage`,
  `Notifications.StoppingMessages`). An order event with such a customer id has its note stored first.
  A stock event whose data has the wrong type goes to ops. The messages core_api publishes never stop it
  (`Announcements.FeedsAreExact`).
- A limit of 0 would make `list_recent` return the whole list, Redis reading -1 as the last index;
  the endpoint's lower bound of 1 prevents it (`Feed.RangeIsNewest`).

## Model

| member | source | states |
|---|---|---|
| Inventory.ReserveAllOrNothing | services/core_api/apps/inventory/services.py:19-37 | a loop of reservations succeeds iff, for every product, the demand of all calls together (repeats included) is at most the availability at entry, and then adds exactly that demand |
| Inventory.SettleCollapses | services/core_api/apps/inventory/services.py:40-62 | a loop of releases or commits fails only on a missing row, and its clamped subtractions equal one clamped subtraction of the aggregate demand per row |
| Inventory.BoundedThroughout | services/core_api/apps/inventory/services.py:27-58 | at every point of every loop `0 <= reserved <= quantity`, available is the exact difference, and on-hand never rises |
| Inventory.StockTable.ReserveStock | services/core_api/apps/inventory/services.py:19-37 | which error a refused reservation raises (no row, too few units), with nothing changed; otherwise the new counters and the event with what is left |
| Inventory.StockTable.ReleaseStock | services/core_api/apps/inventory/services.py:40-49 | a missing row raises; otherwise the reservation loses the units, never below zero, and the event tells what is left |
| Inventory.StockTable.CommitStock | services/core_api/apps/inventory/services.py:52-62 | the same for both counters |
| Orders.PlaceLinesIsReserving | services/core_api/apps/orders/services.py:24-34 | the placing loop succeeds iff all lines are orderable and the bare reservation loop does; it stores each line at the price its lookup saw, and the running total is the sum of the stored subtotals |
| Orders.PlaceOrderAllOrNothing | services/core_api/apps/orders/services.py:12-45 | placing succeeds iff the id is new, every product is active, every quantity at least 1, and aggregate demand fits; then exactly one PENDING order and its demand appear, otherwise nothing changes |
| Orders.PlaceRefusal | services/core_api/apps/orders/services.py:12-34 | a placement that cannot go through raises what is wrong with the first line that cannot be placed: no active product, else no stock row, else too little for that line and the ones before it |
| Orders.SettleReplies | services/core_api/apps/orders/services.py:48-97 | paying and cancelling reply 404 for an order that is not there, a domain error for a cancel whose snapshot was not PENDING, the missing row of a line, and otherwise the order with its new status |
| Orders.OrderService.PlaceOrder | services/core_api/apps/orders/services.py:12-45 | the loop with its savepoint leaves stock, orders, both topics and the result as the specification says, rollback from the middle and the order.created event included |
| Orders.OrderService.MarkOrderPaid | services/core_api/apps/orders/services.py:48-64 | the same for paying and order.paid, with no status guard |
| Orders.OrderService.CancelOrder | services/core_api/apps/orders/services.py:67-97 | the same for cancelling and order.cancelled, guarded by the status on the snapshot |
| Orders.OrderService.RecalculateTotal | services/core_api/apps/orders/models.py:29-33 | the loop stores the sum of the stored subtotals as the total |
| Ledger.SettleExactIff | services/core_api/apps/orders/services.py:48-97 | paying or cancelling keeps the exact ledger iff the stored order is PENDING, or for every product of the order the clamps hide the request (condition on counters and status before the call) |
| Ledger.ExactLedger | services/core_api/apps/orders/services.py:12-97 | over every run whose settlements hit PENDING orders, reserved is the sum of all pending lines and on-hand the start minus all paid lines |
| Ledger.CleanIffSettledOnce | services/core_api/apps/orders/services.py:48-97 | a run of successful requests settles only PENDING orders iff no order is settled twice and none that the start holds settled is settled again: told from the requests alone |
| Ledger.ServeKeepsSound | services/core_api/apps/orders/services.py:12-97 | every request, clean or not, keeps rows in bounds, lines backed by rows, and totals equal to their lines |
| Drift.DriftBound | services/core_api/apps/orders/services.py:48-97 | over all runs of the code as written, reserved never exceeds the pending lines, the gap is at most the demand settled on orders no longer PENDING, and on-hand is exactly the start less everything ever paid, floored at zero |
| Drift.ServeDrift | services/core_api/apps/orders/services.py:48-97 | one request widens the gap by at most the demand of a non-PENDING order it settles, and otherwise not at all |
| Drift.AlwaysBounded | services/core_api/apps/inventory/models.py:26-32 | in every run available is the exact difference of the counters, on-hand never exceeds the start, and stored totals agree with their lines |
| Drift.OrdersArePermanent | services/core_api/apps/orders/services.py:52-53 | nothing an order stores but its status ever changes, and no order returns to PENDING |
| Drift.RecalculatingIsANoOp | services/core_api/apps/orders/models.py:29-33 | after any run, whatever prices the lines saw, recalculating a stored total changes nothing |
| Drift.CancelTwiceIff | services/core_api/apps/orders/views.py:83-87 | cancelling one pending order twice keeps the exact ledger iff all that is reserved of its products is reserved by it |
| Drift.StaleCancelBreaksExact | services/core_api/apps/orders/views.py:83-87 | without any payment, a run of two placements and two cancels that both read PENDING leaves the exact ledger broken |
| Settlement.SettleEverything | services/core_api/apps/inventory/services.py:40-62 | from any exact state, any choice of paid and cancelled pending orders in any order goes through, leaves nothing of theirs reserved, and on-hand at the start minus everything paid |
| Settlement.SettlementCommutes | services/core_api/apps/inventory/services.py:40-62 | two settlement plans with the same decisions in different orders end in the same database |
| Settlement.CancelUndoesPlace | services/core_api/apps/orders/services.py:67-97 | placing an order, any clean run of other orders with all placements succeeding, then cancelling it leaves the stock of the middle run alone |
| Replay.UnclampedIff | services/core_api/apps/inventory/services.py:45-58 | no clamp fires inside a loop iff the entry counters absorb the aggregate demand |
| Replay.NoClampFires | services/core_api/apps/inventory/services.py:45-58 | in a clean run no `max(..., 0)` clamp ever fires |
| Replay.EventLogReplays | services/core_api/apps/inventory/services.py:65-77 | in a clean run the deltas of committed requests add up to the table, and every available_quantity and below_reorder_threshold is the replayed value at its place |
| Replay.ReplayIffQuiet | services/core_api/apps/inventory/services.py:65-77 | a settling request can be replayed from its deltas iff no clamp fired in it |
| Concurrency.ProgramIsServe | services/core_api/apps/orders/services.py:12-97 | the row operations of a request, run alone, give the result, events and error of the whole request |
| Concurrency.ActAllFrame | services/core_api/apps/inventory/services.py:21-25 | rows a transaction has not touched neither change what it does nor are changed by it |
| Concurrency.FinishedIsServed | services/core_api/apps/inventory/services.py:19-62 | a finished transaction's view is its request served on what is committed at that moment, both topics included |
| Concurrency.Serializable | services/core_api/apps/inventory/services.py:19-62 | in every interleaving with any aborts, the committed database, successes and the payloads on both topics are those of the committed requests served serially in commit order |
| ConcurrentLedger.RefusalIsGenuine | services/core_api/apps/inventory/services.py:27-31 | when an operation is refused mid-transaction, serving the whole request on what is committed is refused with the same error |
| ConcurrentLedger.ViewsBounded | services/core_api/apps/inventory/services.py:27-58 | at every point of every interleaving committed rows and uncommitted views keep reserved at most quantity |
| ConcurrentLedger.CommittedDrift | services/core_api/apps/orders/views.py:77-87 | the drift bound for what is committed in every interleaving |
| ConcurrentLedger.CommittedExact | services/core_api/apps/orders/services.py:12-97 | where committed requests were clean at their commit, the interleaved run ends on the exact ledger and its events replay to the table |
| ConcurrentLedger.SettledOnceIsExact | services/core_api/apps/orders/views.py:77-87 | the same under every interleaving, read off the committed requests, with the exact ledger and the replaying event log following |
| Progress.RunToCommit | services/core_api/config/settings/base.py:112 | a transaction none of whose rows is held by others, and whose request would succeed, can run to its commit |
| Progress.DisjointBothHold | services/core_api/apps/inventory/services.py:21-25 | two requests that need different rows can both hold all of theirs at the same time |
| Progress.DisjointBothCommit | services/core_api/apps/inventory/services.py:21-25 | and both then commit |
| Progress.EverySerialRunHappens | services/core_api/config/settings/base.py:112 | the converse of serializability: every serial run of successful requests is an interleaving |
| Progress.StaleCancelsBothCommit | services/core_api/apps/orders/views.py:83-87 | two cancels that read the snapshot before either commits both commit, for an order of any lines, and the ledger stays exact iff no other order had reserved anything of its products |
| Idempotency.CacheKeyInjective | services/core_api/apps/common/idempotency.py:23-24 | two requests share a cache key iff user and Idempotency-Key agree |
| Idempotency.Cache.Begin | services/core_api/apps/common/idempotency.py:27-50 | the returned outcome and the whole cache afterwards, for absent, expired, in-progress and done entries; after "proceed" every other begin for the key is turned away until the lock's time is over |
| Idempotency.Cache.Complete | services/core_api/apps/common/idempotency.py:53-58 | every later begin for the key replays the result until the replay window ends and proceeds after it; begins for other keys cannot tell |
| Idempotency.Cache.Abandon | services/core_api/apps/common/idempotency.py:61-64 | every later begin for the key proceeds, whoever had stored its entry; begins for other keys cannot tell |
| Checkout.MutualExclusion | services/core_api/apps/common/idempotency.py:27-64 | the protocol's own assumption is enough: with timely handlers, get and add as separate steps, and abandon running while the request's own transaction is still open, at most one request per key ever proceeds |
| Checkout.DoneIsFinal | services/core_api/apps/common/idempotency.py:40-58 | a done entry is neither deleted nor changed by any continuation of the run, however long its handlers take, that stays before the end of its replay window |
| Checkout.CrashHoldsTheKey | services/core_api/apps/common/idempotency.py:33-35 | a handler that crashes keeps its key: for the rest of the lock's time every other request with the key is turned away |
| Checkout.ApartIff | services/core_api/apps/common/idempotency.py:27-64 | in any run, however long handlers take, no two handlers of a key ever proceed together iff no add for the key ever finds one of its handlers past its deadline; while that holds the live entry is the handler's own |
| AtMostOnce.AtMostOnceEndToEnd | services/core_api/apps/orders/views.py:37-69 | over any interleaving of any requests in which no add for the key is made beside an outlived handler of the key, at most one committed transaction belongs to the key, the database is the log served serially, and all successes carry one body |
| AtMostOnce.TimelyIsOrderly | services/core_api/apps/common/idempotency.py:19 | handlers that end inside the lock's time to live give every key that condition |
| AtMostOnce.ReservedOnce | services/core_api/apps/orders/views.py:37-69 | the stock events of a key's committed transactions reserve exactly the demand of its one order |
| AtMostOnce.CreatedIsStored | services/core_api/apps/orders/views.py:71-75 | when the handler's own request commits, the order appears exactly as its response body says |
| AtMostOnce.ReplayIsRealIff | services/core_api/apps/orders/views.py:53-69 | the order of a replayed body exists iff the request that completed it also committed |
| Runs.LoseThenRetry | services/core_api/apps/orders/views.py:62-69 | from any such run in which a request has completed: lose the commit and retry, and the retry is answered with the body of an order that is not in the database |
| Runs.PhantomReplay | services/core_api/apps/orders/views.py:62-69 | the same from the empty world, for any call that can be served |
| Runs.OneCallPlaces | services/core_api/apps/orders/views.py:37-69 | the at-most-once promise is not empty: any call that can be served does run from the empty world to its 201, timely and inside the window |
| Runs.RetryBeforeRollback | services/core_api/apps/orders/views.py:56-60 | a retry can proceed before the failed attempt's open transaction has rolled back |
| Runs.RollBackThenRun | services/core_api/apps/orders/views.py:56-60 | and once that is rolled back, the retry alone places its order |
| Runs.OverrunPlacesTwice | services/core_api/apps/common/idempotency.py:46-47 | a run from the empty world with one add beside an outlived handler: one key commits two orders and answers two requests with different success bodies |
| Runs.RetryAfterWindow | services/core_api/apps/common/idempotency.py:20 | a retry after the replay window places a second order, in a run in which every handler is in time: the window bounds the promise |
| Runs.AbandonLetsIn | services/core_api/apps/common/idempotency.py:61-64 | a late handler that raises deletes its successor's lock, so two handlers proceed together although neither of them is late |
| Runs.AbandonPlacesTwice | services/core_api/apps/common/idempotency.py:61-64 | and they place an order each under the one key |
| AtMostOnce.FinishedCanComplete | services/core_api/apps/orders/views.py:62-68 | a handler that has done all its operations can always complete |
| Views.OrderViews.Create | services/core_api/apps/orders/views.py:37-69 | replays the response a done key has, answers 409 while the key is locked, and otherwise gives a 201 for the one order stored, announced and kept for a day under the key, or an error that stores nothing and leaves no entry; the same without the header |
| Views.CreateKeepsPromise | services/core_api/apps/orders/views.py:37-75 | that promise, of every database, cache, time and payload |
| Views.RetryReplays | services/core_api/apps/orders/views.py:53-54 | two creates in sequence: after a success the second, inside the replay window, gets the first one's body and stores, reserves and publishes nothing |
| Endpoint.CreateIsARun | services/core_api/apps/orders/views.py:37-69 | a create request that nothing interleaves with is one of the interleaved world's runs, and ends in the database, cache, log and reply the endpoint's contract says |
| Views.OrderViews.Pay | services/core_api/apps/orders/views.py:77-81 | paying through the endpoint is the pay request of the specification, both topics included, and 404 for an order that is not there |
| Views.OrderViews.Cancel | services/core_api/apps/orders/views.py:83-87 | cancelling through the endpoint is the cancel request with the status just read; 404 and the domain error included |
| Notifications.RaisesIff | services/notification_service/app/kafka/consumer.py:65-77 | the handler's own steps raise (no object, no string, no `get`, or an unhashable recipient at the broadcast) iff the JSON has one of the stopping shapes |
| Notifications.StoppingMessages | services/notification_service/app/kafka/consumer.py:65-77 | three concrete messages that raise out of the handler, one of them after its note is stored, and a wrongly typed stock event that does not |
| Notifications.OneBadMessageStopsTheConsumer | services/notification_service/app/kafka/consumer.py:51-56 | after the first message of a wrong shape nothing that follows is ever taken |
| Notifications.EventConsumer.HandleMessage | services/notification_service/app/kafka/consumer.py:58-77 | the handler raises iff the JSON has one of the stopping shapes; at most one list changes, the one the note's content belongs in, and gains it at the head; exactly the recipient's sockets that do not fail get the note once, and those that fail leave the registry |
| Notifications.AppendedBelongs | services/notification_service/app/kafka/consumer.py:65-77 | a note is its message's type and data, with the defaults for missing ones, and goes to the customer an order event names, or to ops if that is missing or one of the values Python counts as false |
| Notifications.StoredIsAPartition | services/notification_service/app/kafka/consumer.py:58-77 | every stored note is in the list its content says, and the stored lists together are the appended notes, each exactly once, iff no recipient's log has outgrown the cap |
| Notifications.PushAndTrim | services/notification_service/app/models/store.py:43-47 | a trimmed push onto the newest hundred is the newest hundred of the longer log |
| Notifications.NewestAt | services/notification_service/app/models/store.py:43-51 | entry i of a history is the one i back from the end of the log |
| Notifications.NotificationStore.Append | services/notification_service/app/models/store.py:43-46 | the lists after an append nothing interleaves with |
| Notifications.EventConsumer.Run | services/notification_service/app/kafka/consumer.py:42-71 | each stored history is the newest hundred of the messages routed to it, in arrival order, up to and including the first message of a stopping shape; the stored lists partition what was appended |
| Announcements.FeedsAreExact | services/notification_service/app/kafka/consumer.py:73-77 | however core_api's events arrive, the consumer takes all of them; the log behind a customer's history is exactly the changes of that customer's orders, the one behind ops exactly the stock changes |
| Announcements.CommitReachesItsCustomer | services/core_api/apps/orders/services.py:39-44 | under every interleaving each committed transaction has announced exactly one event, and its message is stored with the customer of the order as committed, telling its id, customer, status and total, the sum of its lines |
| Announcements.StockChangeReachesOps | services/core_api/apps/inventory/services.py:65-77 | a stock event is stored with ops, field by field |
| Feed.HistoryRefinesLog | services/notification_service/app/models/store.py:43-47 | under every interleaving of lpush, ltrim, expire and time, each list is the newest part of what was appended since it was last absent, at least the newest hundred, at most a hundred plus the appends in flight |
| Feed.VanishesIff | services/notification_service/app/models/store.py:47 | a list goes only by time passing, exactly when the time to live has run out since the last EXPIRE completed on it |
| Feed.KeptForTtl | services/notification_service/app/models/store.py:43-47 | as long as less than the time to live has passed since any EXPIRE completed on a list, the list is there and nothing appended before or after is lost but to the cap |
| Feed.GoneAfterTtl | services/notification_service/app/models/store.py:47 | once it has run out with no command for the list, the list is absent |
| Feed.AppendCompletes | services/notification_service/app/models/store.py:43-47 | a writer that is not in the middle of an append can always do a whole one |
| Feed.RecentIsNewest | services/notification_service/app/models/store.py:49-51 | list_recent with a limit from 1 to 100 returns exactly the newest entries, even mid-append |
| Feed.RangeIsNewest | services/notification_service/app/models/store.py:49-51 | for which limits a read of the capped list equals a read of the log, 0 included |
| Sockets.ConnectionManager.Connect | services/notification_service/app/ws/manager.py:24-27 | the whole new registry after a connect |
| Sockets.ConnectionManager.Disconnect | services/notification_service/app/ws/manager.py:29-33 | the whole new registry after a disconnect, the recipient going with its last socket |
| Sockets.ConnectionManager.Broadcast | services/notification_service/app/ws/manager.py:35-42 | every snapshot socket that does not fail gets the message once, exactly the failing ones are dropped |
| Sockets.RegistryIsReplayed | services/notification_service/app/ws/manager.py:24-42 | under every await interleaving the registry is what the actions alone say: connects minus disconnects and failed sends; no recipient maps to an empty set; each broadcast works from the sockets registered when it started and sends to each at most once |
| Sockets.FinishedBroadcast | services/notification_service/app/ws/manager.py:35-42 | a broadcast that is over has sent to every socket of its snapshot, or has failed to and then dropped that socket |
| Sockets.BroadcastCanFinish | services/notification_service/app/ws/manager.py:35-42 | however far a broadcast has got, it can be brought to its end, whichever sends still fail |
| Sockets.BroadcastTouchesOnlyItsSnapshot | services/notification_service/app/ws/manager.py:35-42 | a broadcast's step changes no other recipient and no socket that connected after its snapshot |

## Left out

- Deadlock freedom: lines are locked in request order, so two orders can wait on each other; a deadlock victim is one of the aborts, and only safety is claimed.
- Kafka and Redis clients, Celery tasks, the post-save signal and the Channels consumer: transport. `publish_event` swallows its failures, so a topic here is the events handed to it; a sent event may belong to a request that rolled back, and nothing is claimed about it then.
- Random notification ids and time stamps. How UUIDs, money, numbers and SKUs are rendered as text is a parameter; so is the text Python formats a JSON number, array or object as.
- Message values that are null, strings with lone surrogates, and JSON that json.loads itself gives up on with another error than JSONDecodeError (nesting or integers beyond its limits): these raise too.
- The ORM instance after its request: rows are values, and nothing aliases an instance across requests. The in-memory status of an order whose payment rolled back is not modelled.
- The outer request transaction of a request that fails with a domain error: the error handler does not mark it for rollback, but the service's own savepoint has already undone everything the request wrote, so ending it is modelled as an abort. A request that fails later rolls back as a whole, at any point after `abandon`.
- Permissions and the queryset filter by customer, serializer rendering, catalogue views, users and authentication.
- Admin edits of stock, prices or status, and the SHIPPED and DELIVERED transitions: no service performs them.
- Column widths and decimal precision: quantities and cents are unbounded.
- Checkout.MutualExclusion: assumes every handler ends before its cache entry expires, which is the protocol's own stated bound; the code does not enforce it. Checkout.ApartIff assumes nothing.
- AtMostOnce.AtMostOnceEndToEnd: assumes that no add is made beside an outlived handler, and that the key's done entry has not outlived the replay window, after which a retry is meant to run again (Runs.RetryAfterWindow).
- Sockets.ConnectionManager.Broadcast: the class runs one coroutine at a time; interleavings across awaits are the separate machine in the same file. The order in which a snapshot is sent is arbitrary.
- Notifications.NotificationStore.Append: sets no expiry; EXPIRE and the passing of time are part of the Redis machine in Feed.
- The time to live of a history is a positive setting (a week by default).
- Feed.HistoryRefinesLog: a process that dies between two commands counts as an append in flight for ever.
