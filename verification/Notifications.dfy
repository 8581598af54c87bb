/**
  Notification routing and capped history (app/kafka/consumer.py, app/models/store.py), as one
  consumer process runs them.
*/
module Notifications {
  import opened Common
  import opened Sockets

  const MAX_HISTORY_PER_RECIPIENT: nat := 100
  const OPS := "ops"

  /**
    A parsed JSON value. `shown` is the text Python formats it as: a recipient that is no string
    still names a Redis list by that text. Nothing ever looks inside an array.
  */
  datatype Json =
    | Null
    | Bool(value: bool)
    | Number(shown: string)
    | Text(text: string)
    | Array(shown: string)
    | Object(fields: map<string, Json>, shown: string)
  {
    predicate Truthy() {
      match this
      case Null => false
      case Bool(b) => b
      case Number(s) => s !in {"0", "0.0", "-0.0"}
      case Text(s) => s != ""
      case Array(s) => s != "[]"
      case Object(fields, _) => fields != map[]
    }

    function Formatted(): string {
      match this
      case Null => "None"
      case Bool(b) => if b then "True" else "False"
      case Text(s) => s
      case _ => shown
    }

    /** Whether Python accepts the value as a dictionary key. */
    predicate Hashable() {
      !Array? && !Object?
    }

    function Get(key: string, default: Json): Json
      requires Object?
    {
      if key in fields then fields[key] else default
    }
  }

  /** A raw message by what json.loads makes of it. */
  datatype Raw = Unparseable | Parsed(json: Json)

  datatype Note = Note(eventType: string, data: Json)

  /** `_recipient_for`; None where it raises because `data` has no `get`. */
  function RecipientFor(eventType: string, data: Json): Option<Json> {
    if !("order." <= eventType) then Some(Text(OPS))
    else if !data.Object? then None
    else
      var customer := data.Get("customer_id", Null);
      Some(if customer.Truthy() then customer else Text(OPS))
  }

  const NO_DATA := Object(map[], "{}")

  /** A note on its way to one recipient. */
  datatype Delivery = Delivery(recipient: Json, note: Note) {
    function Key(): string {
      recipient.Formatted()
    }
  }

  /** What the handler appends for the message, if it gets that far. */
  function Appended(raw: Raw): Option<Delivery> {
    if !raw.Parsed? || !raw.json.Object? then None
    else
      var eventType, data := raw.json.Get("event_type", Text("unknown")), raw.json.Get("data", NO_DATA);
      if !eventType.Text? then None
      else
        match RecipientFor(eventType.text, data)
        case None => None
        case Some(recipient) => Some(Delivery(recipient, Note(eventType.text, data)))
  }

  // ---------------------------------------------------------------- which messages raise

  predicate IsOrderEvent(fields: map<string, Json>) {
    "event_type" in fields && fields["event_type"].Text? && "order." <= fields["event_type"].text
  }

  /** The values Python counts as false: a customer id like these names nobody. */
  predicate NamesNobody(customer: Json) {
    || customer in {Null, Bool(false), Number("0"), Number("0.0"), Number("-0.0"), Text(""), Array("[]")}
    || (customer.Object? && customer.fields == map[])
  }

  /**
    The shapes the handler cannot take, told from the JSON alone: no object at the top; an event type
    that is no string; an order event whose data is no object, or whose customer id is a non-empty
    array or object. `EventConsumer.HandleMessage` raises on exactly these.
  */
  predicate WrongShape(raw: Raw) {
    raw.Parsed? &&
    match raw.json
    case Object(fields, _) =>
      || ("event_type" in fields && !fields["event_type"].Text?)
      || (IsOrderEvent(fields) && "data" in fields &&
          match fields["data"]
          case Object(data, _) =>
            "customer_id" in data && !NamesNobody(data["customer_id"]) && (data["customer_id"].Array? || data["customer_id"].Object?)
          case _ => true)
    case _ => true
  }

  /** Some step of the handler raises: one that leads up to the append, or the broadcast's lookup after it. */
  predicate Raises(raw: Raw) {
    raw.Parsed? && (Appended(raw).None? || !Appended(raw).value.recipient.Hashable())
  }

  lemma RaisesIff(raw: Raw)
    ensures Raises(raw) <==> WrongShape(raw)
  {
    assert "unknown"[0] == 'u' && "order."[0] == 'o';
  }

  /** How many messages the consumer takes: all of them, or up to and including the first that raises. */
  function Taken(messages: seq<Raw>): (n: nat)
    ensures n <= |messages|
    ensures forall i | 0 <= i < n - 1 :: !WrongShape(messages[i])
    ensures n < |messages| ==> n > 0 && WrongShape(messages[n - 1])
  {
    if messages == [] then 0
    else if WrongShape(messages[0]) then 1
    else
      var n := Taken(messages[1..]);
      assert forall i | 0 < i < n :: messages[i] == messages[1..][i - 1];
      1 + n
  }

  lemma {:induction false} TakenIs(messages: seq<Raw>, i: nat)
    requires i <= |messages| && forall j | 0 <= j < i - 1 :: !WrongShape(messages[j])
    requires i == |messages| || (i > 0 && WrongShape(messages[i - 1]))
    ensures Taken(messages) == i
  {
    if i == 0 || WrongShape(messages[0]) {
    } else {
      TakenIs(messages[1..], i - 1);
    }
  }

  /** `i` messages have been taken, and `raised` says whether the last of them was of a wrong shape. */
  ghost predicate TakenSoFar(messages: seq<Raw>, i: nat, raised: bool)
    requires i <= |messages|
  {
    && (forall j | 0 <= j < i - 1 :: !WrongShape(messages[j]))
    && (raised <==> i > 0 && WrongShape(messages[i - 1]))
  }

  lemma TakesOneMore(messages: seq<Raw>, i: nat, raised: bool)
    requires i < |messages| && TakenSoFar(messages, i, false) && raised == WrongShape(messages[i])
    ensures TakenSoFar(messages, i + 1, raised)
  {
  }

  lemma TakenAll(messages: seq<Raw>, i: nat, raised: bool)
    requires i <= |messages| && TakenSoFar(messages, i, raised) && (i == |messages| || raised)
    ensures Taken(messages) == i
  {
    TakenIs(messages, i);
  }

  /** After the first message of a wrong shape, nothing that follows is ever taken. */
  lemma OneBadMessageStopsTheConsumer(good: seq<Raw>, bad: Raw, rest: seq<Raw>)
    requires WrongShape(bad) && forall m | m in good :: !WrongShape(m)
    ensures var messages := good + [bad] + rest;
      Taken(messages) == |good| + 1 && messages[..Taken(messages)] == good + [bad]
  {
    TakenIs(good + [bad] + rest, |good| + 1);
  }

  /**
    Three messages that stop the consumer: `null`, an event type 5, and an order event for the customer
    id `["c"]`, which is appended to the list named `['c']` before the broadcast raises. A stock event
    whose data is null is none of them.
  */
  lemma StoppingMessages(shown: string)
    ensures WrongShape(Parsed(Null)) && Appended(Parsed(Null)).None?
    ensures var five := Parsed(Object(map["event_type" := Number("5")], shown));
      WrongShape(five) && Appended(five).None?
    ensures var data := Object(map["customer_id" := Array("['c']")], shown);
      var late := Parsed(Object(map["event_type" := Text("order.paid"), "data" := data], shown));
      WrongShape(late) && Appended(late) == Some(Delivery(Array("['c']"), Note("order.paid", data)))
    ensures var stock := Parsed(Object(map["event_type" := Text("stock.reserved"), "data" := Null], shown));
      !WrongShape(stock) && Appended(stock) == Some(Delivery(Text(OPS), Note("stock.reserved", Null)))
  {
    assert "order.paid"[..6] == "order.";
    assert "stock.reserved"[0] == 's';
  }

  // ---------------------------------------------------------------- the log of one recipient

  /** The notes of a message log that go to one recipient's list, in arrival order. */
  function RoutedTo(messages: seq<Raw>, recipient: string): seq<Note> {
    if messages == [] then []
    else
      var last := Appended(messages[|messages| - 1]);
      RoutedTo(messages[..|messages| - 1], recipient) +
      (if last.Some? && last.value.Key() == recipient then [last.value.note] else [])
  }

  lemma RoutedExtends(messages: seq<Raw>, m: Raw, recipient: string)
    ensures RoutedTo(messages + [m], recipient) ==
      if Appended(m).Some? && Appended(m).value.Key() == recipient
      then RoutedTo(messages, recipient) + [Appended(m).value.note]
      else RoutedTo(messages, recipient)
  {
    assert (messages + [m])[..|messages + [m]| - 1] == messages;
  }

  /** Where a note belongs, told from its content: with the customer an order event names, or with ops. */
  predicate Belongs(note: Note, key: string) {
    if "order." <= note.eventType && note.data.Object? && "customer_id" in note.data.fields
       && !NamesNobody(note.data.fields["customer_id"])
    then
      match note.data.fields["customer_id"]
      case Text(s) => key == s
      case Bool(_) => key == "True"
      case Number(s) => key == s
      case Array(s) => key == s
      case Object(_, s) => key == s
      case Null => false
    else key == "ops"
  }

  /** A note is its message: the type, `unknown` if there is none, and the data, empty if there is none. */
  lemma AppendedBelongs(raw: Raw)
    requires Appended(raw).Some?
    ensures Belongs(Appended(raw).value.note, Appended(raw).value.Key())
    ensures raw.Parsed? && raw.json.Object?
    ensures var fields, note := raw.json.fields, Appended(raw).value.note;
      && (if "event_type" in fields then fields["event_type"] == Text(note.eventType) else note.eventType == "unknown")
      && note.data == (if "data" in fields then fields["data"] else Object(map[], "{}"))
  {
  }

  lemma {:induction false} RoutedBelong(messages: seq<Raw>, key: string)
    ensures forall note | note in RoutedTo(messages, key) :: Belongs(note, key)
  {
    if messages == [] {
    } else {
      RoutedBelong(messages[..|messages| - 1], key);
      if Appended(messages[|messages| - 1]).Some? {
        AppendedBelongs(messages[|messages| - 1]);
      }
    }
  }

  /** Every note a message log appends, whoever it is for. */
  function StoredNotes(messages: seq<Raw>): seq<Note> {
    if messages == [] then []
    else
      var last := Appended(messages[|messages| - 1]);
      StoredNotes(messages[..|messages| - 1]) + (if last.Some? then [last.value.note] else [])
  }

  lemma StoredExtends(messages: seq<Raw>, m: Raw)
    ensures StoredNotes(messages + [m]) ==
      StoredNotes(messages) + (if Appended(m).Some? then [Appended(m).value.note] else [])
  {
    assert (messages + [m])[..|messages + [m]| - 1] == messages;
  }

  // ---------------------------------------------------------------- Redis lists

  /** LRANGE and LTRIM with Redis's inclusive, possibly negative indices. */
  function Range<T>(list: seq<T>, start: int, stop: int): seq<T> {
    var n := |list|;
    var from := if start < 0 then Max(n + start, 0) else start;
    var to := Min(if stop < 0 then n + stop else stop, n - 1);
    if from > to then [] else list[from..to + 1]
  }

  /** The newest first. */
  function Newest<T>(log: seq<T>, limit: nat): seq<T> {
    if log == [] || limit == 0 then [] else [log[|log| - 1]] + Newest(log[..|log| - 1], limit - 1)
  }

  lemma {:induction false} NewestLength<T>(log: seq<T>, limit: nat)
    ensures |Newest(log, limit)| == Min(|log|, limit)
  {
    if log == [] || limit == 0 {
    } else {
      NewestLength(log[..|log| - 1], limit - 1);
    }
  }

  /** Entry `i` of the newest is the one `i` back from the end of the log. */
  lemma {:induction false} NewestAt<T>(log: seq<T>, limit: nat, i: nat)
    requires i < limit && i < |log|
    ensures |Newest(log, limit)| == (if |log| < limit then |log| else limit)
    ensures Newest(log, limit)[i] == log[|log| - 1 - i]
  {
    NewestLength(log, limit);
    if i == 0 {
    } else {
      NewestAt(log[..|log| - 1], limit - 1, i - 1);
    }
  }

  lemma {:induction false} NewestPrefix<T>(log: seq<T>, limit: nat, less: nat)
    requires less <= limit
    ensures |Newest(log, limit)| == Min(|log|, limit)
    ensures Newest(log, less) == Newest(log, limit)[..Min(less, |Newest(log, limit)|)]
  {
    NewestLength(log, limit);
    if log == [] || less == 0 {
    } else {
      var last, rest := log[|log| - 1], Newest(log[..|log| - 1], limit - 1);
      NewestPrefix(log[..|log| - 1], limit - 1, less - 1);
      assert Newest(log, limit) == [last] + rest;
      assert Newest(log, less) == [last] + rest[..Min(less - 1, |rest|)] == ([last] + rest)[..Min(less, 1 + |rest|)];
    }
  }

  lemma NewestExtends<T>(log: seq<T>, x: T, limit: nat)
    requires limit >= 1
    ensures Newest(log + [x], limit) == [x] + Newest(log, limit - 1)
  {
    assert (log + [x])[..|log + [x]| - 1] == log;
  }

  type Lists = map<string, seq<Note>>

  function ListOf(lists: Lists, recipient: string): seq<Note> {
    if recipient in lists then lists[recipient] else []
  }

  /** LPUSH then LTRIM, with nothing in between. */
  function Capped(list: seq<Note>, note: Note): seq<Note> {
    Range([note] + list, 0, MAX_HISTORY_PER_RECIPIENT - 1)
  }

  /** The lists after one message has been handled. */
  function Handled(lists: Lists, raw: Raw): Lists {
    match Appended(raw)
    case None => lists
    case Some(d) => lists[d.Key() := Capped(ListOf(lists, d.Key()), d.note)]
  }

  /** LRANGE key 0 limit-1, as `list_recent` asks for it. */
  function Recent(lists: Lists, recipient: string, limit: int): seq<Note> {
    Range(ListOf(lists, recipient), 0, limit - 1)
  }

  /** The lists while none of them expires; `Feed` has EXPIRE and time. */
  class NotificationStore {
    var lists: Lists

    constructor ()
      ensures lists == map[]
    {
      lists := map[];
    }

    method Append(recipient: string, note: Note)
      modifies this
      ensures lists == old(lists)[recipient := Capped(ListOf(old(lists), recipient), note)]
    {
      var list := if recipient in lists then lists[recipient] else [];
      lists := lists[recipient := [note] + list];
      lists := lists[recipient := Range(lists[recipient], 0, MAX_HISTORY_PER_RECIPIENT - 1)];
    }

    method ListRecent(recipient: string, limit: int) returns (notes: seq<Note>)
      ensures notes == Recent(lists, recipient, limit)
    {
      notes := if recipient in lists then Range(lists[recipient], 0, limit - 1) else [];
    }
  }

  /** A trimmed push onto the newest hundred is the newest hundred of the longer log. */
  lemma PushAndTrim(log: seq<Note>, note: Note)
    ensures Capped(Newest(log, MAX_HISTORY_PER_RECIPIENT), note) == Newest(log + [note], MAX_HISTORY_PER_RECIPIENT)
  {
    NewestExtends(log, note, MAX_HISTORY_PER_RECIPIENT);
    NewestPrefix(log, MAX_HISTORY_PER_RECIPIENT, MAX_HISTORY_PER_RECIPIENT - 1);
  }

  /** Every list is the newest hundred of the messages routed to it. */
  ghost predicate HistoryOk(lists: Lists, messages: seq<Raw>) {
    forall r :: ListOf(lists, r) == Newest(RoutedTo(messages, r), MAX_HISTORY_PER_RECIPIENT)
  }

  lemma HandledKeepsHistory(lists: Lists, messages: seq<Raw>, raw: Raw)
    requires HistoryOk(lists, messages)
    ensures HistoryOk(Handled(lists, raw), messages + [raw])
  {
    forall r ensures ListOf(Handled(lists, raw), r) == Newest(RoutedTo(messages + [raw], r), MAX_HISTORY_PER_RECIPIENT) {
      RoutedExtends(messages, raw, r);
      if Appended(raw).Some? && r == Appended(raw).value.Key() {
        PushAndTrim(RoutedTo(messages, r), Appended(raw).value.note);
      }
    }
  }

  lemma NextKeepsHistory(lists: Lists, earlier: seq<Raw>, messages: seq<Raw>, i: nat)
    requires i < |messages| && HistoryOk(lists, earlier + messages[..i])
    ensures HistoryOk(Handled(lists, messages[i]), earlier + messages[..i + 1])
  {
    HandledKeepsHistory(lists, earlier + messages[..i], messages[i]);
    assert earlier + messages[..i + 1] == earlier + messages[..i] + [messages[i]];
  }

  // ---------------------------------------------------------------- the stored lists are a partition

  /** The lists of the given recipients, put together. */
  ghost function Together(lists: Lists, keys: set<string>): multiset<Note> {
    if keys == {} then multiset{}
    else var k := Pick(keys); multiset(ListOf(lists, k)) + Together(lists, keys - {k})
  }

  /** The logs of the given recipients, put together. */
  ghost function Logs(messages: seq<Raw>, keys: set<string>): multiset<Note> {
    if keys == {} then multiset{}
    else var k := Pick(keys); multiset(RoutedTo(messages, k)) + Logs(messages, keys - {k})
  }

  lemma {:induction false} LogsSplit(messages: seq<Raw>, keys: set<string>, k: string)
    requires k in keys
    ensures Logs(messages, keys) == multiset(RoutedTo(messages, k)) + Logs(messages, keys - {k})
    decreases keys
  {
    var first := Pick(keys);
    if first == k {
    } else {
      LogsSplit(messages, keys - {first}, k);
      LogsSplit(messages, keys - {k}, first);
      assert keys - {first} - {k} == keys - {k} - {first};
    }
  }

  lemma {:induction false} LogsUnmoved(messages: seq<Raw>, m: Raw, keys: set<string>)
    requires Appended(m).Some? ==> Appended(m).value.Key() !in keys
    ensures Logs(messages + [m], keys) == Logs(messages, keys)
    decreases keys
  {
    if keys == {} {
    } else {
      LogsUnmoved(messages, m, keys - {Pick(keys)});
      RoutedExtends(messages, m, Pick(keys));
    }
  }

  lemma {:induction false} NoLogs(keys: set<string>)
    ensures Logs([], keys) == multiset{}
    decreases keys
  {
    if keys == {} {
    } else {
      NoLogs(keys - {Pick(keys)});
      assert RoutedTo([], Pick(keys)) == [];
    }
  }

  /** The logs of any recipients that include everyone addressed are what was appended, each note once. */
  lemma {:induction false} LogsAreStored(messages: seq<Raw>, keys: set<string>)
    requires forall m | m in messages && Appended(m).Some? :: Appended(m).value.Key() in keys
    ensures Logs(messages, keys) == multiset(StoredNotes(messages))
  {
    if messages == [] {
      NoLogs(keys);
    } else {
      var shorter, m := messages[..|messages| - 1], messages[|messages| - 1];
      assert messages == shorter + [m];
      LogsAreStored(shorter, keys);
      StoredExtends(shorter, m);
      if Appended(m).Some? {
        var k := Appended(m).value.Key();
        assert m in messages;
        LogsSplit(messages, keys, k);
        LogsSplit(shorter, keys, k);
        LogsUnmoved(shorter, m, keys - {k});
        RoutedExtends(shorter, m, k);
      } else {
        LogsUnmoved(shorter, m, keys);
      }
    }
  }

  lemma {:induction false} DeliveredIsRouted(messages: seq<Raw>, m: Raw)
    requires m in messages && Appended(m).Some?
    ensures RoutedTo(messages, Appended(m).value.Key()) != []
  {
    if messages[|messages| - 1] == m {
    } else {
      assert m in messages[..|messages| - 1];
      DeliveredIsRouted(messages[..|messages| - 1], m);
    }
  }

  lemma {:induction false} NewestIsAll<T>(log: seq<T>, limit: nat)
    requires |log| <= limit
    ensures multiset(Newest(log, limit)) == multiset(log)
  {
    if log == [] {
    } else {
      NewestIsAll(log[..|log| - 1], limit - 1);
      assert log == log[..|log| - 1] + [log[|log| - 1]];
    }
  }

  /** The lists hold no more than the logs, and less as soon as one log is over the cap. */
  lemma {:induction false} ListsHoldLogs(lists: Lists, messages: seq<Raw>, keys: set<string>)
    requires HistoryOk(lists, messages)
    ensures |Together(lists, keys)| <= |Logs(messages, keys)|
    ensures if forall k | k in keys :: |RoutedTo(messages, k)| <= MAX_HISTORY_PER_RECIPIENT
      then Together(lists, keys) == Logs(messages, keys)
      else |Together(lists, keys)| < |Logs(messages, keys)|
    decreases keys
  {
    if keys == {} {
    } else {
      var k := Pick(keys);
      var log := RoutedTo(messages, k);
      ListsHoldLogs(lists, messages, keys - {k});
      assert ListOf(lists, k) == Newest(log, MAX_HISTORY_PER_RECIPIENT);
      NewestLength(log, MAX_HISTORY_PER_RECIPIENT);
      if |log| <= MAX_HISTORY_PER_RECIPIENT {
        NewestIsAll(log, MAX_HISTORY_PER_RECIPIENT);
        assert (forall r | r in keys :: |RoutedTo(messages, r)| <= MAX_HISTORY_PER_RECIPIENT) <==>
               (forall r | r in keys - {k} :: |RoutedTo(messages, r)| <= MAX_HISTORY_PER_RECIPIENT);
      }
    }
  }

  lemma {:induction false} NewestIsRouted<T>(log: seq<T>, limit: nat)
    ensures forall x | x in Newest(log, limit) :: x in log
  {
    if log == [] || limit == 0 {
    } else {
      NewestIsRouted(log[..|log| - 1], limit - 1);
    }
  }

  predicate AllBelong(list: seq<Note>, key: string) {
    forall note | note in list :: Belongs(note, key)
  }

  ghost predicate NoneOverCap(messages: seq<Raw>) {
    forall k :: |RoutedTo(messages, k)| <= MAX_HISTORY_PER_RECIPIENT
  }

  /** Every note is in the list it belongs in, and together they are all that was appended unless a list was capped. */
  ghost predicate Partitioned(lists: Lists, messages: seq<Raw>) {
    && (forall k :: AllBelong(ListOf(lists, k), k))
    && (Together(lists, lists.Keys) == multiset(StoredNotes(messages)) <==> NoneOverCap(messages))
  }

  lemma ListBelongs(lists: Lists, messages: seq<Raw>, k: string)
    requires HistoryOk(lists, messages)
    ensures AllBelong(ListOf(lists, k), k)
  {
    NewestIsRouted(RoutedTo(messages, k), MAX_HISTORY_PER_RECIPIENT);
    RoutedBelong(messages, k);
  }

  lemma EveryoneIsListed(lists: Lists, messages: seq<Raw>)
    requires HistoryOk(lists, messages)
    ensures forall m | m in messages && Appended(m).Some? :: Appended(m).value.Key() in lists.Keys
  {
    forall m | m in messages && Appended(m).Some? ensures Appended(m).value.Key() in lists.Keys {
      DeliveredIsRouted(messages, m);
    }
  }

  lemma TogetherIffUnderCap(lists: Lists, messages: seq<Raw>)
    requires HistoryOk(lists, messages)
    ensures Together(lists, lists.Keys) == multiset(StoredNotes(messages)) <==> NoneOverCap(messages)
  {
    EveryoneIsListed(lists, messages);
    LogsAreStored(messages, lists.Keys);
    ListsHoldLogs(lists, messages, lists.Keys);
  }

  /**
    Routing is a partition of what is stored: every stored note is in the list it belongs in, and all
    lists together are the appended notes, each exactly once, if and only if no recipient's log has
    outgrown the cap.
  */
  lemma StoredIsAPartition(lists: Lists, messages: seq<Raw>)
    requires HistoryOk(lists, messages)
    ensures Partitioned(lists, messages)
  {
    forall k ensures AllBelong(ListOf(lists, k), k) {
      ListBelongs(lists, messages, k);
    }
    TogetherIffUnderCap(lists, messages);
  }

  // ---------------------------------------------------------------- the consumer

  class EventConsumer {
    const store: NotificationStore
    const sockets: ConnectionManager<Note>
    var connected: bool

    constructor (store: NotificationStore, sockets: ConnectionManager<Note>)
      ensures this.store == store && this.sockets == sockets && !connected
    {
      this.store := store;
      this.sockets := sockets;
      connected := false;
    }

    /** The sockets a message is broadcast to; only strings are registered as recipients. */
    function Audience(raw: Raw): set<Socket>
      reads sockets
    {
      match Appended(raw)
      case Some(Delivery(Text(recipient), _)) => Of(sockets.connections, recipient)
      case _ => {}
    }

    /**
      `failing`: the sockets whose sends raise meanwhile. `raised`: the handler raised. At most one list
      changes, the one the note's content says it belongs in, which gains it at the head.
    */
    method HandleMessage(raw: Raw, failing: set<Socket>) returns (raised: bool)
      requires NoEmptySet(sockets.connections)
      modifies store, sockets
      ensures NoEmptySet(sockets.connections)
      ensures raised <==> WrongShape(raw)
      ensures store.lists == Handled(old(store.lists), raw)
      ensures match Appended(raw)
        case None => store.lists == old(store.lists)
        case Some(d) =>
          var before := ListOf(old(store.lists), d.Key());
          && Belongs(d.note, d.Key())
          && store.lists ==
             old(store.lists)[d.Key() := [d.note] + before[..Min(|before|, MAX_HISTORY_PER_RECIPIENT - 1)]]
      ensures sockets.connections ==
        match Appended(raw)
        case Some(Delivery(Text(recipient), _)) => Without(old(sockets.connections), recipient, failing)
        case _ => old(sockets.connections)
      ensures forall s ::
        sockets.Received(s) == old(sockets.Received(s)) +
          (if s in old(Audience(raw)) && s !in failing then [Appended(raw).value.note] else [])
    {
      RaisesIff(raw);
      if raw.Unparseable? {
        return false;
      }
      if !raw.json.Object? {
        return true;
      }
      var eventType := raw.json.Get("event_type", Text("unknown"));
      var data := raw.json.Get("data", NO_DATA);
      if !eventType.Text? {
        return true;
      }
      assert "unknown"[0] == 'u' && "order."[0] == 'o';
      var recipient := RecipientFor(eventType.text, data);
      if recipient.None? {
        return true;
      }
      var note := Note(eventType.text, data);
      AppendedBelongs(raw);
      ghost var before := ListOf(store.lists, recipient.value.Formatted());
      assert Capped(before, note) == [note] + before[..Min(|before|, MAX_HISTORY_PER_RECIPIENT - 1)];
      store.Append(recipient.value.Formatted(), note);
      if !recipient.value.Hashable() {
        return true;
      }
      if recipient.value.Text? {
        sockets.Broadcast(recipient.value.text, note, failing);
      }
      return false;
    }

    /**
      The consumer loop over the messages it will be given: every recipient's history is the newest
      hundred of all messages routed to it, the earlier ones included, up to the first message of a
      wrong shape, itself included; the loop ends there.
    */
    method Run(ghost earlier: seq<Raw>, messages: seq<Raw>, failing: set<Socket>)
      requires NoEmptySet(sockets.connections)
      requires HistoryOk(store.lists, earlier)
      modifies this`connected, store, sockets
      ensures HistoryOk(store.lists, earlier + messages[..Taken(messages)])
      ensures Partitioned(store.lists, earlier + messages[..Taken(messages)])
      ensures !connected
    {
      connected := true;
      assert earlier + messages[..0] == earlier;
      var i := 0;
      var raised := false;
      while i < |messages| && !raised
        invariant 0 <= i <= |messages|
        invariant NoEmptySet(sockets.connections)
        invariant TakenSoFar(messages, i, raised)
        invariant HistoryOk(store.lists, earlier + messages[..i])
        decreases |messages| - i
      {
        ghost var before := store.lists;
        raised := HandleMessage(messages[i], failing);
        NextKeepsHistory(before, earlier, messages, i);
        TakesOneMore(messages, i, raised);
        i := i + 1;
      }
      TakenAll(messages, i, raised);
      StoredIsAPartition(store.lists, earlier + messages[..i]);
      connected := false;
    }
  }
}
