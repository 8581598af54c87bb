/**
  The socket registry (app/ws/manager.py): sets of sockets per recipient, changed across awaits.
  A broadcast works from a snapshot; between its sends other coroutines connect, disconnect and
  broadcast. The lock-held sections contain no await, so each is one step.
*/
module Sockets {
  import opened Common

  datatype Socket = Socket(id: int)  // a WebSocket object; only its identity matters

  type Registry = map<string, set<Socket>>

  function Of(reg: Registry, recipient: string): set<Socket> {
    if recipient in reg then reg[recipient] else {}
  }

  function Joined(reg: Registry, recipient: string, socket: Socket): Registry {
    reg[recipient := Of(reg, recipient) + {socket}]
  }

  /** Discards the sockets, and the recipient with them when none is left. */
  function Without(reg: Registry, recipient: string, sockets: set<Socket>): Registry {
    var left := Of(reg, recipient) - sockets;
    if left == {} then reg - {recipient} else reg[recipient := left]
  }

  predicate NoEmptySet(reg: Registry) {
    forall recipient | recipient in reg :: reg[recipient] != {}
  }

  lemma WithoutNobody(reg: Registry, recipient: string)
    requires NoEmptySet(reg)
    ensures Without(reg, recipient, {}) == reg
  {
    assert Of(reg, recipient) - {} == Of(reg, recipient);
  }

  lemma WithoutTwice(reg: Registry, recipient: string, a: set<Socket>, b: set<Socket>)
    ensures Without(Without(reg, recipient, a), recipient, b) == Without(reg, recipient, a + b)
  {
    var left := Of(reg, recipient) - a;
    assert Of(Without(reg, recipient, a), recipient) == left;
    assert left - b == Of(reg, recipient) - (a + b);
  }

  lemma WithoutAgree(reg: Registry, recipient: string, a: set<Socket>, b: set<Socket>)
    requires Of(reg, recipient) * a == Of(reg, recipient) * b
    ensures Without(reg, recipient, a) == Without(reg, recipient, b)
  {
    assert Of(reg, recipient) - a == Of(reg, recipient) - (Of(reg, recipient) * a);
    assert Of(reg, recipient) - b == Of(reg, recipient) - (Of(reg, recipient) * b);
  }

  class ConnectionManager<Note> {
    var connections: Registry
    var inbox: map<Socket, seq<Note>>  // what each socket has been sent

    constructor ()
      ensures connections == map[] && inbox == map[]
    {
      connections := map[];
      inbox := map[];
    }

    function Received(socket: Socket): seq<Note>
      reads this`inbox
    {
      if socket in inbox then inbox[socket] else []
    }

    method Connect(recipient: string, socket: Socket)
      modifies this`connections
      ensures connections == Joined(old(connections), recipient, socket)
    {
      if recipient !in connections {
        connections := connections[recipient := {}];
      }
      connections := connections[recipient := connections[recipient] + {socket}];
    }

    method Disconnect(recipient: string, socket: Socket)
      modifies this`connections
      ensures connections == Without(old(connections), recipient, {socket})
    {
      if recipient !in connections {
        connections := connections[recipient := {}];
      }
      connections := connections[recipient := connections[recipient] - {socket}];
      if connections[recipient] == {} {
        connections := connections - {recipient};
      }
    }

    method SendJson(socket: Socket, message: Note)
      modifies this`inbox
      ensures forall s :: Received(s) == old(Received(s)) + (if s == socket then [message] else [])
    {
      inbox := inbox[socket := (if socket in inbox then inbox[socket] else []) + [message]];
    }

    /** `failing`: the sockets whose `send_json` raises. Every other snapshot socket gets the message once. */
    method Broadcast(recipient: string, message: Note, failing: set<Socket>)
      requires NoEmptySet(connections)
      modifies this
      ensures var sockets := Of(old(connections), recipient);
        && (forall s :: Received(s) == old(Received(s)) + (if s in sockets && s !in failing then [message] else []))
        && connections == Without(old(connections), recipient, failing)
      ensures NoEmptySet(connections)
    {
      var sockets := if recipient in connections then connections[recipient] else {};
      var pending := sockets;
      ghost var dropped: set<Socket> := {};
      WithoutNobody(connections, recipient);
      while pending != {}
        invariant pending <= sockets
        invariant forall s ::
          (Received(s) == old(Received(s)) + (if s in sockets && s !in pending && s !in failing then [message] else []))
        invariant dropped == (sockets - pending) * failing
        invariant connections == Without(old(connections), recipient, dropped)
        decreases pending
      {
        var socket :| socket in pending;
        pending := pending - {socket};
        if socket in failing {
          Disconnect(recipient, socket);
          WithoutTwice(old(connections), recipient, dropped, {socket});
          dropped := dropped + {socket};
        } else {
          SendJson(socket, message);
        }
      }
      WithoutAgree(old(connections), recipient, dropped, failing);
    }
  }

  // ---------------------------------------------------------------- await interleavings

  type CastId = int

  /** A broadcast under way: its snapshot, split into not yet sent, sent, and failed. */
  datatype Cast = Cast(
    recipient: string,
    snapshot: set<Socket>,
    pending: set<Socket>,
    sent: set<Socket>,
    failed: set<Socket>,
    dropping: Option<Socket>)  // failed, and waiting for the lock to be dropped

  datatype Hub = Hub(connections: Registry, casts: map<CastId, Cast>)

  datatype Act =
    | Connect(recipient: string, socket: Socket)
    | Disconnect(recipient: string, socket: Socket)
    | Start(b: CastId, recipient: string)
    | SendOk(b: CastId, socket: Socket)
    | SendFail(b: CastId, socket: Socket)
    | DropFailed(b: CastId)

  predicate Can(h: Hub, a: Act) {
    match a
    case Connect(_, _) => true
    case Disconnect(_, _) => true
    case Start(b, _) => b !in h.casts
    case SendOk(b, s) => b in h.casts && h.casts[b].dropping.None? && s in h.casts[b].pending
    case SendFail(b, s) => b in h.casts && h.casts[b].dropping.None? && s in h.casts[b].pending
    case DropFailed(b) => b in h.casts && h.casts[b].dropping.Some?
  }

  function Do(h: Hub, a: Act): Hub
    requires Can(h, a)
  {
    match a
    case Connect(r, s) => h.(connections := Joined(h.connections, r, s))
    case Disconnect(r, s) => h.(connections := Without(h.connections, r, {s}))
    case Start(b, r) => h.(casts := h.casts[b := Cast(r, Of(h.connections, r), Of(h.connections, r), {}, {}, None)])
    case SendOk(b, s) =>
      var c := h.casts[b];
      h.(casts := h.casts[b := c.(pending := c.pending - {s}, sent := c.sent + {s})])
    case SendFail(b, s) =>
      var c := h.casts[b];
      h.(casts := h.casts[b := c.(pending := c.pending - {s}, failed := c.failed + {s}, dropping := Some(s))])
    case DropFailed(b) =>
      var c := h.casts[b];
      h.(connections := Without(h.connections, c.recipient, {c.dropping.value}), casts := h.casts[b := c.(dropping := None)])
  }

  const NOBODY := Hub(map[], map[])

  ghost predicate ValidActs(acts: seq<Act>)
    decreases |acts|, 0
  {
    acts == [] || (ValidActs(acts[..|acts| - 1]) && Can(HubAfter(acts[..|acts| - 1]), acts[|acts| - 1]))
  }

  ghost function HubAfter(acts: seq<Act>): Hub
    requires ValidActs(acts)
    decreases |acts|, 1
  {
    if acts == [] then NOBODY else Do(HubAfter(acts[..|acts| - 1]), acts[|acts| - 1])
  }

  // ---------------------------------------------------------------- what the actions alone say

  /** Whom broadcast `b` is for. */
  function RecipientOf(acts: seq<Act>, b: CastId): Option<string> {
    if acts == [] then None
    else
      match acts[|acts| - 1]
      case Start(c, r) => if c == b then Some(r) else RecipientOf(acts[..|acts| - 1], b)
      case _ => RecipientOf(acts[..|acts| - 1], b)
  }

  /** The socket whose send failed last in broadcast `b`. */
  function LastFailed(acts: seq<Act>, b: CastId): Option<Socket> {
    if acts == [] then None
    else
      match acts[|acts| - 1]
      case SendFail(c, s) => if c == b then Some(s) else LastFailed(acts[..|acts| - 1], b)
      case _ => LastFailed(acts[..|acts| - 1], b)
  }

  /** Who is registered: connects, minus disconnects, minus the sockets whose sends failed. */
  function Registered(acts: seq<Act>, recipient: string): set<Socket> {
    if acts == [] then {}
    else
      var shorter := acts[..|acts| - 1];
      var before := Registered(shorter, recipient);
      match acts[|acts| - 1]
      case Connect(r, s) => if r == recipient then before + {s} else before
      case Disconnect(r, s) => if r == recipient then before - {s} else before
      case DropFailed(b) =>
        if RecipientOf(shorter, b) == Some(recipient) && LastFailed(shorter, b).Some?
        then before - {LastFailed(shorter, b).value} else before
      case _ => before
  }

  /** Who was registered for its recipient when broadcast `b` started. */
  function SnapshotOf(acts: seq<Act>, b: CastId): set<Socket> {
    if acts == [] then {}
    else
      match acts[|acts| - 1]
      case Start(c, r) => if c == b then Registered(acts[..|acts| - 1], r) else SnapshotOf(acts[..|acts| - 1], b)
      case _ => SnapshotOf(acts[..|acts| - 1], b)
  }

  /** Broadcast `b` dropped the socket, at a point at which that socket was the last whose send had failed. */
  predicate Dropped(acts: seq<Act>, b: CastId, socket: Socket) {
    exists i :: 0 <= i < |acts| && DropsAt(acts, i, b, socket)
  }

  predicate DropsAt(acts: seq<Act>, i: nat, b: CastId, socket: Socket)
    requires i < |acts|
  {
    acts[i] == DropFailed(b) && LastFailed(acts[..i], b) == Some(socket)
  }

  ghost predicate CastOk(acts: seq<Act>, b: CastId, c: Cast) {
    && RecipientOf(acts, b) == Some(c.recipient)
    && c.snapshot == SnapshotOf(acts, b)
    && c.pending + c.sent + c.failed == c.snapshot
    && c.pending !! c.sent !! c.failed
    && (c.dropping.Some? ==> c.dropping.value in c.failed && LastFailed(acts, b) == c.dropping)
    && (forall s | s in c.sent :: SendOk(b, s) in acts)
    && (forall s | s in c.failed :: SendFail(b, s) in acts && (c.dropping == Some(s) || Dropped(acts, b, s)))
  }

  predicate IsSend(a: Act) {
    a.SendOk? || a.SendFail?
  }

  /** No broadcast sends to a socket twice. */
  ghost predicate SendsOnce(acts: seq<Act>) {
    forall i, j | 0 <= i < j < |acts| && IsSend(acts[i]) && IsSend(acts[j]) && acts[i].b == acts[j].b ::
      acts[i].socket != acts[j].socket
  }

  ghost predicate SendsRecorded(acts: seq<Act>, h: Hub) {
    forall a | a in acts && IsSend(a) :: a.b in h.casts && a.socket in h.casts[a.b].sent + h.casts[a.b].failed
  }

  ghost predicate HubOk(acts: seq<Act>, h: Hub) {
    && NoEmptySet(h.connections)
    && (forall recipient :: Of(h.connections, recipient) == Registered(acts, recipient))
    && (forall b :: b in h.casts <==> RecipientOf(acts, b).Some?)
    && (forall b | b in h.casts :: CastOk(acts, b, h.casts[b]))
    && SendsOnce(acts) && SendsRecorded(acts, h)
  }

  lemma DroppedExtends(acts: seq<Act>, a: Act, b: CastId, socket: Socket)
    ensures Dropped(acts, b, socket) ==> Dropped(acts + [a], b, socket)
    ensures a == DropFailed(b) && LastFailed(acts, b) == Some(socket) ==> Dropped(acts + [a], b, socket)
  {
    var all := acts + [a];
    assert all[..|acts|] == acts;
    if a == DropFailed(b) && LastFailed(acts, b) == Some(socket) {
      assert DropsAt(all, |acts|, b, socket);
    }
    if Dropped(acts, b, socket) {
      var i :| 0 <= i < |acts| && DropsAt(acts, i, b, socket);
      assert all[..i] == acts[..i];
      assert DropsAt(all, i, b, socket);
    }
  }

  lemma ActKeepsCast(acts: seq<Act>, h: Hub, a: Act, b: CastId)
    requires HubOk(acts, h) && Can(h, a) && b in Do(h, a).casts
    ensures CastOk(acts + [a], b, Do(h, a).casts[b])
  {
    var all := acts + [a];
    assert all[..|all| - 1] == acts;
    var c' := Do(h, a).casts[b];
    forall s | s in c'.failed ensures SendFail(b, s) in all && (c'.dropping == Some(s) || Dropped(all, b, s)) {
      DroppedExtends(acts, a, b, s);
    }
    assert forall x | x in acts :: x in all;
    assert a in all;
  }

  lemma ActKeepsHub(acts: seq<Act>, h: Hub, a: Act)
    requires HubOk(acts, h) && Can(h, a)
    ensures HubOk(acts + [a], Do(h, a))
  {
    assert (acts + [a])[..|acts + [a]| - 1] == acts;
    forall b | b in Do(h, a).casts ensures CastOk(acts + [a], b, Do(h, a).casts[b]) {
      ActKeepsCast(acts, h, a, b);
    }
    SendsStayOnce(acts, h, a);
  }

  lemma SendsStayOnce(acts: seq<Act>, h: Hub, a: Act)
    requires HubOk(acts, h) && Can(h, a)
    ensures SendsOnce(acts + [a]) && SendsRecorded(acts + [a], Do(h, a))
  {
    if IsSend(a) {
      assert CastOk(acts, a.b, h.casts[a.b]);
      forall i | 0 <= i < |acts| && IsSend(acts[i]) && acts[i].b == a.b ensures acts[i].socket != a.socket {
        assert acts[i] in acts;
      }
    }
  }

  /**
    Under every interleaving the registry is what the actions say: connects minus disconnects and failed
    sends, with no recipient left mapped to an empty set; and each broadcast works from the sockets
    registered when it started, sends once to each of those and to no other.
  */
  lemma {:induction false} RegistryIsReplayed(acts: seq<Act>)
    requires ValidActs(acts)
    ensures HubOk(acts, HubAfter(acts))
  {
    if acts == [] {
    } else {
      RegistryIsReplayed(acts[..|acts| - 1]);
      ActKeepsHub(acts[..|acts| - 1], HubAfter(acts[..|acts| - 1]), acts[|acts| - 1]);
      assert acts == acts[..|acts| - 1] + [acts[|acts| - 1]];
    }
  }

  /**
    A broadcast that is over has sent to every socket of its snapshot, or has tried to, and then dropped
    that socket from the registry.
  */
  lemma FinishedBroadcast(acts: seq<Act>, b: CastId, socket: Socket)
    requires ValidActs(acts) && b in HubAfter(acts).casts
    requires HubAfter(acts).casts[b].pending == {} && HubAfter(acts).casts[b].dropping.None?
    requires socket in SnapshotOf(acts, b)
    ensures SendOk(b, socket) in acts || (SendFail(b, socket) in acts && Dropped(acts, b, socket))
  {
    RegistryIsReplayed(acts);
    assert CastOk(acts, b, HubAfter(acts).casts[b]);
  }

  /** However far a broadcast has got, it can be brought to its end, whichever of its sends still fail. */
  lemma {:induction false} BroadcastCanFinish(acts: seq<Act>, b: CastId, failing: set<Socket>) returns (full: seq<Act>)
    requires ValidActs(acts) && b in HubAfter(acts).casts
    ensures ValidActs(full) && acts <= full && b in HubAfter(full).casts
    ensures HubAfter(full).casts[b].pending == {} && HubAfter(full).casts[b].dropping.None?
    ensures forall s | s in HubAfter(acts).casts[b].pending ::
      (if s in failing then SendFail(b, s) else SendOk(b, s)) in full
    decreases HubAfter(acts).casts[b].pending, HubAfter(acts).casts[b].dropping.Some?
  {
    var c := HubAfter(acts).casts[b];
    if c.dropping.None? && c.pending == {} {
      full := acts;
    } else {
      var a := if c.dropping.Some? then DropFailed(b)
               else var s :| s in c.pending; if s in failing then SendFail(b, s) else SendOk(b, s);
      assert (acts + [a])[..|acts|] == acts && (acts + [a])[|acts|] == a;
      full := BroadcastCanFinish(acts + [a], b, failing);
      assert a in full by {
        assert full[|acts|] == a;
      }
    }
  }

  /** A step of a broadcast leaves other recipients, and sockets outside its snapshot, alone. */
  lemma BroadcastTouchesOnlyItsSnapshot(acts: seq<Act>, a: Act, recipient: string, socket: Socket)
    requires ValidActs(acts) && Can(HubAfter(acts), a) && (a.SendOk? || a.SendFail? || a.DropFailed?)
    requires RecipientOf(acts, a.b) != Some(recipient) || socket !in SnapshotOf(acts, a.b)
    ensures socket in Of(Do(HubAfter(acts), a).connections, recipient) <==> socket in Registered(acts, recipient)
  {
    RegistryIsReplayed(acts);
    assert CastOk(acts, a.b, HubAfter(acts).casts[a.b]);
  }
}
