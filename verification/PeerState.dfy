/** The fields of Peer, Connection and the pending objects, as a value, and the atomic updates the code
    makes to them: one function per region under the peer's lock and one per write outside it. */
module PeerState {
  import opened RakTypes
  import opened SyncMailbox

  // Objects are named by their order of creation.
  type ConnId = nat
  type PendId = nat
  type PingId = nat

  datatype Conn = Conn(
    guid: Guid,
    closed: bool,
    box: Box,
    // history
    origin: Option<PendId>,     // the connect it was created for, None for an incoming connection
    since: nat,                 // how many user packets had been routed when it was registered
    offered: seq<Bytes>,        // user packets looked up for it
    delivered: seq<Bytes>,      // messages recv has returned
    refused: bool,              // a put on its mailbox was refused
    late: nat)                  // puts accepted after its mailbox was closed

  datatype Pending = Pending(
    key: Address,
    event: bool,
    connection: Option<ConnId>,
    reason: Option<ConnectFailure>,
    // history
    caller: nat,                // the thread that waits for it
    timedOut: bool)             // its connect has raised TimeoutError
  {
    predicate Blank() {
      connection.None? && reason.None?
    }

    /** Exactly one of connection and reason is set. */
    predicate Resolved() {
      connection.Some? <==> reason.None?
    }
  }

  datatype PendingPing = PendingPing(key: Address, event: bool, pong: Option<Pong>)

  datatype Shared = Shared(
    maxQueue: Option<int>,
    closed: bool,
    connections: map<Guid, ConnId>,
    pendingConnects: map<Address, PendId>,
    pendingPings: map<Address, PingId>,
    conns: seq<Conn>,
    pends: seq<Pending>,
    pings: seq<PendingPing>,
    acceptQueue: seq<Option<ConnId>>,
    // history
    routed: seq<(Guid, Bytes)>, // user packets routed so far
    arrived: seq<ConnId>,       // incoming connections put on the accept queue
    accepted: seq<ConnId>)      // connections accept has returned

  function Fresh(maxQueue: Option<int>): Shared {
    Shared(maxQueue, false, map[], map[], map[], [], [], [], [], [], [], [])
  }

  predicate TableIds(s: Shared) {
    && (forall g :: g in s.connections ==> s.connections[g] < |s.conns|)
    && (forall k :: k in s.pendingConnects ==> s.pendingConnects[k] < |s.pends|)
    && (forall k :: k in s.pendingPings ==> s.pendingPings[k] < |s.pings|)
  }

  predicate IsConn(s: Shared, c: ConnId) { c < |s.conns| }
  predicate IsPend(s: Shared, p: PendId) { p < |s.pends| }
  predicate IsPing(s: Shared, q: PingId) { q < |s.pings| }

  predicate Registered(s: Shared, c: ConnId)
    requires IsConn(s, c)
  {
    s.conns[c].guid in s.connections && s.connections[s.conns[c].guid] == c
  }

  // ---- Regions under the peer's lock ----

  /** A new Connection enters the table, over whatever was registered for its guid. */
  function Register(s: Shared, g: Guid, origin: Option<PendId>): Shared {
    s.(conns := s.conns + [Conn(g, false, Box([], None, s.maxQueue), origin, |s.routed|, [], [], false, 0)],
       connections := s.connections[g := |s.conns|])
  }

  /** pop(guid, None) */
  function Evict(s: Shared, g: Guid): Shared {
    s.(connections := s.connections - {g})
  }

  /** get(guid) for a user packet; history records the packet, and that it was looked up. */
  function LookUp(s: Shared, g: Guid, d: Bytes): Shared
    requires TableIds(s)
  {
    var s' := s.(routed := s.routed + [(g, d)]);
    if g in s.connections then
      var c := s.connections[g];
      s'.(conns := s.conns[c := s.conns[c].(offered := s.conns[c].offered + [d])])
    else s'
  }

  function AddPending(s: Shared, k: Address, caller: nat): Shared {
    s.(pends := s.pends + [Pending(k, false, None, None, caller, false)],
       pendingConnects := s.pendingConnects[k := |s.pends|])
  }

  function PopPending(s: Shared, k: Address): Shared {
    s.(pendingConnects := s.pendingConnects - {k})
  }

  function AddPing(s: Shared, k: Address): Shared {
    s.(pings := s.pings + [PendingPing(k, false, None)], pendingPings := s.pendingPings[k := |s.pings|])
  }

  function PopPing(s: Shared, k: Address): Shared {
    s.(pendingPings := s.pendingPings - {k})
  }

  /** _begin_close for the caller that finds the peer open. */
  function BeginClose(s: Shared): Shared {
    s.(closed := true, connections := map[], pendingConnects := map[], pendingPings := map[])
  }

  // ---- Writes outside the lock ----

  /** connection._closed = True */
  function MarkClosed(s: Shared, c: ConnId): Shared
    requires IsConn(s, c)
  {
    s.(conns := s.conns[c := s.conns[c].(closed := true)])
  }

  /** connection._mailbox.close(...) */
  function Seal(s: Shared, c: ConnId, r: CloseReason): Shared
    requires IsConn(s, c)
  {
    s.(conns := s.conns[c := s.conns[c].(box := s.conns[c].box.Close(r))])
  }

  /** connection._mailbox.put(data) */
  function Offer(s: Shared, c: ConnId, d: Bytes): Shared
    requires IsConn(s, c)
  {
    var conn := s.conns[c];
    s.(conns := s.conns[c :=
      if conn.box.Full() then conn.(refused := true)
      else conn.(box := conn.box.Put(d), late := if conn.box.exc.Some? then conn.late + 1 else conn.late)])
  }

  /** connection.recv() returning a message */
  function Receive(s: Shared, c: ConnId): Shared
    requires IsConn(s, c) && s.conns[c].box.items != []
  {
    var conn := s.conns[c];
    s.(conns := s.conns[c := conn.(box := conn.box.Rest(), delivered := conn.delivered + [conn.box.items[0]])])
  }

  /** pending.connection = connection */
  function Attach(s: Shared, p: PendId, c: ConnId): Shared
    requires IsPend(s, p)
  {
    s.(pends := s.pends[p := s.pends[p].(connection := Some(c))])
  }

  /** pending.reason = reason */
  function Explain(s: Shared, p: PendId, f: ConnectFailure): Shared
    requires IsPend(s, p)
  {
    s.(pends := s.pends[p := s.pends[p].(reason := Some(f))])
  }

  /** pending.event.set() */
  function Signal(s: Shared, p: PendId): Shared
    requires IsPend(s, p)
  {
    s.(pends := s.pends[p := s.pends[p].(event := true)])
  }

  /** history: connect raises TimeoutError */
  function TimeOut(s: Shared, p: PendId): Shared
    requires IsPend(s, p)
  {
    s.(pends := s.pends[p := s.pends[p].(timedOut := true)])
  }

  function AttachPong(s: Shared, q: PingId, pong: Pong): Shared
    requires IsPing(s, q)
  {
    s.(pings := s.pings[q := s.pings[q].(pong := Some(pong))])
  }

  function Ring(s: Shared, q: PingId): Shared
    requires IsPing(s, q)
  {
    s.(pings := s.pings[q := s.pings[q].(event := true)])
  }

  /** _accept_queue.put(connection) */
  function Enqueue(s: Shared, c: ConnId): Shared {
    s.(acceptQueue := s.acceptQueue + [Some(c)], arrived := s.arrived + [c])
  }

  /** _accept_queue.put(None) */
  function PostToken(s: Shared): Shared {
    s.(acceptQueue := s.acceptQueue + [None])
  }

  /** _accept_queue.get() */
  function Dequeue(s: Shared): Shared
    requires s.acceptQueue != []
  {
    s.(acceptQueue := s.acceptQueue[1..],
       accepted := if s.acceptQueue[0].Some? then s.accepted + [s.acceptQueue[0].value] else s.accepted)
  }
}
