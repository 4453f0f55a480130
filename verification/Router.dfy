/** The packet dispatcher: Router.route as a total map from packets to sink callbacks. */
module Router {
  import opened RakTypes

  datatype Packet = Packet(address: Address, guid: Guid, data: Bytes)

  /** The message id numbers. RakNet assigns them; the router only needs them to be distinct
      and to lie below the first user id. */
  datatype Ids = Ids(
    userPacketEnum: Byte,
    newIncomingConnection: Byte,
    connectionRequestAccepted: Byte,
    disconnectionNotification: Byte,
    connectionLost: Byte,
    unconnectedPong: Byte,
    failures: map<Byte, ConnectFailure>)
  {
    /** CONNECT_FAILURES: the numbers of the seven failure ids. */
    function ConnectFailures(): set<Byte> {
      failures.Keys
    }

    function Control(): seq<Byte> {
      [newIncomingConnection, connectionRequestAccepted, disconnectionNotification, connectionLost, unconnectedPong]
    }

    ghost predicate Valid() {
      && (forall f: ConnectFailure :: f in failures.Values)
      && (forall m, n :: m in failures && n in failures && failures[m] == failures[n] ==> m == n)
      && (forall i, j :: 0 <= i < j < 5 ==> Control()[i] != Control()[j])
      && (forall i :: 0 <= i < 5 ==> Control()[i] < userPacketEnum && Control()[i] !in ConnectFailures())
      && (forall m :: m in failures ==> m < userPacketEnum)
    }

    /** The number of a failure id. */
    ghost function NumberOf(f: ConnectFailure): (m: Byte)
      requires Valid()
      ensures m in failures && failures[m] == f
    {
      assert f in failures.Values;
      var m :| m in failures && failures[m] == f;
      m
    }
  }

  /** Router.route: which callback a packet leads to, if any. */
  function Route(ids: Ids, packet: Packet): Option<Event> {
    if packet.data == [] then None
    else
      var mid := packet.data[0];
      if mid >= ids.userPacketEnum then Some(Message(packet.guid, packet.data))
      else if mid == ids.newIncomingConnection then Some(IncomingConnection(packet.address, packet.guid))
      else if mid == ids.connectionRequestAccepted then Some(ConnectSucceeded(packet.address, packet.guid))
      else if mid in ids.ConnectFailures() then Some(ConnectFailed(packet.address, ids.failures[mid]))
      else if mid == ids.disconnectionNotification then Some(Disconnected(packet.guid, true))
      else if mid == ids.connectionLost then Some(Disconnected(packet.guid, false))
      else if mid == ids.unconnectedPong then
        Some(PongReceived(packet.address, packet.guid, if |packet.data| < 5 then [] else packet.data[5..]))
      else None
  }

  /** A packet that carries the given callback; an independent inverse of the dispatcher. */
  ghost function Encode(ids: Ids, e: Event): Packet
    requires ids.Valid()
  {
    match e
    case IncomingConnection(a, g) => Packet(a, g, [ids.newIncomingConnection])
    case ConnectSucceeded(a, g) => Packet(a, g, [ids.connectionRequestAccepted])
    case ConnectFailed(a, f) => Packet(a, 0, [ids.NumberOf(f)])
    case Message(g, d) => Packet(0, g, d)
    case Disconnected(g, true) => Packet(0, g, [ids.disconnectionNotification])
    case Disconnected(g, false) => Packet(0, g, [ids.connectionLost])
    case PongReceived(a, g, d) => Packet(a, g, [ids.unconnectedPong, 0, 0, 0, 0] + d)
  }

  /** What the sink may be handed: a message always starts with a user id. */
  predicate Deliverable(ids: Ids, e: Event) {
    e.Message? ==> e.data != [] && e.data[0] >= ids.userPacketEnum
  }

  /** Every deliverable callback has a packet that is routed to exactly that callback. */
  lemma RouteEncode(ids: Ids, e: Event)
    requires ids.Valid() && Deliverable(ids, e)
    ensures Route(ids, Encode(ids, e)) == Some(e)
  {
    var c := ids.Control();
    assert c[0] != c[1] && c[0] != c[2] && c[0] != c[3] && c[0] != c[4] && c[1] != c[2] && c[1] != c[3]
        && c[1] != c[4] && c[2] != c[3] && c[2] != c[4] && c[3] != c[4];
    assert c[0] < ids.userPacketEnum && c[1] < ids.userPacketEnum && c[2] < ids.userPacketEnum
        && c[3] < ids.userPacketEnum && c[4] < ids.userPacketEnum;
    if e.ConnectFailed? {
      assert c[0] !in ids.ConnectFailures() && c[1] !in ids.ConnectFailures();
    } else if e.PongReceived? {
      assert Encode(ids, e).data[5..] == e.data;
    }
  }

  /** Only deliverable callbacks are ever made, each with the packet's own address, guid and bytes;
      and exactly the packets with an empty body or an unlisted low id are dropped. */
  lemma RouteIsExact(ids: Ids, p: Packet)
    requires ids.Valid()
    ensures Route(ids, p).None? <==>
            p.data == [] || (p.data[0] < ids.userPacketEnum && p.data[0] !in ids.Control()
                             && p.data[0] !in ids.ConnectFailures())
    ensures Route(ids, p).Some? ==> var e := Route(ids, p).value;
            && Deliverable(ids, e)
            && (e.Message? ==> e == Message(p.guid, p.data))
            && (e.Disconnected? || e.IncomingConnection? || e.ConnectSucceeded? || e.PongReceived? ==> e.guid == p.guid)
            && (e.IncomingConnection? || e.ConnectSucceeded? || e.ConnectFailed? || e.PongReceived? ==>
                  e.address == p.address)
            && (e.ConnectFailed? ==> p.data[0] in ids.failures && ids.failures[p.data[0]] == e.failure)
  {
    var c := ids.Control();
    assert c[0] < ids.userPacketEnum && c[1] < ids.userPacketEnum && c[2] < ids.userPacketEnum
        && c[3] < ids.userPacketEnum && c[4] < ids.userPacketEnum;
    assert forall m: Byte :: m in c <==> m == c[0] || m == c[1] || m == c[2] || m == c[3] || m == c[4];
  }

  /** A pong carries what follows its id and its four time bytes, whatever these are; a pong that is too short
      for them carries nothing. */
  lemma RoutePong(ids: Ids, a: Address, g: Guid, time: Bytes, d: Bytes)
    requires ids.Valid() && |time| == 4
    ensures Route(ids, Packet(a, g, [ids.unconnectedPong] + time + d)) == Some(PongReceived(a, g, d))
    ensures forall n: nat :: n < 4 ==>
              Route(ids, Packet(a, g, [ids.unconnectedPong] + time[..n])) == Some(PongReceived(a, g, []))
  {
    var p := [ids.unconnectedPong] + time + d;
    assert p[0] == ids.unconnectedPong && p[5..] == d;
    ControlDistinct(ids);
  }

  lemma ControlDistinct(ids: Ids)
    requires ids.Valid()
    ensures ids.newIncomingConnection != ids.connectionRequestAccepted
    ensures ids.disconnectionNotification != ids.newIncomingConnection
    ensures ids.disconnectionNotification != ids.connectionRequestAccepted
    ensures ids.connectionLost != ids.newIncomingConnection && ids.connectionLost != ids.connectionRequestAccepted
    ensures ids.connectionLost != ids.disconnectionNotification
    ensures ids.unconnectedPong != ids.newIncomingConnection && ids.unconnectedPong != ids.connectionRequestAccepted
    ensures ids.unconnectedPong != ids.disconnectionNotification && ids.unconnectedPong != ids.connectionLost
    ensures forall m :: m in ids.Control() ==> m < ids.userPacketEnum && m !in ids.failures
    ensures ids.newIncomingConnection in ids.Control() && ids.connectionRequestAccepted in ids.Control()
    ensures ids.disconnectionNotification in ids.Control() && ids.connectionLost in ids.Control()
    ensures ids.unconnectedPong in ids.Control()
  {
    var c := ids.Control();
    assert c[0] != c[1] && c[0] != c[2] && c[0] != c[3] && c[0] != c[4] && c[1] != c[2] && c[1] != c[3]
        && c[1] != c[4] && c[2] != c[3] && c[2] != c[4] && c[3] != c[4];
    assert c[0] in c && c[1] in c && c[2] in c && c[3] in c && c[4] in c;
    forall m | m in c ensures m < ids.userPacketEnum && m !in ids.failures {
      var i :| 0 <= i < |c| && c[i] == m;
      assert c[i] < ids.userPacketEnum && c[i] !in ids.ConnectFailures();
    }
  }

  /** Of a control or failure packet only the id matters, whatever bytes follow it: each id leads to its own
      callback. */
  lemma RouteById(ids: Ids, a: Address, g: Guid, id: Byte, rest: Bytes)
    requires ids.Valid()
    ensures var e := Route(ids, Packet(a, g, [id] + rest));
            && (id >= ids.userPacketEnum ==> e == Some(Message(g, [id] + rest)))
            && (id == ids.newIncomingConnection ==> e == Some(IncomingConnection(a, g)))
            && (id == ids.connectionRequestAccepted ==> e == Some(ConnectSucceeded(a, g)))
            && (id in ids.failures ==> e == Some(ConnectFailed(a, ids.failures[id])))
            && (id == ids.disconnectionNotification ==> e == Some(Disconnected(g, true)))
            && (id == ids.connectionLost ==> e == Some(Disconnected(g, false)))
  {
    ControlDistinct(ids);
    assert ([id] + rest)[0] == id;
  }
}
