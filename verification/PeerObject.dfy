/** The objects of the sync API: Peer, Connection and the pending objects, updated in place. Each atomic
    region is a method that refines one update of PeerState; the callbacks, the router and the pump loop
    are built from them and refine the uninterrupted pump. */
module PeerObject {
  import opened RakTypes
  import opened SyncMailbox
  import opened PeerState
  import opened Sequential
  import opened Router
  import opened Sweep
  import Coherence
  import MailboxSpec

  class Connection {
    const guid: Guid
    const mailbox: Mailbox
    var closed: bool
    ghost const id: ConnId   // position in the peer's history

    constructor (guid: Guid, maxQueue: Option<int>, ghost id: ConnId)
      ensures this.guid == guid && this.id == id && !closed
      ensures fresh(mailbox) && mailbox.Valid() && mailbox.View() == Box([], None, maxQueue)
      ensures mailbox.fifo == MailboxSpec.EMPTY
    {
      this.guid := guid;
      this.id := id;
      this.closed := false;
      this.mailbox := new Mailbox(maxQueue);
    }

    method Recv() returns (r: Got)
      requires mailbox.Valid()
      modifies mailbox
      ensures mailbox.Valid() && mailbox.View() == old(mailbox.View().Rest()) && r == old(mailbox.View().Get())
    {
      r := mailbox.Get();
    }

    /** __iter__, driven until it returns (None), raises, or would block with nobody left to wake it. */
    method Iterate() returns (messages: seq<Bytes>, raised: Option<CloseReason>, blocked: bool)
      requires mailbox.Valid()
      modifies mailbox
      ensures mailbox.Valid()
      ensures messages == old(mailbox.items) && mailbox.items == [] && mailbox.exc == old(mailbox.exc)
      ensures blocked <==> mailbox.exc.None?
      ensures raised.Some? <==>
              && mailbox.exc.Some?
              && (mailbox.exc.value.ConnectionLost? || mailbox.exc.value.QueueOverflow?
                  || mailbox.exc.value.PumpCrashed?)
      ensures raised.Some? ==> raised == mailbox.exc
    {
      messages, raised, blocked := [], None, false;
      ghost var all := mailbox.items;
      while true
        invariant mailbox.Valid() && mailbox.exc == old(mailbox.exc)
        invariant messages + mailbox.items == all
        decreases |mailbox.items|
      {
        ghost var before := mailbox.View();
        var r := Recv();
        assert mailbox.items == before.Rest().items && mailbox.exc == before.exc;
        match r
        case Item(x) =>
          assert messages + before.items == messages + [x] + before.items[1..];
          messages := messages + [x];
        case Closed(e) =>
          if !e.Ok() {
            raised := Some(e);
          }
          return;
        case TimedOut =>
          blocked := true;
          return;
      }
    }
  }

  class PendingConnect {
    var event: bool
    var connection: Connection?
    var reason: Option<ConnectFailure>
    ghost const id: PendId

    constructor (ghost id: PendId)
      ensures this.id == id && !event && connection == null && reason == None
    {
      this.id := id;
      event, connection, reason := false, null, None;
    }
  }

  class Ping {
    var event: bool
    var pong: Option<Pong>
    ghost const id: PingId

    constructor (ghost id: PingId)
      ensures this.id == id && !event && pong == None
    {
      this.id := id;
      event, pong := false, None;
    }
  }

  /** The outcome of accept. */
  datatype Accepted = Accepted(connection: Connection) | PeerIsClosed | NothingArrived

  class Peer {
    const maxQueue: Option<int>
    const ids: Ids
    var closed: bool
    var connections: map<Guid, Connection>
    var pendingConnects: map<Address, PendingConnect>
    var pendingPings: map<Address, Ping>
    var acceptQueue: seq<Connection?>   // null is the close token

    ghost var conns: seq<Connection>    // every object ever made, in order
    ghost var pends: seq<PendingConnect>
    ghost var pings: seq<Ping>
    ghost var model: Shared
    ghost var Repr: set<object>

    static ghost predicate ConnMatches(c: Connection, m: Conn, i: nat)
      reads c, c.mailbox
    {
      && c.id == i && c.guid == m.guid && c.closed == m.closed
      && c.mailbox.Valid() && c.mailbox.View() == m.box
      && c.mailbox.fifo.accepted[..c.mailbox.fifo.taken] == m.delivered
    }

    static ghost predicate PendMatches(p: PendingConnect, m: Pending, i: nat, conns: seq<Connection>)
      reads p
    {
      && p.id == i && p.event == m.event && p.reason == m.reason
      && (p.connection == null <==> m.connection.None?)
      && (p.connection != null ==> Owned(p.connection, conns) && p.connection.id == m.connection.value)
    }

    static ghost predicate PingMatches(q: Ping, m: PendingPing, i: nat)
      reads q
    {
      q.id == i && q.event == m.event && q.pong == m.pong
    }

    static ghost predicate Owned(c: Connection, conns: seq<Connection>) {
      c.id < |conns| && conns[c.id] == c
    }

    ghost predicate IsMine(c: Connection)
      reads this
    {
      Owned(c, conns)
    }

    ghost predicate TablesOk()
      requires |conns| == |model.conns| && |pends| == |model.pends| && |pings| == |model.pings|
      reads this
    {
      && TableIds(model)
      && connections.Keys == model.connections.Keys
      && (forall g :: g in connections ==> connections[g] == conns[model.connections[g]] && connections[g].guid == g)
      && pendingConnects.Keys == model.pendingConnects.Keys
      && (forall k :: k in pendingConnects ==> pendingConnects[k] == pends[model.pendingConnects[k]])
      && pendingPings.Keys == model.pendingPings.Keys
      && (forall k :: k in pendingPings ==> pendingPings[k] == pings[model.pendingPings[k]])
    }

    ghost predicate QueueMatches()
      reads this
    {
      && |acceptQueue| == |model.acceptQueue|
      && (forall i :: 0 <= i < |acceptQueue| ==>
            if acceptQueue[i] == null then model.acceptQueue[i].None?
            else Owned(acceptQueue[i], conns) && model.acceptQueue[i] == Some(acceptQueue[i].id))
    }

    ghost predicate Valid()
      reads this, Repr
      ensures Valid() ==> this in Repr
    {
      && this in Repr
      && model.closed == closed && model.maxQueue == maxQueue
      && |conns| == |model.conns| && |pends| == |model.pends| && |pings| == |model.pings|
      && (forall i :: 0 <= i < |conns| ==> conns[i] in Repr && conns[i].mailbox in Repr)
      && (forall i :: 0 <= i < |pends| ==> pends[i] in Repr)
      && (forall i :: 0 <= i < |pings| ==> pings[i] in Repr)
      && (forall i, j :: 0 <= i < j < |conns| ==> conns[i].mailbox != conns[j].mailbox)
      && (forall i :: 0 <= i < |conns| ==> ConnMatches(conns[i], model.conns[i], i))
      && (forall i :: 0 <= i < |pends| ==> PendMatches(pends[i], model.pends[i], i, conns))
      && (forall i :: 0 <= i < |pings| ==> PingMatches(pings[i], model.pings[i], i))
      && TablesOk() && QueueMatches()
    }

    constructor (maxQueue: Option<int>, ids: Ids)
      ensures Valid() && fresh(Repr)
      ensures model == Fresh(maxQueue) && this.ids == ids
    {
      this.maxQueue := maxQueue;
      this.ids := ids;
      closed := false;
      connections, pendingConnects, pendingPings, acceptQueue := map[], map[], map[], [];
      conns, pends, pings, model := [], [], [], Fresh(maxQueue);
      Repr := {this};
    }

    // ---- Regions under the lock ----

    /** Connection(...), then its entry in the table. */
    method Enroll(g: Guid, ghost origin: Option<PendId>) returns (c: Connection)
      requires Valid()
      modifies this
      ensures Valid() && fresh(Repr - old(Repr))
      ensures model == Register(old(model), g, origin)
      ensures IsMine(c) && c.id == |old(model).conns|
      ensures old(conns) <= conns && pends == old(pends) && pings == old(pings)
      ensures fresh(c) && c.guid == g && !c.closed && c.mailbox.View() == Box([], None, maxQueue)
      ensures connections == old(connections)[g := c]
      ensures acceptQueue == old(acceptQueue) && pendingConnects == old(pendingConnects)
    {
      ghost var m := Conn(g, false, Box([], None, maxQueue), origin, |model.routed|, [], [], false, 0);
      c := new Connection(g, maxQueue, |conns|);
      Adopt(c, m);
      SetEntry(c);
    }

    /** A new object joins the history. */
    ghost method Adopt(c: Connection, m: Conn)
      requires Valid() && c !in Repr && c.mailbox !in Repr && ConnMatches(c, m, |conns|)
      modifies this
      ensures Valid() && Repr == old(Repr) + {c, c.mailbox}
      ensures model == old(model).(conns := old(model).conns + [m])
      ensures conns == old(conns) + [c] && pends == old(pends) && pings == old(pings)
      ensures connections == old(connections) && pendingConnects == old(pendingConnects)
      ensures acceptQueue == old(acceptQueue)
    {
      conns := conns + [c];
      model := model.(conns := model.conns + [m]);
      Repr := Repr + {c, c.mailbox};
      assert ConnMatches(c, m, c.id);
      assert QueueMatches();
    }

    /** connections[guid] = connection */
    method SetEntry(c: Connection)
      requires Valid() && IsMine(c)
      modifies this
      ensures Valid() && Repr == old(Repr)
      ensures model == old(model).(connections := old(model).connections[c.guid := c.id])
      ensures connections == old(connections)[c.guid := c] && acceptQueue == old(acceptQueue)
      ensures pendingConnects == old(pendingConnects)
      ensures conns == old(conns) && pends == old(pends) && pings == old(pings)
    {
      connections := connections[c.guid := c];
      model := model.(connections := model.connections[c.guid := c.id]);
    }

    method EvictGuid(g: Guid)
      requires Valid()
      modifies this
      ensures Valid() && Repr == old(Repr) && model == Evict(old(model), g)
      ensures connections == old(connections) - {g} && pendingConnects == old(pendingConnects)
      ensures acceptQueue == old(acceptQueue)
      ensures conns == old(conns) && pends == old(pends) && pings == old(pings)
    {
      connections := connections - {g};
      model := Evict(model, g);
    }

    /** pop(guid, None), with its answer. */
    method PopGuid(g: Guid) returns (c: Connection?)
      requires Valid()
      modifies this
      ensures Valid() && Repr == old(Repr) && model == Evict(old(model), g)
      ensures connections == old(connections) - {g}
      ensures c == (if g in old(connections) then old(connections)[g] else null)
      ensures conns == old(conns) && pends == old(pends) && pings == old(pings)
      ensures c != null <==> g in old(model).connections
      ensures c != null ==> IsMine(c) && c.id == old(model).connections[g]
    {
      c := if g in connections then connections[g] else null;
      EvictGuid(g);
    }

    method Find(g: Guid, ghost d: Bytes) returns (c: Connection?)
      requires Valid()
      modifies this
      ensures Valid() && Repr == old(Repr) && model == LookUp(old(model), g, d)
      ensures c == (if g in connections then connections[g] else null) && connections == old(connections)
      ensures conns == old(conns) && pends == old(pends) && pings == old(pings)
      ensures c != null <==> g in old(model).connections
      ensures c != null ==> IsMine(c) && c.id == old(model).connections[g]
    {
      c := if g in connections then connections[g] else null;
      model := LookUp(model, g, d);
    }

    method PopConnect(k: Address) returns (p: PendingConnect?)
      requires Valid()
      modifies this
      ensures Valid() && Repr == old(Repr) && model == PopPending(old(model), k)
      ensures p == (if k in old(pendingConnects) then old(pendingConnects)[k] else null)
      ensures pendingConnects == old(pendingConnects) - {k} && connections == old(connections)
      ensures conns == old(conns) && pends == old(pends) && pings == old(pings)
      ensures p != null <==> k in old(model).pendingConnects
      ensures p != null ==> p.id == old(model).pendingConnects[k] && p.id < |pends| && pends[p.id] == p
    {
      p := if k in pendingConnects then pendingConnects[k] else null;
      pendingConnects := pendingConnects - {k};
      model := PopPending(model, k);
    }

    method PopPong(k: Address) returns (q: Ping?)
      requires Valid()
      modifies this
      ensures Valid() && Repr == old(Repr) && model == PopPing(old(model), k)
      ensures q == (if k in old(pendingPings) then old(pendingPings)[k] else null)
      ensures pendingPings == old(pendingPings) - {k}
      ensures conns == old(conns) && pends == old(pends) && pings == old(pings)
      ensures q != null <==> k in old(model).pendingPings
      ensures q != null ==> q.id == old(model).pendingPings[k] && q.id < |pings| && pings[q.id] == q
    {
      q := if k in pendingPings then pendingPings[k] else null;
      pendingPings := pendingPings - {k};
      model := PopPing(model, k);
    }

    // ---- Writes outside the lock ----

    method Flag(c: Connection)
      requires Valid() && IsMine(c)
      modifies this, c
      ensures Valid() && Repr == old(Repr) && model == MarkClosed(old(model), c.id)
      ensures c.closed && connections == old(connections)
      ensures conns == old(conns) && pends == old(pends) && pings == old(pings)
    {
      c.closed := true;
      model := MarkClosed(model, c.id);
    }

    method CloseBox(c: Connection, why: CloseReason)
      requires Valid() && IsMine(c)
      modifies this, c.mailbox
      ensures Valid() && Repr == old(Repr) && model == Seal(old(model), c.id, why)
      ensures c.mailbox.items == old(c.mailbox.items) && connections == old(connections)
      ensures c.mailbox.exc == (if old(c.mailbox.exc).None? then Some(why) else old(c.mailbox.exc))
      ensures conns == old(conns) && pends == old(pends) && pings == old(pings)
    {
      c.mailbox.Close(why);
      model := Seal(model, c.id, why);
    }

    /** connection._closed = True, then connection._mailbox.close(...) */
    method End(c: Connection, why: CloseReason)
      requires Valid() && IsMine(c)
      modifies Repr
      ensures Valid() && Repr == old(Repr) && model == Seal(MarkClosed(old(model), c.id), c.id, why)
      ensures c.closed && c.mailbox.items == old(c.mailbox.items) && connections == old(connections)
      ensures c.mailbox.exc == (if old(c.mailbox.exc).None? then Some(why) else old(c.mailbox.exc))
      ensures conns == old(conns) && pends == old(pends) && pings == old(pings)
    {
      assert c in Repr && c.mailbox in Repr;
      Flag(c);
      CloseBox(c, why);
    }

    method PutInto(c: Connection, d: Bytes) returns (ok: bool)
      requires Valid() && IsMine(c)
      modifies this, c.mailbox
      ensures Valid() && Repr == old(Repr) && model == Offer(old(model), c.id, d)
      ensures ok <==> c.mailbox.maxsize.None? || |old(c.mailbox.items)| < c.mailbox.maxsize.value
      ensures c.mailbox.items == (if ok then old(c.mailbox.items) + [d] else old(c.mailbox.items))
      ensures c.mailbox.exc == old(c.mailbox.exc) && connections == old(connections)
      ensures conns == old(conns) && pends == old(pends) && pings == old(pings)
      ensures ok == !old(model).conns[c.id].box.Full()
    {
      ok := c.mailbox.Put(d);
      model := Offer(model, c.id, d);
    }

    method SetConnection(p: PendingConnect, c: Connection)
      requires Valid() && IsMine(c) && p.id < |pends| && pends[p.id] == p
      modifies this, p
      ensures Valid() && Repr == old(Repr) && model == Attach(old(model), p.id, c.id)
      ensures p.connection == c && p.reason == old(p.reason) && p.event == old(p.event)
      ensures connections == old(connections) && pendingConnects == old(pendingConnects)
      ensures conns == old(conns) && pends == old(pends) && pings == old(pings)
    {
      p.connection := c;
      model := Attach(model, p.id, c.id);
    }

    method SetReason(p: PendingConnect, f: ConnectFailure)
      requires Valid() && p.id < |pends| && pends[p.id] == p
      modifies this, p
      ensures Valid() && Repr == old(Repr) && model == Explain(old(model), p.id, f)
      ensures p.reason == Some(f) && p.connection == old(p.connection) && p.event == old(p.event)
      ensures pendingConnects == old(pendingConnects)
      ensures conns == old(conns) && pends == old(pends) && pings == old(pings)
    {
      p.reason := Some(f);
      model := Explain(model, p.id, f);
    }

    method SetEvent(p: PendingConnect)
      requires Valid() && p.id < |pends| && pends[p.id] == p
      modifies this, p
      ensures Valid() && Repr == old(Repr) && model == Signal(old(model), p.id)
      ensures p.event && p.connection == old(p.connection) && p.reason == old(p.reason)
      ensures connections == old(connections) && pendingConnects == old(pendingConnects)
      ensures conns == old(conns) && pends == old(pends) && pings == old(pings)
    {
      p.event := true;
      model := Signal(model, p.id);
    }

    method SetPong(q: Ping, pong: Pong)
      requires Valid() && q.id < |pings| && pings[q.id] == q
      modifies this, q
      ensures Valid() && Repr == old(Repr) && model == AttachPong(old(model), q.id, pong)
      ensures q.pong == Some(pong) && pendingPings == old(pendingPings)
      ensures conns == old(conns) && pends == old(pends) && pings == old(pings)
    {
      q.pong := Some(pong);
      model := AttachPong(model, q.id, pong);
    }

    method SetPingEvent(q: Ping)
      requires Valid() && q.id < |pings| && pings[q.id] == q
      modifies this, q
      ensures Valid() && Repr == old(Repr) && model == Ring(old(model), q.id)
      ensures q.event && q.pong == old(q.pong) && pendingPings == old(pendingPings)
      ensures conns == old(conns) && pends == old(pends) && pings == old(pings)
    {
      q.event := true;
      model := Ring(model, q.id);
    }

    method QueueConnection(c: Connection)
      requires Valid() && IsMine(c)
      modifies this
      ensures Valid() && Repr == old(Repr) && model == Enqueue(old(model), c.id)
      ensures acceptQueue == old(acceptQueue) + [c] && connections == old(connections)
      ensures conns == old(conns) && pends == old(pends) && pings == old(pings)
    {
      acceptQueue := acceptQueue + [c];
      model := Enqueue(model, c.id);
    }

    method QueueToken()
      requires Valid()
      modifies this
      ensures Valid() && Repr == old(Repr) && model == PostToken(old(model))
      ensures acceptQueue == old(acceptQueue) + [null]
      ensures conns == old(conns) && pends == old(pends) && pings == old(pings)
    {
      acceptQueue := acceptQueue + [null];
      model := PostToken(model);
    }

    // ---- The sink callbacks ----

    method IncomingConnection(address: Address, guid: Guid)
      requires Valid()
      modifies Repr
      ensures Valid() && fresh(Repr - old(Repr))
      ensures model == Deliver(old(model), Event.IncomingConnection(address, guid))
      ensures guid in connections && connections == old(connections)[guid := connections[guid]]
      ensures var c := connections[guid];
              && fresh(c) && c.guid == guid && !c.closed && c.mailbox.View() == Box([], None, maxQueue)
              && acceptQueue == old(acceptQueue) + [c]
    {
      var c := Enroll(guid, None);
      QueueConnection(c);
      DeliverIncoming(old(model), address, guid);
    }

    method ConnectSucceeded(address: Address, guid: Guid)
      requires Valid()
      modifies Repr
      ensures Valid() && fresh(Repr - old(Repr)) && model == Deliver(old(model), Event.ConnectSucceeded(address, guid))
      ensures address !in pendingConnects
      ensures address !in old(pendingConnects) ==> connections == old(connections)
      ensures address in old(pendingConnects) ==>
              var p := old(pendingConnects)[address];
              && guid in connections && connections == old(connections)[guid := connections[guid]]
              && p.event && p.connection == connections[guid]
              && fresh(connections[guid]) && connections[guid].guid == guid && !connections[guid].closed
    {
      DeliverSucceeded(model, address, guid);
      var p := PopConnect(address);
      if p == null {
        return;
      }
      Establish(p, guid);
    }

    /** The rest of the callback, once the pending is popped. */
    method Establish(p: PendingConnect, guid: Guid)
      requires Valid() && p.id < |pends| && pends[p.id] == p
      modifies Repr
      ensures Valid() && fresh(Repr - old(Repr)) && pendingConnects == old(pendingConnects)
      ensures var n := |old(model).conns|;
              model == Signal(Attach(Register(old(model), guid, Some(p.id)), p.id, n), p.id)
      ensures guid in connections && connections == old(connections)[guid := connections[guid]]
      ensures p.event && p.connection == connections[guid]
      ensures fresh(connections[guid]) && connections[guid].guid == guid && !connections[guid].closed
    {
      var c := Enroll(guid, Some(p.id));
      Resolve(p, c);
    }

    /** pending.connection = connection, then pending.event.set() */
    method Resolve(p: PendingConnect, c: Connection)
      requires Valid() && IsMine(c) && p.id < |pends| && pends[p.id] == p
      modifies this, p
      ensures Valid() && Repr == old(Repr) && model == Signal(Attach(old(model), p.id, c.id), p.id)
      ensures p.event && p.connection == c
      ensures connections == old(connections) && pendingConnects == old(pendingConnects)
    {
      SetConnection(p, c);
      SetEvent(p);
    }

    method ConnectFailed(address: Address, failure: ConnectFailure)
      requires Valid()
      modifies Repr
      ensures Valid() && fresh(Repr - old(Repr)) && model == Deliver(old(model), Event.ConnectFailed(address, failure))
      ensures address !in pendingConnects
      ensures address in old(pendingConnects) ==>
              var p := old(pendingConnects)[address]; p.event && p.reason == Some(failure)
    {
      DeliverFailed(model, address, failure);
      var p := PopConnect(address);
      if p == null {
        return;
      }
      SetReason(p, failure);
      SetEvent(p);
    }

    method Message(guid: Guid, data: Bytes)
      requires Valid()
      modifies Repr
      ensures Valid() && fresh(Repr - old(Repr)) && model == Deliver(old(model), Event.Message(guid, data))
      ensures guid !in old(connections) ==> connections == old(connections)
      ensures guid in old(connections) ==>
              var box := old(connections)[guid].mailbox;
              if box.maxsize.None? || |old(box.items)| < box.maxsize.value then
                connections == old(connections) && box.items == old(box.items) + [data] && box.exc == old(box.exc)
              else
                && guid !in connections && old(connections)[guid].closed && box.items == old(box.items)
                && box.exc == (if old(box.exc).None? then Some(QueueOverflow) else old(box.exc))
    {
      DeliverMessage(model, guid, data);
      var c := Find(guid, data);
      if c == null {
        return;
      }
      assert c == old(connections)[guid] && c.guid == guid && c.mailbox.View() == old(c.mailbox.View());
      Hand(c, data);
    }

    /** The put, and what follows when it is refused. */
    method Hand(c: Connection, d: Bytes)
      requires Valid() && IsMine(c)
      modifies Repr
      ensures Valid() && Repr == old(Repr)
      ensures var sh := Offer(old(model), c.id, d);
              model == if old(model).conns[c.id].box.Full()
                       then Seal(MarkClosed(Evict(sh, c.guid), c.id), c.id, QueueOverflow) else sh
      ensures if c.mailbox.maxsize.None? || |old(c.mailbox.items)| < c.mailbox.maxsize.value then
                && connections == old(connections)
                && c.mailbox.items == old(c.mailbox.items) + [d] && c.mailbox.exc == old(c.mailbox.exc)
              else
                && connections == old(connections) - {c.guid} && c.closed && c.mailbox.items == old(c.mailbox.items)
                && c.mailbox.exc == (if old(c.mailbox.exc).None? then Some(QueueOverflow) else old(c.mailbox.exc))
    {
      var ok := PutInto(c, d);
      if !ok {
        Overflow(c);
      }
    }

    method Overflow(c: Connection)
      requires Valid() && IsMine(c)
      modifies Repr
      ensures Valid() && Repr == old(Repr)
      ensures model == Seal(MarkClosed(Evict(old(model), c.guid), c.id), c.id, QueueOverflow)
      ensures connections == old(connections) - {c.guid} && c.closed && c.mailbox.items == old(c.mailbox.items)
      ensures c.mailbox.exc == (if old(c.mailbox.exc).None? then Some(QueueOverflow) else old(c.mailbox.exc))
    {
      EvictGuid(c.guid);
      End(c, QueueOverflow);
    }

    method Disconnected(guid: Guid, graceful: bool)
      requires Valid()
      modifies Repr
      ensures Valid() && fresh(Repr - old(Repr)) && model == Deliver(old(model), Event.Disconnected(guid, graceful))
      ensures connections == old(connections) - {guid}
      ensures guid in old(connections) ==>
              var c := old(connections)[guid];
              && c.closed && c.mailbox.items == old(c.mailbox.items)
              && c.mailbox.exc == (if old(c.mailbox.exc).Some? then old(c.mailbox.exc)
                                   else if graceful then Some(RemoteClose) else Some(ConnectionLost))
    {
      DeliverDisconnected(model, guid, graceful);
      var c := PopGuid(guid);
      if c == null {
        return;
      }
      End(c, if graceful then RemoteClose else ConnectionLost);
    }

    method PongReceived(address: Address, guid: Guid, data: Bytes)
      requires Valid()
      modifies Repr
      ensures Valid() && fresh(Repr - old(Repr))
      ensures model == Deliver(old(model), Event.PongReceived(address, guid, data))
      ensures address !in pendingPings
      ensures address in old(pendingPings) ==>
              var q := old(pendingPings)[address]; q.event && q.pong == Some(Pong(address, guid, data))
    {
      DeliverPong(model, address, guid, data);
      var q := PopPong(address);
      if q == null {
        return;
      }
      SetPong(q, Pong(address, guid, data));
      SetPingEvent(q);
    }

    // ---- The router and the pump loop ----

    method Dispatch(packet: Packet)
      requires Valid()
      modifies Repr
      ensures Valid() && fresh(Repr - old(Repr))
      ensures model == DeliverIfAny(old(model), Route(ids, packet))
    {
      var data := packet.data;
      if data == [] {
        return;
      }
      var mid := data[0];
      if mid >= ids.userPacketEnum {
        Message(packet.guid, data);
      } else if mid == ids.newIncomingConnection {
        IncomingConnection(packet.address, packet.guid);
      } else if mid == ids.connectionRequestAccepted {
        ConnectSucceeded(packet.address, packet.guid);
      } else if mid in ids.ConnectFailures() {
        ConnectFailed(packet.address, ids.failures[mid]);
      } else if mid == ids.disconnectionNotification {
        Disconnected(packet.guid, true);
      } else if mid == ids.connectionLost {
        Disconnected(packet.guid, false);
      } else if mid == ids.unconnectedPong {
        PongReceived(packet.address, packet.guid, if |data| < 5 then [] else data[5..]);
      }
    }

    /** _pump_loop over the packets that receive returns, while nobody closes the peer. */
    method PumpLoop(packets: seq<Packet>)
      requires Valid()
      modifies Repr
      ensures Valid() && fresh(Repr - old(Repr))
      ensures model == if old(closed) then old(model) else DeliverAll(old(model), Callbacks(ids, packets))
    {
      ghost var start := model;
      var i := 0;
      while !closed && i < |packets|
        invariant 0 <= i <= |packets| && closed == start.closed && (closed ==> i == 0)
        invariant Valid() && fresh(Repr - old(Repr))
        invariant model == DeliverAll(start, Callbacks(ids, packets[..i]))
      {
        ghost var before := model;
        Dispatch(packets[i]);
        if Route(ids, packets[i]).Some? {
          DeliverKeepsOpen(before, Route(ids, packets[i]).value);
        }
        NextPacket(start, ids, packets, i);
        i := i + 1;
      }
      assert packets[..0] == [];
      assert !closed ==> packets[..i] == packets;
    }

    // ---- The callers ----

    /** Connection.close and _close_connection. */
    method CloseConnection(c: Connection)
      requires Valid() && IsMine(c)
      modifies Repr
      ensures Valid() && Repr == old(Repr)
      ensures model == if old(c.closed) then old(model)
                       else Seal(MarkClosed(Evict(old(model), c.guid), c.id), c.id, LocalClose)
      ensures c.closed && c.mailbox.items == old(c.mailbox.items)
      ensures if old(c.closed) then connections == old(connections) && c.mailbox.exc == old(c.mailbox.exc)
              else && connections == old(connections) - {c.guid}
                   && c.mailbox.exc == (if old(c.mailbox.exc).None? then Some(LocalClose) else old(c.mailbox.exc))
    {
      if !c.closed {
        EvictGuid(c.guid);
        End(c, LocalClose);
      }
    }

    /** accept: NothingArrived is a wait that ends with nothing queued; an accept that takes the token puts it
        back. */
    method Accept() returns (r: Accepted)
      requires Valid()
      modifies this
      ensures Valid() && Repr == old(Repr)
      ensures r == if old(closed) then PeerIsClosed
                   else if old(acceptQueue) == [] then NothingArrived
                   else if old(acceptQueue)[0] == null then PeerIsClosed
                   else Accepted(old(acceptQueue)[0])
      ensures r.Accepted? ==> IsMine(r.connection)
      ensures model == if old(closed) || old(acceptQueue) == [] then old(model)
                       else if r.Accepted? then Dequeue(old(model))
                       else PostToken(Dequeue(old(model)))
      ensures acceptQueue == if old(closed) || old(acceptQueue) == [] then old(acceptQueue)
                             else if r.Accepted? then old(acceptQueue)[1..]
                             else old(acceptQueue)[1..] + [null]
    {
      if closed {
        return PeerIsClosed;
      }
      if acceptQueue == [] {
        return NothingArrived;
      }
      var c := acceptQueue[0];
      acceptQueue := acceptQueue[1..];
      model := Dequeue(model);
      if c == null {
        QueueToken();
        return PeerIsClosed;
      }
      return Accepted(c);
    }

    method AddConnect(k: Address, p: PendingConnect, ghost caller: nat)
      requires Valid() && p !in Repr && p.id == |pends| && !p.event && p.connection == null && p.reason == None
      modifies this
      ensures Valid() && Repr == old(Repr) + {p} && model == AddPending(old(model), k, caller)
      ensures conns == old(conns) && pends == old(pends) + [p] && pings == old(pings)
      ensures closed == old(closed) && pendingConnects == old(pendingConnects)[k := p]
    {
      pendingConnects := pendingConnects[k := p];
      pends := pends + [p];
      model := AddPending(model, k, caller);
      Repr := Repr + {p};
    }

    method NewConnect(k: Address, ghost caller: nat) returns (p: PendingConnect)
      requires Valid()
      modifies this
      ensures Valid() && fresh(p) && Repr == old(Repr) + {p} && model == AddPending(old(model), k, caller)
      ensures p.id < |pends| && pends[p.id] == p && !p.event && p.connection == null && p.reason == None
      ensures pendingConnects == old(pendingConnects)[k := p]
    {
      p := new PendingConnect(|pends|);
      AddConnect(k, p, caller);
    }

    /** _start_connect past name resolution; started is the result of RakNet's connect. */
    method StartConnect(k: Address, started: bool, ghost caller: nat) returns (p: PendingConnect?)
      requires Valid()
      modifies this
      ensures Valid() && fresh(Repr - old(Repr))
      ensures p != null <==> !old(closed) && started
      ensures p != null ==> fresh(p) && p.id < |pends| && pends[p.id] == p
      ensures p != null ==> k in pendingConnects && pendingConnects[k] == p
      ensures model == if old(closed) then old(model)
                       else if started then AddPending(old(model), k, caller)
                       else PopPending(AddPending(old(model), k, caller), k)
      ensures p != null ==> !p.event && p.connection == null && p.reason == None
      ensures pendingConnects == if old(closed) then old(pendingConnects)
                                 else if started then old(pendingConnects)[k := pendingConnects[k]]
                                 else old(pendingConnects) - {k}
    {
      if closed {
        return null;
      }
      p := NewConnect(k, caller);
      if !started {
        var _ := PopConnect(k);
        p := null;
      }
    }

    /** _abandon_connect: whether the attempt was still pending. */
    method AbandonConnect(k: Address) returns (cancelled: bool)
      requires Valid()
      modifies this
      ensures Valid() && Repr == old(Repr) && model == PopPending(old(model), k)
      ensures cancelled <==> k in old(pendingConnects)
      ensures pendingConnects == old(pendingConnects) - {k}
    {
      var p := PopConnect(k);
      cancelled := p != null;
    }

    /** _finish_connect: the reason to raise, or else the connection; its assertion holds because the
        outcome behind a set event is complete. */
    method FinishConnect(p: PendingConnect) returns (c: Connection?, reason: Option<ConnectFailure>)
      requires Valid() && p.id < |pends| && pends[p.id] == p
      requires model.pends[p.id].Resolved()
      ensures reason == model.pends[p.id].reason
      ensures c != null <==> reason.None?
      ensures c != null ==> IsMine(c) && model.pends[p.id].connection == Some(c.id)
      ensures reason == p.reason && (p.reason.None? ==> c == p.connection)
    {
      if p.reason.Some? {
        return null, p.reason;
      }
      return p.connection, None;
    }

    // ---- Closing the peer ----

    static lemma SomeKey(keys: set<int>)
      requires keys != {}
      ensures exists k :: k in keys
    {
      if forall k :: k !in keys {
        assert false;
      }
    }

    /** list(table.values()) */
    static method ValuesOf<T(==)>(m: map<int, T>) returns (vs: seq<T>)
      ensures forall v :: v in vs ==> v in m.Values
      ensures forall k :: k in m ==> m[k] in vs
    {
      vs := [];
      var keys := m.Keys;
      while keys != {}
        invariant keys <= m.Keys
        invariant forall v :: v in vs ==> v in m.Values
        invariant forall k :: k in m && k !in keys ==> m[k] in vs
        decreases |keys|
      {
        SomeKey(keys);
        var k :| k in keys;
        vs := vs + [m[k]];
        keys := keys - {k};
      }
    }

    /** The three lists _begin_close takes. */
    method TakeConns() returns (xs: seq<Connection>, ghost ids: seq<ConnId>)
      requires Valid()
      ensures |ids| == |xs|
      ensures forall i :: 0 <= i < |xs| ==> ids[i] == xs[i].id < |conns| && conns[ids[i]] == xs[i]
      ensures forall x :: x in ids <==> x in model.connections.Values
    {
      xs := ValuesOf(connections);
      ids := seq(|xs|, i requires 0 <= i < |xs| => xs[i].id);
      forall i | 0 <= i < |xs|
        ensures ids[i] < |conns| && conns[ids[i]] == xs[i] && ids[i] in model.connections.Values
      {
        assert xs[i] in xs;
        Coherence.ValueHasKey(connections, xs[i]);
        var k :| k in connections && connections[k] == xs[i];
        assert conns[model.connections[k]].id == model.connections[k];
      }
      forall x | x in model.connections.Values ensures x in ids {
        Coherence.ValueHasKey(model.connections, x);
        var k :| k in model.connections && model.connections[k] == x;
        assert conns[x].id == x && connections[k] in xs;
        var i :| 0 <= i < |xs| && xs[i] == connections[k];
        assert ids[i] == x;
      }
    }

    method TakePends() returns (xs: seq<PendingConnect>, ghost ids: seq<PendId>)
      requires Valid()
      ensures |ids| == |xs|
      ensures forall i :: 0 <= i < |xs| ==> ids[i] == xs[i].id < |pends| && pends[ids[i]] == xs[i]
      ensures forall x :: x in ids <==> x in model.pendingConnects.Values
    {
      xs := ValuesOf(pendingConnects);
      ids := seq(|xs|, i requires 0 <= i < |xs| => xs[i].id);
      forall i | 0 <= i < |xs|
        ensures ids[i] < |pends| && pends[ids[i]] == xs[i] && ids[i] in model.pendingConnects.Values
      {
        assert xs[i] in xs;
        Coherence.ValueHasKey(pendingConnects, xs[i]);
        var k :| k in pendingConnects && pendingConnects[k] == xs[i];
        assert pends[model.pendingConnects[k]].id == model.pendingConnects[k];
      }
      forall x | x in model.pendingConnects.Values ensures x in ids {
        Coherence.ValueHasKey(model.pendingConnects, x);
        var k :| k in model.pendingConnects && model.pendingConnects[k] == x;
        assert pends[x].id == x && pendingConnects[k] in xs;
        var i :| 0 <= i < |xs| && xs[i] == pendingConnects[k];
        assert ids[i] == x;
      }
    }

    method TakePings() returns (xs: seq<Ping>, ghost ids: seq<PingId>)
      requires Valid()
      ensures |ids| == |xs|
      ensures forall i :: 0 <= i < |xs| ==> ids[i] == xs[i].id < |pings| && pings[ids[i]] == xs[i]
      ensures forall x :: x in ids <==> x in model.pendingPings.Values
    {
      xs := ValuesOf(pendingPings);
      ids := seq(|xs|, i requires 0 <= i < |xs| => xs[i].id);
      forall i | 0 <= i < |xs|
        ensures ids[i] < |pings| && pings[ids[i]] == xs[i] && ids[i] in model.pendingPings.Values
      {
        assert xs[i] in xs;
        Coherence.ValueHasKey(pendingPings, xs[i]);
        var k :| k in pendingPings && pendingPings[k] == xs[i];
        assert pings[model.pendingPings[k]].id == model.pendingPings[k];
      }
      forall x | x in model.pendingPings.Values ensures x in ids {
        Coherence.ValueHasKey(model.pendingPings, x);
        var k :| k in model.pendingPings && model.pendingPings[k] == x;
        assert pings[x].id == x && pendingPings[k] in xs;
        var i :| 0 <= i < |xs| && xs[i] == pendingPings[k];
        assert ids[i] == x;
      }
    }

    /** _begin_close: only the caller that finds the peer open gets the snapshot. */
    method BeginClose() returns (won: bool, cs: seq<Connection>, ps: seq<PendingConnect>, qs: seq<Ping>,
                                 ghost cids: seq<ConnId>, ghost pids: seq<PendId>, ghost qids: seq<PingId>)
      requires Valid()
      modifies this
      ensures Valid() && Repr == old(Repr) && closed
      ensures conns == old(conns) && pends == old(pends) && pings == old(pings)
      ensures won == !old(closed)
      ensures model == if won then PeerState.BeginClose(old(model)) else old(model)
      ensures |cids| == |cs| && |pids| == |ps| && |qids| == |qs|
      ensures forall i :: 0 <= i < |cs| ==> cids[i] == cs[i].id < |conns| && conns[cids[i]] == cs[i]
      ensures forall i :: 0 <= i < |ps| ==> pids[i] == ps[i].id < |pends| && pends[pids[i]] == ps[i]
      ensures forall i :: 0 <= i < |qs| ==> qids[i] == qs[i].id < |pings| && pings[qids[i]] == qs[i]
      ensures won ==> forall c :: c in cids <==> c in old(model).connections.Values
      ensures won ==> forall p :: p in pids <==> p in old(model).pendingConnects.Values
      ensures won ==> forall q :: q in qids <==> q in old(model).pendingPings.Values
    {
      won, cs, ps, qs, cids, pids, qids := !closed, [], [], [], [], [], [];
      if won {
        cs, cids := TakeConns();
        ps, pids := TakePends();
        qs, qids := TakePings();
        ClearTables();
      }
    }

    method ClearTables()
      requires Valid()
      modifies this
      ensures Valid() && Repr == old(Repr) && closed && model == PeerState.BeginClose(old(model))
      ensures conns == old(conns) && pends == old(pends) && pings == old(pings)
    {
      closed, connections, pendingConnects, pendingPings := true, map[], map[], map[];
      model := PeerState.BeginClose(model);
    }

    method FailOne(p: PendingConnect)
      requires Valid() && p.id < |pends| && pends[p.id] == p
      modifies this, p
      ensures Valid() && Repr == old(Repr) && model == Signal(Explain(old(model), p.id, AttemptFailed), p.id)
      ensures conns == old(conns) && pends == old(pends) && pings == old(pings)
    {
      SetReason(p, AttemptFailed);
      SetEvent(p);
    }

    /** The first loop of _finish_close. */
    method CloseAll(cs: seq<Connection>, why: CloseReason, ghost ids: seq<ConnId>)
      requires Valid() && |ids| == |cs|
      requires forall i :: 0 <= i < |cs| ==> ids[i] == cs[i].id < |conns| && conns[ids[i]] == cs[i]
      modifies Repr
      ensures Valid() && Repr == old(Repr)
      ensures conns == old(conns) && pends == old(pends) && pings == old(pings)
      ensures model == SweepConns(old(model), ids, why)
    {
      ghost var start := model;
      var i := 0;
      assert forall j :: 0 <= j < |ids| ==> ids[j] < |start.conns|;
      while i < |cs|
        invariant 0 <= i <= |cs|
        invariant Valid() && Repr == old(Repr)
        invariant conns == old(conns) && pends == old(pends) && pings == old(pings)
        invariant model == SweepConns(start, ids[..i], why)
      {
        CloseNext(cs[i], why, start, ids, i);
        i := i + 1;
      }
      assert ids[..i] == ids;
    }

    method CloseNext(c: Connection, why: CloseReason, ghost start: Shared, ghost ids: seq<ConnId>, ghost i: nat)
      requires Valid() && IsMine(c) && i < |ids| && ids[i] == c.id
      requires forall j :: 0 <= j < |ids| ==> ids[j] < |start.conns|
      requires model == SweepConns(start, ids[..i], why)
      modifies Repr
      ensures Valid() && Repr == old(Repr) && model == SweepConns(start, ids[..i + 1], why)
      ensures conns == old(conns) && pends == old(pends) && pings == old(pings)
    {
      End(c, why);
      NextConn(start, ids, i, why);
    }

    /** The second loop of _finish_close. */
    method FailAll(ps: seq<PendingConnect>, ghost ids: seq<PendId>)
      requires Valid() && |ids| == |ps|
      requires forall i :: 0 <= i < |ps| ==> ids[i] == ps[i].id < |pends| && pends[ids[i]] == ps[i]
      modifies Repr
      ensures Valid() && Repr == old(Repr)
      ensures conns == old(conns) && pends == old(pends) && pings == old(pings)
      ensures model == SweepPends(old(model), ids)
    {
      ghost var start := model;
      var i := 0;
      while i < |ps|
        invariant 0 <= i <= |ps|
        invariant Valid() && Repr == old(Repr)
        invariant conns == old(conns) && pends == old(pends) && pings == old(pings)
        invariant model == SweepPends(start, ids[..i])
      {
        assert ps[i] in Repr;
        FailOne(ps[i]);
        NextPend(start, ids, i);
        i := i + 1;
      }
      assert ids[..i] == ids;
    }

    /** The third loop of _finish_close. */
    method RingAll(qs: seq<Ping>, ghost ids: seq<PingId>)
      requires Valid() && |ids| == |qs|
      requires forall i :: 0 <= i < |qs| ==> ids[i] == qs[i].id < |pings| && pings[ids[i]] == qs[i]
      modifies Repr
      ensures Valid() && Repr == old(Repr)
      ensures conns == old(conns) && pends == old(pends) && pings == old(pings)
      ensures model == SweepPings(old(model), ids)
    {
      ghost var start := model;
      var i := 0;
      while i < |qs|
        invariant 0 <= i <= |qs|
        invariant Valid() && Repr == old(Repr)
        invariant conns == old(conns) && pends == old(pends) && pings == old(pings)
        invariant model == SweepPings(start, ids[..i])
      {
        assert qs[i] in Repr;
        SetPingEvent(qs[i]);
        NextPing(start, ids, i);
        i := i + 1;
      }
      assert ids[..i] == ids;
    }

    /** _begin_close and, for the caller that wins it, _finish_close with the given exception. */
    method Shut(why: CloseReason)
      requires Valid()
      modifies Repr
      ensures Valid() && Repr == old(Repr) && closed
      ensures conns == old(conns) && pends == old(pends) && pings == old(pings)
      ensures old(closed) ==> model == old(model)
      ensures !old(closed) ==> Swept(old(model), model, why)
    {
      ghost var before := model;
      var won, cs, ps, qs, cids, pids, qids := BeginClose();
      if !won {
        return;
      }
      CloseAll(cs, why, cids);
      FailAll(ps, pids);
      RingAll(qs, qids);
      QueueToken();
      SweepIsSwept(before, cids, pids, qids, why);
    }

    /** Peer.close, with the pump already stopped. */
    method Close()
      requires Valid()
      modifies Repr
      ensures Valid() && Repr == old(Repr) && closed
      ensures old(closed) ==> model == old(model)
      ensures !old(closed) ==> Swept(old(model), model, PeerClosed)
      ensures !old(closed) ==> forall g :: g in old(connections) ==>
                var c := old(connections)[g];
                c.closed && (old(c.mailbox.exc).None? ==> c.mailbox.exc == Some(PeerClosed))
      ensures !old(closed) ==> forall k :: k in old(pendingConnects) ==>
                var p := old(pendingConnects)[k]; p.event && p.reason == Some(AttemptFailed)
      ensures !old(closed) ==> forall k :: k in old(pendingPings) ==> old(pendingPings)[k].event
    {
      Shut(PeerClosed);
    }

    /** _fail: the pump closes the peer because it has crashed. */
    method Fail()
      requires Valid()
      modifies Repr
      ensures Valid() && Repr == old(Repr) && closed
      ensures old(closed) ==> model == old(model)
      ensures !old(closed) ==> Swept(old(model), model, PumpCrashed)
      ensures !old(closed) ==> forall g :: g in old(connections) ==>
                var c := old(connections)[g];
                c.closed && (old(c.mailbox.exc).None? ==> c.mailbox.exc == Some(PumpCrashed))
    {
      Shut(PumpCrashed);
    }
  }
}
