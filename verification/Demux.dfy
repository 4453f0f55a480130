/** Demultiplexing: with no connect or ping outstanding and no caller at work, what happens to one guid
    depends only on the packets that carry it. */
module Demux {
  import opened RakTypes
  import opened SyncMailbox
  import opened PeerState
  import opened Protocol
  import opened Sequential
  import opened Router

  /** One connection object as the application can see it. */
  datatype Object = Object(closed: bool, registered: bool, box: Box)

  /** The connection objects made for g, oldest first. */
  function Objects(sh: Shared, g: Guid, n: nat): seq<Object>
    requires n <= |sh.conns|
  {
    if n == 0 then []
    else Objects(sh, g, n - 1) + (if sh.conns[n - 1].guid == g then [View(sh, n - 1)] else [])
  }

  function View(sh: Shared, c: ConnId): Object
    requires IsConn(sh, c)
  {
    Object(sh.conns[c].closed, Registered(sh, c), sh.conns[c].box)
  }

  function AllObjects(sh: Shared, g: Guid): seq<Object> {
    Objects(sh, g, |sh.conns|)
  }

  /** The shape of every state this module meets. */
  ghost predicate Alone(sh: Shared) {
    && TableIds(sh) && sh.pendingConnects == map[] && sh.pendingPings == map[]
    && (forall g :: g in sh.connections ==> IsLatest(sh, g, sh.connections[g]) && !sh.conns[sh.connections[g]].closed)
    && (forall c :: 0 <= c < |sh.conns| ==> sh.conns[c].box.maxsize == sh.maxQueue
                                            && (sh.conns[c].box.exc.Some? ==> sh.conns[c].closed))
  }

  ghost predicate IsLatest(sh: Shared, g: Guid, c: ConnId) {
    && IsConn(sh, c) && sh.conns[c].guid == g
    && forall i :: c < i < |sh.conns| ==> sh.conns[i].guid != g
  }

  // ---- The independent description of one guid ----

  predicate Carries(e: Event, g: Guid) {
    (e.IncomingConnection? || e.Message? || e.Disconnected?) && e.guid == g
  }

  /** One event of the guid: a new object displaces the old one; a message is queued, or overflows the
      object; a disconnect closes it. */
  function ObjectStep(os: seq<Object>, maxQueue: Option<int>, e: Event): seq<Object> {
    match e
    case IncomingConnection(_, _) => Displaced(os) + [Object(false, true, Box([], None, maxQueue))]
    case Message(_, d) =>
      if os == [] || !os[|os| - 1].registered then os
      else if os[|os| - 1].box.Full() then Ended(os, QueueOverflow)
      else os[|os| - 1 := os[|os| - 1].(box := os[|os| - 1].box.Put(d))]
    case Disconnected(_, graceful) =>
      if os == [] || !os[|os| - 1].registered then os
      else Ended(os, if graceful then RemoteClose else ConnectionLost)
    case _ => os
  }

  function Displaced(os: seq<Object>): seq<Object> {
    if os == [] then os else os[|os| - 1 := os[|os| - 1].(registered := false)]
  }

  function Ended(os: seq<Object>, r: CloseReason): seq<Object>
    requires os != []
  {
    os[|os| - 1 := Object(true, false, os[|os| - 1].box.Close(r))]
  }

  function ObjectRun(maxQueue: Option<int>, es: seq<Event>, g: Guid): seq<Object> {
    if es == [] then []
    else
      var os := ObjectRun(maxQueue, es[..|es| - 1], g);
      if Carries(es[|es| - 1], g) then ObjectStep(os, maxQueue, es[|es| - 1]) else os
  }

  // ---- One callback, seen from one guid ----

  lemma {:induction false} ObjectsFrame(a: Shared, b: Shared, g: Guid, n: nat)
    requires n <= |a.conns| && n <= |b.conns|
    requires forall c :: 0 <= c < n ==> b.conns[c].guid == a.conns[c].guid
    requires forall c :: 0 <= c < n && a.conns[c].guid == g ==> View(b, c) == View(a, c)
    ensures Objects(b, g, n) == Objects(a, g, n)
  {
    if n > 0 {
      ObjectsFrame(a, b, g, n - 1);
    }
  }

  lemma {:induction false} NoLater(sh: Shared, g: Guid, c: nat, n: nat)
    requires c < n <= |sh.conns| && sh.conns[c].guid == g
    requires forall i :: c < i < n ==> sh.conns[i].guid != g
    ensures Objects(sh, g, n) == Objects(sh, g, c) + [View(sh, c)]
  {
    if n > c + 1 {
      NoLater(sh, g, c, n - 1);
    }
  }

  /** Only the latest object for g differs between a and b. */
  lemma LatestChanges(a: Shared, b: Shared, g: Guid, c: ConnId, n: nat)
    requires IsLatest(a, g, c) && n == |a.conns| <= |b.conns|
    requires forall i :: 0 <= i < n ==> b.conns[i].guid == a.conns[i].guid
    requires forall i :: 0 <= i < n && i != c && a.conns[i].guid == g ==> View(b, i) == View(a, i)
    ensures Objects(a, g, n) == Objects(a, g, c) + [View(a, c)]
    ensures Objects(b, g, n) == Objects(a, g, c) + [View(b, c)]
  {
    NoLater(a, g, c, n);
    NoLater(b, g, c, n);
    ObjectsFrame(a, b, g, c);
  }

  lemma {:induction false} NoneRegistered(sh: Shared, g: Guid, n: nat)
    requires n <= |sh.conns| && g !in sh.connections
    ensures forall i :: 0 <= i < |Objects(sh, g, n)| ==> !Objects(sh, g, n)[i].registered
  {
    if n > 0 {
      NoneRegistered(sh, g, n - 1);
    }
  }

  lemma IncomingObjects(sh: Shared, a: Address, g: Guid, h: Guid)
    requires Alone(sh)
    ensures var sh' := Deliver(sh, IncomingConnection(a, g));
            AllObjects(sh', h) == if h == g then ObjectStep(AllObjects(sh, g), sh.maxQueue, IncomingConnection(a, g))
                                  else AllObjects(sh, h)
  {
    DeliverIncoming(sh, a, g);
    var sh' := Enqueue(Register(sh, g, None), |sh.conns|);
    var n := |sh.conns|;
    assert AllObjects(sh', h) == Objects(sh', h, n) + (if h == g then [View(sh', n)] else []);
    if h == g {
      assert View(sh', n) == Object(false, true, Box([], None, sh.maxQueue));
      if g in sh.connections {
        LatestChanges(sh, sh', g, sh.connections[g], n);
      } else {
        NoneRegistered(sh, g, n);
        ObjectsFrame(sh, sh', g, n);
        assert Displaced(AllObjects(sh, g)) == AllObjects(sh, g);
      }
    } else {
      ObjectsFrame(sh, sh', h, n);
    }
  }

  /** sh' ends the object c of g, for reason r. */
  ghost predicate Ends(sh: Shared, sh': Shared, g: Guid, c: ConnId, r: CloseReason) {
    && IsLatest(sh, g, c) && |sh'.conns| == |sh.conns|
    && (forall i :: 0 <= i < |sh.conns| ==> sh'.conns[i].guid == sh.conns[i].guid)
    && (forall i :: 0 <= i < |sh.conns| && i != c ==> View(sh', i) == View(sh, i))
    && View(sh', c) == Object(true, false, sh.conns[c].box.Close(r))
  }

  lemma EndsObjects(sh: Shared, sh': Shared, g: Guid, c: ConnId, r: CloseReason, h: Guid)
    requires Ends(sh, sh', g, c, r)
    ensures AllObjects(sh, g) != []
    ensures AllObjects(sh', h) == if h == g then Ended(AllObjects(sh, g), r) else AllObjects(sh, h)
  {
    LatestChanges(sh, sh', g, c, |sh.conns|);
    if h != g {
      ObjectsFrame(sh, sh', h, |sh.conns|);
    }
  }

  lemma DisconnectedObjects(sh: Shared, g: Guid, graceful: bool, h: Guid)
    requires Alone(sh)
    ensures var sh' := Deliver(sh, Disconnected(g, graceful));
            AllObjects(sh', h) == if h == g then ObjectStep(AllObjects(sh, g), sh.maxQueue, Disconnected(g, graceful))
                                  else AllObjects(sh, h)
  {
    DeliverDisconnected(sh, g, graceful);
    var sh' := Deliver(sh, Disconnected(g, graceful));
    if g in sh.connections {
      var c := sh.connections[g];
      var r := if graceful then RemoteClose else ConnectionLost;
      assert Registered(sh, c);
      assert Ends(sh, sh', g, c, r);
      EndsObjects(sh, sh', g, c, r, h);
      LatestChanges(sh, sh', g, c, |sh.conns|);
    } else {
      NoneRegistered(sh, g, |sh.conns|);
      ObjectsFrame(sh, sh', h, |sh.conns|);
    }
  }

  lemma MessageObjects(sh: Shared, g: Guid, d: Bytes, h: Guid)
    requires Alone(sh)
    ensures var sh' := Deliver(sh, Message(g, d));
            AllObjects(sh', h) == if h == g then ObjectStep(AllObjects(sh, g), sh.maxQueue, Message(g, d))
                                  else AllObjects(sh, h)
  {
    if g in sh.connections {
      MessageHit(sh, g, d, h);
    } else {
      DeliverMessage(sh, g, d);
      NoneRegistered(sh, g, |sh.conns|);
      ObjectsFrame(sh, Deliver(sh, Message(g, d)), h, |sh.conns|);
    }
  }

  lemma MessageHit(sh: Shared, g: Guid, d: Bytes, h: Guid)
    requires Alone(sh) && g in sh.connections
    ensures var sh' := Deliver(sh, Message(g, d));
            AllObjects(sh', h) == if h == g then ObjectStep(AllObjects(sh, g), sh.maxQueue, Message(g, d))
                                  else AllObjects(sh, h)
  {
    DeliverMessage(sh, g, d);
    var c := sh.connections[g];
    if sh.conns[c].box.Full() {
      OverflowObjects(sh, g, d, h);
    } else {
      PutObjects(sh, g, d, h);
    }
  }

  lemma OverflowObjects(sh: Shared, g: Guid, d: Bytes, h: Guid)
    requires Alone(sh) && g in sh.connections && sh.conns[sh.connections[g]].box.Full()
    ensures var c := sh.connections[g];
            var sh' := Seal(MarkClosed(Evict(Offer(LookUp(sh, g, d), c, d), g), c), c, QueueOverflow);
            AllObjects(sh', h) == if h == g then ObjectStep(AllObjects(sh, g), sh.maxQueue, Message(g, d))
                                  else AllObjects(sh, h)
  {
    var c := sh.connections[g];
    var sh' := Seal(MarkClosed(Evict(Offer(LookUp(sh, g, d), c, d), g), c), c, QueueOverflow);
    assert Registered(sh, c);
    assert Ends(sh, sh', g, c, QueueOverflow);
    EndsObjects(sh, sh', g, c, QueueOverflow, h);
    LatestChanges(sh, sh', g, c, |sh.conns|);
  }

  lemma PutObjects(sh: Shared, g: Guid, d: Bytes, h: Guid)
    requires Alone(sh) && g in sh.connections && !sh.conns[sh.connections[g]].box.Full()
    ensures var sh' := Offer(LookUp(sh, g, d), sh.connections[g], d);
            AllObjects(sh', h) == if h == g then ObjectStep(AllObjects(sh, g), sh.maxQueue, Message(g, d))
                                  else AllObjects(sh, h)
  {
    var c := sh.connections[g];
    var sh' := Offer(LookUp(sh, g, d), c, d);
    assert Registered(sh, c) && Registered(sh', c);
    LatestChanges(sh, sh', g, c, |sh.conns|);
    if h != g {
      ObjectsFrame(sh, sh', h, |sh.conns|);
    }
  }

  /** The callbacks for connects and pings find nothing pending. */
  lemma DeliverOther(sh: Shared, e: Event)
    requires Alone(sh) && (e.ConnectSucceeded? || e.ConnectFailed? || e.PongReceived?)
    ensures Deliver(sh, e) == sh
  {
    EnterIds(sh, e);
    assert sh.pendingConnects - {e.address} == map[] && sh.pendingPings - {e.address} == map[];
    assert PumpStep(sh, Routing(e)) == (sh, AtCheck);
    assert Settle(sh, AtCheck) == sh;
  }

  lemma DeliverAlone(sh: Shared, e: Event)
    requires Alone(sh)
    ensures Alone(Deliver(sh, e)) && Deliver(sh, e).maxQueue == sh.maxQueue
  {
    match e
    case IncomingConnection(a, g) => DeliverIncoming(sh, a, g);
    case Message(g, d) => MessageAlone(sh, g, d);
    case Disconnected(g, graceful) => DisconnectedAlone(sh, g, graceful);
    case ConnectSucceeded(_, _) => DeliverOther(sh, e);
    case ConnectFailed(_, _) => DeliverOther(sh, e);
    case PongReceived(_, _, _) => DeliverOther(sh, e);
  }

  lemma MessageAlone(sh: Shared, g: Guid, d: Bytes)
    requires Alone(sh)
    ensures Alone(Deliver(sh, Message(g, d))) && Deliver(sh, Message(g, d)).maxQueue == sh.maxQueue
  {
    DeliverMessage(sh, g, d);
    OfferAlone(sh, g, d);
    if g in sh.connections && sh.conns[sh.connections[g]].box.Full() {
      var c := sh.connections[g];
      EndAlone(Offer(LookUp(sh, g, d), c, d), c, QueueOverflow);
    }
  }

  lemma OfferAlone(sh: Shared, g: Guid, d: Bytes)
    requires Alone(sh)
    ensures Alone(LookUp(sh, g, d))
    ensures g in sh.connections ==> Alone(Offer(LookUp(sh, g, d), sh.connections[g], d))
  {
    LookUpAlone(sh, g, d);
    if g in sh.connections {
      PutAlone(LookUp(sh, g, d), sh.connections[g], d);
    }
  }

  lemma LookUpAlone(sh: Shared, g: Guid, d: Bytes)
    requires Alone(sh)
    ensures Alone(LookUp(sh, g, d))
  {
  }

  lemma PutAlone(sh: Shared, c: ConnId, d: Bytes)
    requires Alone(sh) && IsConn(sh, c)
    ensures Alone(Offer(sh, c, d))
  {
  }

  lemma DisconnectedAlone(sh: Shared, g: Guid, graceful: bool)
    requires Alone(sh)
    ensures Alone(Deliver(sh, Disconnected(g, graceful)))
    ensures Deliver(sh, Disconnected(g, graceful)).maxQueue == sh.maxQueue
  {
    DeliverDisconnected(sh, g, graceful);
    if g in sh.connections {
      EndAlone(sh, sh.connections[g], if graceful then RemoteClose else ConnectionLost);
    }
  }

  lemma EndAlone(sh: Shared, c: ConnId, r: CloseReason)
    requires Alone(sh) && IsConn(sh, c)
    ensures var sh' := Seal(MarkClosed(Evict(sh, sh.conns[c].guid), c), c, r); Alone(sh') && sh'.maxQueue == sh.maxQueue
  {
  }

  lemma DeliverObjects(sh: Shared, e: Event, g: Guid)
    requires Alone(sh)
    ensures AllObjects(Deliver(sh, e), g) ==
            if Carries(e, g) then ObjectStep(AllObjects(sh, g), sh.maxQueue, e) else AllObjects(sh, g)
  {
    match e
    case IncomingConnection(a, h) => IncomingObjects(sh, a, h, g);
    case Message(h, d) => MessageObjects(sh, h, d, g);
    case Disconnected(h, graceful) => DisconnectedObjects(sh, h, graceful, g);
    case ConnectSucceeded(_, _) => DeliverOther(sh, e);
    case ConnectFailed(_, _) => DeliverOther(sh, e);
    case PongReceived(_, _, _) => DeliverOther(sh, e);
  }

  // ---- Lists of callbacks ----

  /** The objects of a guid are a function of the events that carry it. */
  lemma {:induction false} DeliverAllObjects(maxQueue: Option<int>, es: seq<Event>, g: Guid)
    ensures Alone(DeliverAll(Fresh(maxQueue), es)) && DeliverAll(Fresh(maxQueue), es).maxQueue == maxQueue
    ensures AllObjects(DeliverAll(Fresh(maxQueue), es), g) == ObjectRun(maxQueue, es, g)
  {
    if es != [] {
      var sh := DeliverAll(Fresh(maxQueue), es[..|es| - 1]);
      DeliverAllObjects(maxQueue, es[..|es| - 1], g);
      DeliverAlone(sh, es[|es| - 1]);
      DeliverObjects(sh, es[|es| - 1], g);
    }
  }

  // ---- Lists of packets ----

  /** The packets that carry g. */
  function Only(packets: seq<Packet>, g: Guid): seq<Packet> {
    if packets == [] then []
    else
      var p := packets[|packets| - 1];
      Only(packets[..|packets| - 1], g) + (if p.guid == g then [p] else [])
  }

  lemma ObjectRunAppend(maxQueue: Option<int>, es: seq<Event>, e: Event, g: Guid)
    ensures ObjectRun(maxQueue, es + [e], g) ==
            if Carries(e, g) then ObjectStep(ObjectRun(maxQueue, es, g), maxQueue, e) else ObjectRun(maxQueue, es, g)
  {
    assert (es + [e])[..|es|] == es;
  }

  lemma {:induction false} OnlyItsPackets(ids: Ids, maxQueue: Option<int>, packets: seq<Packet>, g: Guid)
    requires ids.Valid()
    ensures ObjectRun(maxQueue, Callbacks(ids, packets), g) == ObjectRun(maxQueue, Callbacks(ids, Only(packets, g)), g)
  {
    if packets != [] {
      var front, p := packets[..|packets| - 1], packets[|packets| - 1];
      var e := Route(ids, p);
      OnlyItsPackets(ids, maxQueue, front, g);
      RouteIsExact(ids, p);
      assert packets == front + [p];
      CallbacksAppend(ids, front, p);
      if e.Some? {
        ObjectRunAppend(maxQueue, Callbacks(ids, front), e.value, g);
      } else {
        assert Callbacks(ids, packets) == Callbacks(ids, front);
      }
      if p.guid == g {
        CallbacksAppend(ids, Only(front, g), p);
        if e.Some? {
          ObjectRunAppend(maxQueue, Callbacks(ids, Only(front, g)), e.value, g);
        } else {
          assert Callbacks(ids, Only(packets, g)) == Callbacks(ids, Only(front, g));
        }
      } else {
        assert Only(packets, g) == Only(front, g);
      }
    }
  }

  /** Routing any list of packets leaves every connection object of a guid, its flag, its registration,
      its mailbox and its close reason, exactly as routing only the packets that carry the guid. */
  lemma NonInterference(ids: Ids, maxQueue: Option<int>, packets: seq<Packet>, g: Guid)
    requires ids.Valid()
    ensures AllObjects(DeliverAll(Fresh(maxQueue), Callbacks(ids, packets)), g)
         == AllObjects(DeliverAll(Fresh(maxQueue), Callbacks(ids, Only(packets, g))), g)
  {
    DeliverAllObjects(maxQueue, Callbacks(ids, packets), g);
    DeliverAllObjects(maxQueue, Callbacks(ids, Only(packets, g)), g);
    OnlyItsPackets(ids, maxQueue, packets, g);
  }

  // ---- What the latest object holds, said outright ----

  /** The events of g after the last incoming connection of g, and whether there was one. */
  function SinceIncoming(es: seq<Event>, g: Guid): Option<seq<Event>> {
    if es == [] then None
    else
      var e := es[|es| - 1];
      var before := SinceIncoming(es[..|es| - 1], g);
      if !Carries(e, g) then before
      else if e.IncomingConnection? then Some([])
      else if before.Some? then Some(before.value + [e])
      else None
  }

  /** The messages up to the first disconnect. */
  function Payloads(es: seq<Event>): seq<Bytes> {
    if es == [] || es[0].Disconnected? then []
    else (if es[0].Message? then [es[0].data] else []) + Payloads(es[1..])
  }

  /** The reason of the first disconnect. */
  function Ending(es: seq<Event>): Option<CloseReason> {
    if es == [] then None
    else if es[0].Disconnected? then Some(if es[0].graceful then RemoteClose else ConnectionLost)
    else Ending(es[1..])
  }

  function Limit(maxQueue: Option<int>): nat
    requires maxQueue.Some?
  {
    if maxQueue.value < 0 then 0 else maxQueue.value
  }

  /** The mailbox after the events: all messages up to the first disconnect, which closes it; or, if they
      exceed the limit, the first of them, with an overflow. */
  function FinalBox(maxQueue: Option<int>, es: seq<Event>): Box {
    if maxQueue.Some? && |Payloads(es)| > Limit(maxQueue)
    then Box(Payloads(es)[..Limit(maxQueue)], Some(QueueOverflow), maxQueue)
    else Box(Payloads(es), Ending(es), maxQueue)
  }

  lemma {:induction false} FinalAppend(es: seq<Event>, e: Event)
    requires e.Message? || e.Disconnected?
    ensures Payloads(es + [e]) == Payloads(es) + (if Ending(es).None? && e.Message? then [e.data] else [])
    ensures Ending(es + [e]) == if Ending(es).Some? then Ending(es)
                                else if e.Disconnected? then Some(if e.graceful then RemoteClose else ConnectionLost)
                                else None
  {
    if es != [] {
      FinalAppend(es[1..], e);
      assert (es + [e])[1..] == es[1..] + [e];
    } else {
      assert (es + [e])[1..] == [];
    }
  }

  /** The newest object: its mailbox is FinalBox, and it is registered and open as long as that is open. */
  ghost predicate LatestIs(os: seq<Object>, box: Box) {
    os != [] && os[|os| - 1] == Object(box.exc.Some?, box.exc.None?, box)
  }

  lemma {:induction false} LatestObject(maxQueue: Option<int>, es: seq<Event>, g: Guid)
    ensures var tail := SinceIncoming(es, g);
            if tail.Some? then LatestIs(ObjectRun(maxQueue, es, g), FinalBox(maxQueue, tail.value))
            else ObjectRun(maxQueue, es, g) == []
  {
    if es != [] {
      var front, e := es[..|es| - 1], es[|es| - 1];
      LatestObject(maxQueue, front, g);
      var tail := SinceIncoming(front, g);
      if Carries(e, g) && !e.IncomingConnection? && tail.Some? {
        FinalAppend(tail.value, e);
        LatestStep(maxQueue, ObjectRun(maxQueue, front, g), tail.value, e);
      }
    }
  }

  lemma LatestStep(maxQueue: Option<int>, os: seq<Object>, tail: seq<Event>, e: Event)
    requires LatestIs(os, FinalBox(maxQueue, tail)) && (e.Message? || e.Disconnected?)
    ensures LatestIs(ObjectStep(os, maxQueue, e), FinalBox(maxQueue, tail + [e]))
  {
    FinalAppend(tail, e);
    if maxQueue.Some? && |Payloads(tail)| == Limit(maxQueue) && |Payloads(tail + [e])| > Limit(maxQueue) {
      assert Payloads(tail + [e])[..Limit(maxQueue)] == Payloads(tail);
    } else if maxQueue.Some? && |Payloads(tail)| > Limit(maxQueue) {
      assert Payloads(tail + [e])[..Limit(maxQueue)] == Payloads(tail)[..Limit(maxQueue)];
    }
  }

  /** After any list of packets, for any guid: if an incoming connection of it was routed, the newest
      object holds the messages since then, cut at the queue limit or at the first disconnect, and its
      close reason tells which; otherwise there is no object. */
  lemma DemuxMeetsSpec(ids: Ids, maxQueue: Option<int>, packets: seq<Packet>, g: Guid)
    requires ids.Valid()
    ensures var os := AllObjects(DeliverAll(Fresh(maxQueue), Callbacks(ids, packets)), g);
            var tail := SinceIncoming(Callbacks(ids, packets), g);
            if tail.Some? then LatestIs(os, FinalBox(maxQueue, tail.value)) else os == []
  {
    DeliverAllObjects(maxQueue, Callbacks(ids, packets), g);
    LatestObject(maxQueue, Callbacks(ids, packets), g);
  }
}
