/** Route calls that nothing interrupts: the pump's steps run back to back. */
module Sequential {
  import opened RakTypes
  import opened PeerState
  import opened Protocol
  import opened Coherence
  import opened Shutdown
  import opened Router

  lemma EnterIds(sh: Shared, e: Event)
    requires TableIds(sh)
    ensures var (sh', p') := Enter(sh, e); TableIds(sh') && PumpIds(sh', p')
  {
  }

  lemma PumpStepIds(sh: Shared, p: Pump)
    requires TableIds(sh) && PumpIds(sh, p)
    ensures var (sh', p') := PumpStep(sh, p); TableIds(sh') && PumpIds(sh', p')
  {
    if p.Routing? {
      EnterIds(sh, p.event);
    }
  }

  /** PumpRank bounds the steps a route call has left, also while the peer is open. */
  lemma PumpStepFalls(sh: Shared, p: Pump)
    requires TableIds(sh) && PumpIds(sh, p) && InRoute(p)
    ensures var p' := PumpStep(sh, p).1; PumpRank(p') < PumpRank(p) && (InRoute(p') || p' == AtCheck)
  {
  }

  /** The pump's steps until the callback returns. */
  function Settle(sh: Shared, p: Pump): (r: Shared)
    requires TableIds(sh) && PumpIds(sh, p) && (InRoute(p) || p == AtCheck)
    ensures TableIds(r)
    decreases PumpRank(p)
  {
    if p == AtCheck then sh
    else
      PumpStepIds(sh, p);
      PumpStepFalls(sh, p);
      Settle(PumpStep(sh, p).0, PumpStep(sh, p).1)
  }

  /** One whole sink callback. */
  function Deliver(sh: Shared, e: Event): (r: Shared)
    requires TableIds(sh)
    ensures TableIds(r)
  {
    Settle(sh, Routing(e))
  }

  /** A list of callbacks, in order. */
  function DeliverAll(sh: Shared, es: seq<Event>): (r: Shared)
    requires TableIds(sh)
    ensures TableIds(r)
  {
    if es == [] then sh else Deliver(DeliverAll(sh, es[..|es| - 1]), es[|es| - 1])
  }

  /** No callback closes the peer. */
  lemma {:induction false} SettleKeepsOpen(sh: Shared, p: Pump)
    requires TableIds(sh) && PumpIds(sh, p) && (InRoute(p) || p == AtCheck)
    ensures Settle(sh, p).closed == sh.closed
    decreases PumpRank(p)
  {
    if p != AtCheck {
      PumpStepIds(sh, p);
      PumpStepFalls(sh, p);
      PumpStepKind(sh, p);
      SettleKeepsOpen(PumpStep(sh, p).0, PumpStep(sh, p).1);
    }
  }

  // ---- What a whole callback does ----

  lemma DeliverIncoming(sh: Shared, a: Address, g: Guid)
    requires TableIds(sh)
    ensures Deliver(sh, IncomingConnection(a, g)) == Enqueue(Register(sh, g, None), |sh.conns|)
  {
    var sh1, p1 := Register(sh, g, None), Enqueueing(|sh.conns|);
    EnterIds(sh, IncomingConnection(a, g));
    assert Settle(Enqueue(sh1, |sh.conns|), AtCheck) == Enqueue(sh1, |sh.conns|);
    assert PumpStep(sh1, p1) == (Enqueue(sh1, |sh.conns|), AtCheck);
    assert Settle(sh1, p1) == Enqueue(sh1, |sh.conns|);
  }

  /** From Marking on: the flag, then the mailbox. */
  lemma SettleMarking(sh: Shared, c: ConnId, why: CloseReason)
    requires TableIds(sh) && IsConn(sh, c)
    ensures Settle(sh, Marking(c, why)) == Seal(MarkClosed(sh, c), c, why)
  {
    var sh1 := MarkClosed(sh, c);
    PumpStepIds(sh, Marking(c, why));
    assert PumpStep(sh, Marking(c, why)) == (sh1, Sealing(c, why));
    PumpStepIds(sh1, Sealing(c, why));
    assert PumpStep(sh1, Sealing(c, why)) == (Seal(sh1, c, why), AtCheck);
    assert Settle(Seal(sh1, c, why), AtCheck) == Seal(sh1, c, why);
    assert Settle(sh1, Sealing(c, why)) == Seal(sh1, c, why);
  }

  lemma DeliverDisconnected(sh: Shared, g: Guid, graceful: bool)
    requires TableIds(sh)
    ensures Deliver(sh, Disconnected(g, graceful)) ==
            if g !in sh.connections then Evict(sh, g)
            else
              var c := sh.connections[g];
              Seal(MarkClosed(Evict(sh, g), c), c, if graceful then RemoteClose else ConnectionLost)
  {
    EnterIds(sh, Disconnected(g, graceful));
    assert Settle(Evict(sh, g), AtCheck) == Evict(sh, g);
    if g in sh.connections {
      SettleMarking(Evict(sh, g), sh.connections[g], if graceful then RemoteClose else ConnectionLost);
    }
  }

  /** From Overflowing on. */
  lemma SettleOverflowing(sh: Shared, c: ConnId)
    requires TableIds(sh) && IsConn(sh, c)
    ensures Settle(sh, Overflowing(c)) == Seal(MarkClosed(Evict(sh, sh.conns[c].guid), c), c, QueueOverflow)
  {
    var sh1 := Evict(sh, sh.conns[c].guid);
    PumpStepIds(sh, Overflowing(c));
    assert PumpStep(sh, Overflowing(c)) == (sh1, Marking(c, QueueOverflow));
    SettleMarking(sh1, c, QueueOverflow);
    assert Settle(sh, Overflowing(c)) == Settle(sh1, Marking(c, QueueOverflow));
  }

  /** From Offering on. */
  lemma SettleOffering(sh: Shared, c: ConnId, d: Bytes)
    requires TableIds(sh) && IsConn(sh, c)
    ensures Settle(sh, Offering(c, d)) ==
            var sh' := Offer(sh, c, d);
            if sh.conns[c].box.Full() then Seal(MarkClosed(Evict(sh', sh.conns[c].guid), c), c, QueueOverflow) else sh'
  {
    var sh1 := Offer(sh, c, d);
    PumpStepIds(sh, Offering(c, d));
    if sh.conns[c].box.Full() {
      assert PumpStep(sh, Offering(c, d)) == (sh1, Overflowing(c));
      SettleOverflowing(sh1, c);
      assert sh1.conns[c].guid == sh.conns[c].guid;
      assert Settle(sh, Offering(c, d)) == Settle(sh1, Overflowing(c));
    } else {
      assert PumpStep(sh, Offering(c, d)) == (sh1, AtCheck);
      assert Settle(sh1, AtCheck) == sh1;
      assert Settle(sh, Offering(c, d)) == Settle(sh1, AtCheck);
    }
  }

  lemma DeliverMessage(sh: Shared, g: Guid, d: Bytes)
    requires TableIds(sh)
    ensures Deliver(sh, Message(g, d)) ==
            if g !in sh.connections then LookUp(sh, g, d)
            else
              var c := sh.connections[g];
              var sh' := Offer(LookUp(sh, g, d), c, d);
              if sh.conns[c].box.Full() then Seal(MarkClosed(Evict(sh', sh.conns[c].guid), c), c, QueueOverflow)
              else sh'
  {
    EnterIds(sh, Message(g, d));
    var sh1 := LookUp(sh, g, d);
    if g in sh.connections {
      var c := sh.connections[g];
      SettleOffering(sh1, c, d);
      assert sh1.conns[c].box == sh.conns[c].box && sh1.conns[c].guid == sh.conns[c].guid;
      assert Settle(sh, Routing(Message(g, d))) == Settle(sh1, Offering(c, d));
    } else {
      assert Settle(sh1, AtCheck) == sh1;
    }
  }

  lemma DeliverSucceeded(sh: Shared, k: Address, g: Guid)
    requires TableIds(sh)
    ensures Deliver(sh, ConnectSucceeded(k, g)) ==
            if k !in sh.pendingConnects then PopPending(sh, k)
            else
              var p := sh.pendingConnects[k];
              Signal(Attach(Register(PopPending(sh, k), g, Some(p)), p, |sh.conns|), p)
  {
    EnterIds(sh, ConnectSucceeded(k, g));
    var sh1 := PopPending(sh, k);
    if k in sh.pendingConnects {
      SettleEstablishing(sh1, sh.pendingConnects[k], g);
    } else {
      assert Settle(sh1, AtCheck) == sh1;
    }
  }

  /** From Establishing on. */
  lemma SettleEstablishing(sh: Shared, p: PendId, g: Guid)
    requires TableIds(sh) && IsPend(sh, p)
    ensures Settle(sh, Establishing(p, g)) == Signal(Attach(Register(sh, g, Some(p)), p, |sh.conns|), p)
  {
    var sh1 := Register(sh, g, Some(p));
    PumpStepIds(sh, Establishing(p, g));
    assert PumpStep(sh, Establishing(p, g)) == (sh1, Attaching(p, |sh.conns|));
    SettleAttaching(sh1, p, |sh.conns|);
    SettleOne(sh, Establishing(p, g));
  }

  /** One step of a callback. */
  lemma SettleOne(sh: Shared, p: Pump)
    requires TableIds(sh) && PumpIds(sh, p) && InRoute(p)
    ensures var (sh', p') := PumpStep(sh, p);
            TableIds(sh') && PumpIds(sh', p') && (InRoute(p') || p' == AtCheck) && Settle(sh, p) == Settle(sh', p')
  {
    PumpStepIds(sh, p);
    PumpStepFalls(sh, p);
  }

  lemma SettleAttaching(sh: Shared, p: PendId, c: ConnId)
    requires TableIds(sh) && IsPend(sh, p) && IsConn(sh, c)
    ensures Settle(sh, Attaching(p, c)) == Signal(Attach(sh, p, c), p)
  {
    PumpStepIds(sh, Attaching(p, c));
    assert PumpStep(sh, Attaching(p, c)) == (Attach(sh, p, c), Signalling(p));
    SettleSignalling(Attach(sh, p, c), p);
    assert Settle(sh, Attaching(p, c)) == Settle(Attach(sh, p, c), Signalling(p));
  }

  lemma SettleSignalling(sh: Shared, p: PendId)
    requires TableIds(sh) && IsPend(sh, p)
    ensures Settle(sh, Signalling(p)) == Signal(sh, p)
  {
    PumpStepIds(sh, Signalling(p));
    assert PumpStep(sh, Signalling(p)) == (Signal(sh, p), AtCheck);
    assert Settle(Signal(sh, p), AtCheck) == Signal(sh, p);
  }

  lemma DeliverFailed(sh: Shared, k: Address, f: ConnectFailure)
    requires TableIds(sh)
    ensures Deliver(sh, ConnectFailed(k, f)) ==
            if k !in sh.pendingConnects then PopPending(sh, k)
            else
              var p := sh.pendingConnects[k];
              Signal(Explain(PopPending(sh, k), p, f), p)
  {
    EnterIds(sh, ConnectFailed(k, f));
    var sh1 := PopPending(sh, k);
    assert Settle(sh1, AtCheck) == sh1;
    if k in sh.pendingConnects {
      var p := sh.pendingConnects[k];
      PumpStepIds(sh1, Explaining(p, f));
      SettleSignalling(Explain(sh1, p, f), p);
      assert PumpStep(sh1, Explaining(p, f)) == (Explain(sh1, p, f), Signalling(p));
      assert Settle(sh1, Explaining(p, f)) == Settle(Explain(sh1, p, f), Signalling(p));
    }
  }

  lemma DeliverPong(sh: Shared, k: Address, g: Guid, d: Bytes)
    requires TableIds(sh)
    ensures Deliver(sh, PongReceived(k, g, d)) ==
            if k !in sh.pendingPings then PopPing(sh, k)
            else
              var q := sh.pendingPings[k];
              Ring(AttachPong(PopPing(sh, k), q, Pong(k, g, d)), q)
  {
    EnterIds(sh, PongReceived(k, g, d));
    var sh1 := PopPing(sh, k);
    if k in sh.pendingPings {
      SettlePonging(sh1, sh.pendingPings[k], Pong(k, g, d));
    } else {
      assert Settle(sh1, AtCheck) == sh1;
    }
  }

  /** From Ponging on. */
  lemma SettlePonging(sh: Shared, q: PingId, pong: Pong)
    requires TableIds(sh) && IsPing(sh, q)
    ensures Settle(sh, Ponging(q, pong)) == Ring(AttachPong(sh, q, pong), q)
  {
    var sh1 := AttachPong(sh, q, pong);
    PumpStepIds(sh, Ponging(q, pong));
    assert PumpStep(sh, Ponging(q, pong)) == (sh1, RingingPing(q));
    SettleRinging(sh1, q);
    assert Settle(sh, Ponging(q, pong)) == Settle(sh1, RingingPing(q));
  }

  lemma SettleRinging(sh: Shared, q: PingId)
    requires TableIds(sh) && IsPing(sh, q)
    ensures Settle(sh, RingingPing(q)) == Ring(sh, q)
  {
    PumpStepIds(sh, RingingPing(q));
    assert PumpStep(sh, RingingPing(q)) == (Ring(sh, q), AtCheck);
    assert Settle(Ring(sh, q), AtCheck) == Ring(sh, q);
  }

  /** The callbacks a list of packets leads to. */
  function Callbacks(ids: Ids, packets: seq<Packet>): seq<Event> {
    if packets == [] then []
    else
      var e := Route(ids, packets[|packets| - 1]);
      Callbacks(ids, packets[..|packets| - 1]) + (if e.Some? then [e.value] else [])
  }

  lemma CallbacksAppend(ids: Ids, packets: seq<Packet>, p: Packet)
    ensures Callbacks(ids, packets + [p]) ==
            Callbacks(ids, packets) + (if Route(ids, p).Some? then [Route(ids, p).value] else [])
  {
    assert (packets + [p])[..|packets|] == packets;
  }

  lemma DeliverKeepsOpen(sh: Shared, e: Event)
    requires TableIds(sh)
    ensures Deliver(sh, e).closed == sh.closed
  {
    SettleKeepsOpen(sh, Routing(e));
  }

  /** The state after one more callback, if the packet leads to any. */
  function DeliverIfAny(sh: Shared, e: Option<Event>): (r: Shared)
    requires TableIds(sh)
    ensures TableIds(r)
  {
    if e.Some? then Deliver(sh, e.value) else sh
  }

  lemma DeliverNext(sh: Shared, ids: Ids, packets: seq<Packet>, p: Packet)
    requires TableIds(sh)
    ensures DeliverAll(sh, Callbacks(ids, packets + [p]))
         == DeliverIfAny(DeliverAll(sh, Callbacks(ids, packets)), Route(ids, p))
  {
    CallbacksAppend(ids, packets, p);
    var es := Callbacks(ids, packets);
    if Route(ids, p).Some? {
      assert (es + [Route(ids, p).value])[..|es|] == es;
    } else {
      assert Callbacks(ids, packets + [p]) == es;
    }
  }

  /** The pump loop, one packet on. */
  lemma NextPacket(start: Shared, ids: Ids, packets: seq<Packet>, i: nat)
    requires i < |packets| && TableIds(start)
    ensures DeliverAll(start, Callbacks(ids, packets[..i + 1]))
         == DeliverIfAny(DeliverAll(start, Callbacks(ids, packets[..i])), Route(ids, packets[i]))
  {
    assert packets[..i + 1] == packets[..i] + [packets[i]];
    DeliverNext(start, ids, packets[..i], packets[i]);
  }

  // ---- Uninterrupted callbacks are runs ----

  predicate PumpLabel(l: Label) {
    l.PumpGo? || l.PumpReceive?
  }

  /** From s the pump alone comes to t's shared state, with a callback over. */
  ghost predicate PumpComes(s: State, ls: seq<Label>, sh: Shared) {
    && IsRun(s, ls) && (forall i :: 0 <= i < |ls| ==> PumpLabel(ls[i]))
    && After(s, ls).sh == sh && After(s, ls).pump == AtCheck && Coherent(After(s, ls))
  }

  lemma PumpAhead(s: State, l: Label, rest: seq<Label>, sh: Shared) returns (ls: seq<Label>)
    requires Enabled(s, l) && PumpLabel(l) && PumpComes(Next(s, l), rest, sh)
    ensures PumpComes(s, ls, sh)
  {
    ls := [l] + rest;
    assert ls[1..] == rest;
  }

  /** A callback that is not interrupted is a run of the transition system, made of pump steps only, wherever
      the callers and the closer are meanwhile. */
  lemma {:induction false} SettleIsRun(s: State) returns (ls: seq<Label>)
    requires Coherent(s) && (InRoute(s.pump) || s.pump == AtCheck)
    ensures PumpComes(s, ls, Settle(s.sh, s.pump))
    decreases PumpRank(s.pump)
  {
    if s.pump == AtCheck {
      ls := [];
    } else {
      PumpStepIds(s.sh, s.pump);
      PumpStepFalls(s.sh, s.pump);
      StepCoherent(s, PumpGo);
      var s' := Next(s, PumpGo);
      assert Settle(s.sh, s.pump) == Settle(s'.sh, s'.pump);
      var rest := SettleIsRun(s');
      ls := PumpAhead(s, PumpGo, rest, Settle(s.sh, s.pump));
    }
  }

  /** One round of the pump loop on an open peer. */
  lemma RoundIsRun(s: State, e: Option<Event>) returns (ls: seq<Label>)
    requires Coherent(s) && s.pump == AtCheck && !s.sh.closed
    ensures PumpComes(s, ls, DeliverIfAny(s.sh, e))
  {
    var s1 := Next(s, PumpGo);
    var l := PumpReceive(Received.Packet(e));
    StepCoherent(s, PumpGo);
    StepCoherent(s1, l);
    var s2 := Next(s1, l);
    if e.Some? {
      ls := SettleIsRun(s2);
    } else {
      ls := [];
    }
    ls := PumpAhead(s1, l, ls, DeliverIfAny(s.sh, e));
    ls := PumpAhead(s, PumpGo, ls, DeliverIfAny(s.sh, e));
  }

  lemma PumpConcat(s: State, a: seq<Label>, t: State, b: seq<Label>, sh: Shared)
    requires IsRun(s, a) && After(s, a) == t && (forall i :: 0 <= i < |a| ==> PumpLabel(a[i]))
    requires PumpComes(t, b, sh)
    ensures PumpComes(s, a + b, sh)
  {
    RunConcat(s, a, b);
  }

  /** Routing any list of packets without interruption is a run of the concurrent system. */
  lemma {:induction false} DeliverAllIsRun(s: State, ids: Ids, packets: seq<Packet>) returns (ls: seq<Label>)
    requires Coherent(s) && s.pump == AtCheck && !s.sh.closed
    ensures PumpComes(s, ls, DeliverAll(s.sh, Callbacks(ids, packets)))
    decreases |packets|
  {
    if packets == [] {
      ls := [];
    } else {
      var front, p := packets[..|packets| - 1], packets[|packets| - 1];
      var a := DeliverAllIsRun(s, ids, front);
      var t := After(s, a);
      DeliverAllKeepsOpen(s.sh, Callbacks(ids, front));
      var b := RoundIsRun(t, Route(ids, p));
      DeliverNext(s.sh, ids, front, p);
      assert front + [p] == packets;
      PumpConcat(s, a, t, b, DeliverIfAny(t.sh, Route(ids, p)));
      ls := a + b;
    }
  }

  lemma {:induction false} DeliverAllKeepsOpen(sh: Shared, es: seq<Event>)
    requires TableIds(sh)
    ensures DeliverAll(sh, es).closed == sh.closed
  {
    if es != [] {
      DeliverAllKeepsOpen(sh, es[..|es| - 1]);
      DeliverKeepsOpen(DeliverAll(sh, es[..|es| - 1]), es[|es| - 1]);
    }
  }
}
