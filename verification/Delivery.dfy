/** Gap-free delivery: what recv hands out, against the user packets that arrived for the connection. */
module Delivery {
  import opened RakTypes
  import opened PeerState
  import opened Protocol
  import opened Coherence

  /** The user packets for one guid. */
  function Select(packets: seq<(Guid, Bytes)>, g: Guid): seq<Bytes> {
    if packets == [] then []
    else
      Select(packets[..|packets| - 1], g) + (if packets[|packets| - 1].0 == g then [packets[|packets| - 1].1] else [])
  }

  lemma SelectAppend(packets: seq<(Guid, Bytes)>, g: Guid, d: Bytes, h: Guid)
    ensures Select(packets + [(g, d)], h) == Select(packets, h) + (if g == h then [d] else [])
  {
    assert (packets + [(g, d)])[..|packets|] == packets;
  }

  /** The message the pump has looked up for c but not put yet. */
  function Flying(p: Pump, c: ConnId): seq<Bytes> {
    if p.Offering? && p.c == c then [p.data] else []
  }

  /** The messages c has got: received by the application, then still in its mailbox. */
  function Got(x: Conn): seq<Bytes> {
    x.delivered + x.box.items
  }

  /** Nothing is skipped: unless a put was refused, c got everything looked up for it, up to the message
      in flight. A refused message is the last one ever looked up. */
  ghost predicate NoGap(sh: Shared, p: Pump, c: ConnId)
    requires IsConn(sh, c)
  {
    var x := sh.conns[c];
    && (!x.refused ==> Got(x) + Flying(p, c) == x.offered)
    && (x.refused ==>
          && |x.offered| == |Got(x)| + 1 && Got(x) == x.offered[..|Got(x)|] && Flying(p, c) == []
          && (Registered(sh, c) ==> p == Overflowing(c)))
  }

  /** What is looked up is what arrived for the guid, from registration until c left the table. */
  ghost predicate FromWire(sh: Shared, c: ConnId)
    requires IsConn(sh, c)
  {
    var x := sh.conns[c];
    && x.since <= |sh.routed|
    && x.offered <= Select(sh.routed[x.since..], x.guid)
    && (Registered(sh, c) ==> x.offered == Select(sh.routed[x.since..], x.guid))
  }

  /** At most one put is accepted after the mailbox was closed. */
  ghost predicate OneLate(sh: Shared, p: Pump, c: ConnId)
    requires IsConn(sh, c)
  {
    var x := sh.conns[c];
    if x.box.exc.None? then x.late == 0 else x.late + |Flying(p, c)| <= 1
  }

  ghost predicate BoxOk(sh: Shared, p: Pump, c: ConnId)
    requires IsConn(sh, c)
  {
    && sh.conns[c].box.maxsize == sh.maxQueue && sh.conns[c].box.WithinLimit()
    && NoGap(sh, p, c) && FromWire(sh, c) && OneLate(sh, p, c)
  }

  ghost predicate Delivers(sh: Shared, p: Pump) {
    forall c :: 0 <= c < |sh.conns| ==> BoxOk(sh, p, c)
  }

  // ---- Frames: a step that leaves c alone ----

  ghost predicate Untouched(a: Shared, p: Pump, b: Shared, p': Pump, c: ConnId) {
    && c < |a.conns| <= |b.conns|
    && b.conns[c] == a.conns[c].(closed := b.conns[c].closed)
    && b.routed == a.routed && b.maxQueue == a.maxQueue
    && (!Registered(a, c) ==> !Registered(b, c))
    && Flying(p', c) == Flying(p, c)
    && (p == Overflowing(c) ==> p' == Overflowing(c) || !Registered(b, c))
  }

  lemma FrameOk(a: Shared, p: Pump, b: Shared, p': Pump, c: ConnId)
    requires IsConn(a, c) && BoxOk(a, p, c) && Untouched(a, p, b, p', c)
    ensures BoxOk(b, p', c)
  {
  }

  // ---- The steps that do not leave it alone ----

  lemma SealDelivers(a: Shared, p: Pump, c: ConnId, why: CloseReason)
    requires IsConn(a, c) && BoxOk(a, p, c)
    ensures BoxOk(Seal(a, c, why), p, c)
  {
  }

  lemma ReceiveDelivers(a: Shared, p: Pump, c: ConnId)
    requires IsConn(a, c) && BoxOk(a, p, c) && a.conns[c].box.items != []
    ensures BoxOk(Receive(a, c), p, c)
  {
    var x := a.conns[c];
    assert x.delivered + x.box.items == x.delivered + [x.box.items[0]] + x.box.items[1..];
  }

  lemma OfferDelivers(a: Shared, p: Pump, c: ConnId)
    requires IsConn(a, c) && BoxOk(a, p, c) && p.Offering? && p.c == c && TableOk(a)
    ensures var (b, p') := PumpStep(a, p); BoxOk(b, p', c)
  {
    var x := a.conns[c];
    assert x.delivered + (x.box.items + [p.data]) == Got(x) + [p.data];
  }

  lemma LookUpHit(a: Shared, p: Pump, g: Guid, d: Bytes)
    requires TableOk(a) && p == Routing(Message(g, d)) && g in a.connections && BoxOk(a, p, a.connections[g])
    ensures var (b, p') := PumpStep(a, p); BoxOk(b, p', a.connections[g])
  {
    var c := a.connections[g];
    var x := a.conns[c];
    var b := LookUp(a, g, d);
    assert Registered(a, c) && b.conns[c].guid == g;
    assert b.routed[x.since..] == a.routed[x.since..] + [(g, d)];
    SelectAppend(a.routed[x.since..], g, d, g);
  }

  /** One more packet on the wire, for a connection that does not get it. */
  lemma WireGrows(a: Shared, b: Shared, g: Guid, d: Bytes, c: ConnId)
    requires IsConn(a, c) && FromWire(a, c) && IsConn(b, c) && b.conns[c] == a.conns[c]
    requires b.connections == a.connections && b.routed == a.routed + [(g, d)]
    requires Registered(a, c) ==> a.conns[c].guid != g
    ensures FromWire(b, c)
  {
    var x := a.conns[c];
    assert b.routed[x.since..] == a.routed[x.since..] + [(g, d)];
    SelectAppend(a.routed[x.since..], g, d, x.guid);
  }

  lemma LookUpMiss(a: Shared, p: Pump, g: Guid, d: Bytes, c: ConnId)
    requires TableOk(a) && p == Routing(Message(g, d)) && IsConn(a, c) && BoxOk(a, p, c)
    requires g in a.connections ==> c != a.connections[g]
    ensures var (b, p') := PumpStep(a, p); BoxOk(b, p', c)
  {
    var (b, p') := PumpStep(a, p);
    assert b == LookUp(a, g, d);
    assert b.conns[c] == a.conns[c] && b.maxQueue == a.maxQueue;
    assert Flying(p, c) == [] && Flying(p', c) == [];
    assert FromWire(b, c) by { WireGrows(a, b, g, d, c); }
  }

  lemma LookUpDelivers(a: Shared, p: Pump, g: Guid, d: Bytes)
    requires TableOk(a) && Delivers(a, p) && p == Routing(Message(g, d))
    ensures var (b, p') := PumpStep(a, p); Delivers(b, p')
  {
    var (b, p') := PumpStep(a, p);
    forall c | 0 <= c < |b.conns| ensures BoxOk(b, p', c) {
      assert BoxOk(a, p, c);
      if g in a.connections && a.connections[g] == c {
        LookUpHit(a, p, g, d);
      } else {
        LookUpMiss(a, p, g, d, c);
      }
    }
  }

  lemma NewDelivers(a: Shared, g: Guid, origin: Option<PendId>, p': Pump)
    requires !p'.Offering?
    ensures BoxOk(Register(a, g, origin), p', |a.conns|)
  {
    assert Register(a, g, origin).routed[|a.routed|..] == [];
  }

  /** Every conn but the one named is left alone. */
  lemma RestDelivers(a: Shared, p: Pump, b: Shared, p': Pump, c: ConnId)
    requires Delivers(a, p) && |b.conns| == |a.conns|
    requires forall i :: 0 <= i < |a.conns| && i != c ==> Untouched(a, p, b, p', i)
    requires c < |b.conns| ==> BoxOk(b, p', c)
    ensures Delivers(b, p')
  {
    forall i | 0 <= i < |b.conns| ensures BoxOk(b, p', i) {
      if i != c {
        assert BoxOk(a, p, i);
        FrameOk(a, p, b, p', i);
      }
    }
  }

  lemma RegisterDelivers(a: Shared, p: Pump, g: Guid, origin: Option<PendId>, p': Pump)
    requires TableOk(a) && Delivers(a, p) && !p.Offering? && !p.Overflowing? && !p'.Offering?
    ensures Delivers(Register(a, g, origin), p')
  {
    var b := Register(a, g, origin);
    RegisterOk(a, g, origin);
    NewDelivers(a, g, origin, p');
    forall c | 0 <= c < |b.conns| ensures BoxOk(b, p', c) {
      if c < |a.conns| {
        assert BoxOk(a, p, c);
        assert Untouched(a, p, b, p', c);
        FrameOk(a, p, b, p', c);
      }
    }
  }

  /** The pump steps that change no connection but its closed flag. */
  predicate QuietPump(p: Pump) {
    && !p.Offering? && !p.Sealing? && !p.Establishing?
    && (p.Routing? ==> !p.event.Message? && !p.event.IncomingConnection?)
  }

  lemma QuietStep(a: Shared, p: Pump)
    requires TableIds(a) && PumpIds(a, p) && QuietPump(p)
    ensures var (b, p') := PumpStep(a, p);
            && b.routed == a.routed && b.maxQueue == a.maxQueue && |b.conns| == |a.conns| && !p'.Offering?
            && (forall c :: 0 <= c < |a.conns| ==> b.conns[c] == a.conns[c].(closed := b.conns[c].closed))
  {
  }

  lemma PumpQuiet(a: Shared, p: Pump)
    requires TableOk(a) && PumpOk(a, p) && Delivers(a, p) && QuietPump(p)
    ensures var (b, p') := PumpStep(a, p); Delivers(b, p')
  {
    var (b, p') := PumpStep(a, p);
    PumpStepOk(a, p);
    QuietStep(a, p);
    forall c | 0 <= c < |a.conns| ensures Untouched(a, p, b, p', c) {
      if p.Overflowing? {
        EvictOk(a, a.conns[p.c].guid);
      }
    }
    RestDelivers(a, p, b, p', |a.conns|);
  }

  lemma PumpDelivers(a: Shared, p: Pump)
    requires TableOk(a) && PumpOk(a, p) && Delivers(a, p)
    ensures var (b, p') := PumpStep(a, p); Delivers(b, p')
  {
    var (b, p') := PumpStep(a, p);
    if p.Routing? && p.event.Message? {
      LookUpDelivers(a, p, p.event.guid, p.event.data);
    } else if p.Routing? && p.event.IncomingConnection? {
      RegisterDelivers(a, p, p.event.guid, None, p');
    } else if p.Establishing? {
      RegisterDelivers(a, p, p.g, Some(p.p), p');
    } else if p.Offering? || p.Sealing? {
      PumpBoxDelivers(a, p);
    } else {
      PumpQuiet(a, p);
    }
  }

  lemma PumpBoxDelivers(a: Shared, p: Pump)
    requires TableOk(a) && PumpOk(a, p) && Delivers(a, p) && (p.Offering? || p.Sealing?)
    ensures var (b, p') := PumpStep(a, p); Delivers(b, p')
  {
    var (b, p') := PumpStep(a, p);
    assert BoxOk(a, p, p.c);
    if p.Offering? {
      OfferDelivers(a, p, p.c);
    } else {
      SealDelivers(a, p, p.c, p.why);
      assert BoxOk(b, p', p.c);
    }
    forall i | 0 <= i < |a.conns| && i != p.c ensures Untouched(a, p, b, p', i) {
      BoxUntouched(a, p, i);
    }
    RestDelivers(a, p, b, p', p.c);
  }

  lemma BoxUntouched(a: Shared, p: Pump, i: ConnId)
    requires TableIds(a) && PumpIds(a, p) && (p.Offering? || p.Sealing?) && IsConn(a, i) && i != p.c
    ensures var (b, p') := PumpStep(a, p); Untouched(a, p, b, p', i)
  {
  }

  /** The updates the closer and the application threads make. */
  lemma QuietDelivers(a: Shared, p: Pump, b: Shared)
    requires Delivers(a, p) && Evolves(a, b) && |a.conns| == |b.conns|
    requires b.routed == a.routed && b.maxQueue == a.maxQueue
    requires forall c :: 0 <= c < |a.conns| ==> b.conns[c] == a.conns[c].(closed := b.conns[c].closed)
    ensures Delivers(b, p)
  {
    RestDelivers(a, p, b, p, |a.conns|);
  }

  lemma SealQuietly(a: Shared, p: Pump, c: ConnId, why: CloseReason)
    requires TableOk(a) && Delivers(a, p) && IsConn(a, c)
    ensures Delivers(Seal(a, c, why), p)
  {
    assert BoxOk(a, p, c);
    SealDelivers(a, p, c, why);
    RestDelivers(a, p, Seal(a, c, why), p, c);
  }

  lemma AppDelivers(a: Shared, p: Pump, t: nat, x: App, ok: bool)
    requires TableOk(a) && AppOk(a, x) && Delivers(a, p) && (x.Accepting? && ok ==> a.acceptQueue != [])
    ensures Delivers(AppStep(a, t, x, ok).0, p)
  {
    if x.Shutting? {
      var a' := Seal(a, x.c, LocalClose);
      SealQuietly(a, p, x.c, LocalClose);
      ConnUpdateOk(a, x.c, a'.conns[x.c], a');
      ReapedOk(a', x.reap);
      QuietDelivers(a', p, Reaped(a', x.reap));
    } else {
      AppStepOk(a, t, x, ok);
      QuietDelivers(a, p, AppStep(a, t, x, ok).0);
    }
  }

  lemma CloserDelivers(s: State, pick: nat)
    requires Coherent(s) && CloserEnabled(s, pick) && Delivers(s.sh, s.pump)
    ensures var s' := CloserNext(s, pick); Delivers(s'.sh, s.pump)
  {
    CloserStepOk(s, pick);
    if s.closer.SealConn? {
      SealQuietly(s.sh, s.pump, s.closer.c, PeerReason(s));
    } else {
      QuietDelivers(s.sh, s.pump, CloserNext(s, pick).sh);
    }
  }

  /** A change of the pump's program counter that moves no message. */
  lemma PumpMoves(a: Shared, p: Pump, b: Shared, p': Pump)
    requires Delivers(a, p) && Evolves(a, b) && b.conns == a.conns && b.routed == a.routed && b.maxQueue == a.maxQueue
    requires !p.Offering? && !p'.Offering? && !p.Overflowing?
    ensures Delivers(b, p')
  {
    RestDelivers(a, p, b, p', |a.conns|);
  }

  lemma PumpGoDelivers(s: State)
    requires Coherent(s) && Delivers(s.sh, s.pump) && Enabled(s, PumpGo)
    ensures var s' := PumpNext(s); Delivers(s'.sh, s'.pump)
  {
    if s.pump == Crashed {
      PumpGoOk(s);
      PumpMoves(s.sh, s.pump, PumpNext(s).sh, PumpNext(s).pump);
    } else {
      PumpDelivers(s.sh, s.pump);
    }
  }

  lemma CloserGoDelivers(s: State, pick: nat)
    requires Coherent(s) && Delivers(s.sh, s.pump) && CloserEnabled(s, pick)
    ensures var s' := CloserNext(s, pick); Delivers(s'.sh, s'.pump)
  {
    var s' := CloserNext(s, pick);
    CloserDelivers(s, pick);
    if s.pump == Finishing && s'.pump == Stopped {
      PumpMoves(s'.sh, s.pump, s'.sh, s'.pump);
    }
  }

  lemma StepDelivers(s: State, l: Label)
    requires Coherent(s) && Delivers(s.sh, s.pump) && Enabled(s, l)
    ensures var s' := Next(s, l); Delivers(s'.sh, s'.pump)
  {
    var s' := Next(s, l);
    StepCoherent(s, l);
    match l
    case PumpGo => PumpGoDelivers(s);
    case PumpReceive(_) => PumpMoves(s.sh, s.pump, s'.sh, s'.pump);
    case CloserGo(pick) => CloserGoDelivers(s, pick);
    case Begin(_, _) =>
    case AppGo(t, ok) =>
      if s.threads[t] == ClosingPeer {
        QuietDelivers(s.sh, s.pump, s'.sh);
      } else {
        AppDelivers(s.sh, s.pump, t, s.threads[t], ok);
      }
    case Recv(c) =>
      assert BoxOk(s.sh, s.pump, c);
      ReceiveDelivers(s.sh, s.pump, c);
      RestDelivers(s.sh, s.pump, s'.sh, s.pump, c);
  }

  lemma {:induction false} AlwaysDelivers(s: State, ls: seq<Label>)
    requires Coherent(s) && Delivers(s.sh, s.pump) && IsRun(s, ls)
    ensures var s' := After(s, ls); Delivers(s'.sh, s'.pump)
    decreases |ls|
  {
    if ls != [] {
      StepDelivers(s, ls[0]);
      StepCoherent(s, ls[0]);
      AlwaysDelivers(Next(s, ls[0]), ls[1..]);
    }
  }

  /** In every interleaving, for every connection object: what recv has returned followed by what its
      mailbox holds is a gap-free prefix of the user packets that arrived for its guid since it was
      registered; it misses at most one of those looked up for it, and that one only if its put was
      refused or is in progress; at most one message gets in after the mailbox was closed; and the
      mailbox stays within max_queue. */
  lemma GapFreeDelivery(s: State, ls: seq<Label>, c: ConnId)
    requires Initial(s) && IsRun(s, ls) && IsConn(After(s, ls).sh, c)
    ensures var sh := After(s, ls).sh;
            var x := sh.conns[c];
            && x.since <= |sh.routed|
            && x.delivered + x.box.items <= Select(sh.routed[x.since..], x.guid)
            && |x.offered| <= |x.delivered + x.box.items| + 1
            && (x.delivered + x.box.items != x.offered ==>
                  x.refused || (After(s, ls).pump.Offering? && After(s, ls).pump.c == c))
            && (Registered(sh, c) && !After(s, ls).pump.Offering? && !After(s, ls).pump.Overflowing? ==>
                  x.delivered + x.box.items == Select(sh.routed[x.since..], x.guid))
            && x.late <= 1
            && x.box.maxsize == s.sh.maxQueue && x.box.WithinLimit()
  {
    InitialCoherent(s);
    AlwaysDelivers(s, ls);
    AlwaysCoherent(s, ls);
    var s' := After(s, ls);
    assert BoxOk(s'.sh, s'.pump, c);
  }

  /** Once a put on a connection was refused, nothing more is ever looked up for it or put on it. */
  lemma {:induction false} RefusedIsFinal(s: State, ls: seq<Label>, c: ConnId)
    requires Coherent(s) && Delivers(s.sh, s.pump) && IsRun(s, ls)
    requires IsConn(s.sh, c) && s.sh.conns[c].refused
    ensures IsConn(After(s, ls).sh, c)
    ensures var x := After(s, ls).sh.conns[c];
            x.offered == s.sh.conns[c].offered && Got(x) == Got(s.sh.conns[c])
    decreases |ls|
  {
    if ls != [] {
      var s' := Next(s, ls[0]);
      StepCoherent(s, ls[0]);
      StepDelivers(s, ls[0]);
      RefusedStep(s, ls[0], c);
      RefusedIsFinal(s', ls[1..], c);
    }
  }

  predicate SameMessages(x: Conn, y: Conn) {
    y.refused == x.refused && y.offered == x.offered && Got(y) == Got(x)
  }

  lemma PumpRefused(sh: Shared, p: Pump, c: ConnId)
    requires TableOk(sh) && PumpOk(sh, p) && IsConn(sh, c) && BoxOk(sh, p, c) && sh.conns[c].refused
    ensures var sh' := PumpStep(sh, p).0; IsConn(sh', c) && SameMessages(sh.conns[c], sh'.conns[c])
  {
    if p.Routing? {
      assert !Registered(sh, c);
      EnterRefused(sh, p.event, c);
    }
  }

  lemma EnterRefused(sh: Shared, e: Event, c: ConnId)
    requires TableOk(sh) && IsConn(sh, c) && !Registered(sh, c)
    ensures var sh' := Enter(sh, e).0; IsConn(sh', c) && sh'.conns[c] == sh.conns[c]
  {
  }

  lemma RefusedStep(s: State, l: Label, c: ConnId)
    requires Coherent(s) && Delivers(s.sh, s.pump) && Enabled(s, l)
    requires IsConn(s.sh, c) && s.sh.conns[c].refused
    ensures var sh' := Next(s, l).sh; IsConn(sh', c) && SameMessages(s.sh.conns[c], sh'.conns[c])
  {
    match l
    case PumpGo =>
      if s.pump != Crashed {
        assert BoxOk(s.sh, s.pump, c);
        PumpRefused(s.sh, s.pump, c);
      }
    case PumpReceive(_) =>
    case CloserGo(pick) => CloserSameMessages(s, pick, c);
    case Begin(_, _) =>
    case AppGo(t, ok) =>
      if s.threads[t] != ClosingPeer {
        AppSameMessages(s.sh, t, s.threads[t], ok, c);
      }
    case Recv(d) => ReceiveSameMessages(s.sh, d, c);
  }

  lemma CloserSameMessages(s: State, pick: nat, c: ConnId)
    requires Coherent(s) && CloserEnabled(s, pick) && IsConn(s.sh, c)
    ensures var sh' := CloserNext(s, pick).sh; IsConn(sh', c) && SameMessages(s.sh.conns[c], sh'.conns[c])
  {
  }

  lemma ReceiveSameMessages(sh: Shared, d: ConnId, c: ConnId)
    requires IsConn(sh, d) && sh.conns[d].box.items != [] && IsConn(sh, c)
    ensures SameMessages(sh.conns[c], Receive(sh, d).conns[c])
  {
    var x := sh.conns[d];
    assert x.delivered + x.box.items == x.delivered + [x.box.items[0]] + x.box.items[1..];
  }

  lemma AppSameMessages(sh: Shared, t: nat, a: App, ok: bool, c: ConnId)
    requires TableOk(sh) && AppOk(sh, a) && (a.Accepting? && ok ==> sh.acceptQueue != []) && IsConn(sh, c)
    ensures var sh' := AppStep(sh, t, a, ok).0; IsConn(sh', c) && SameMessages(sh.conns[c], sh'.conns[c])
  {
  }
}
