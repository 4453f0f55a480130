/** Registration coherence: what the connection table and the per-connection flags say about each other
    in every reachable state, and what never changes back. */
module Coherence {
  import opened RakTypes
  import opened PeerState
  import opened Protocol

  /** A registered connection has the guid it is registered under and is not closed; a mailbox with an
      exception belongs to a closed connection. */
  ghost predicate TableOk(sh: Shared) {
    && TableIds(sh)
    && (forall g :: g in sh.connections ==>
          sh.conns[sh.connections[g]].guid == g && !sh.conns[sh.connections[g]].closed)
    && (forall c :: 0 <= c < |sh.conns| && sh.conns[c].box.exc.Some? ==> sh.conns[c].closed)
    && (forall p :: 0 <= p < |sh.pends| && sh.pends[p].connection.Some? ==> IsConn(sh, sh.pends[p].connection.value))
  }

  predicate Unregistered(sh: Shared, c: ConnId) {
    IsConn(sh, c) && !Registered(sh, c)
  }

  predicate AllUnregistered(sh: Shared, cs: set<ConnId>) {
    forall c :: c in cs ==> Unregistered(sh, c)
  }

  predicate IsClosed(sh: Shared, c: ConnId) {
    IsConn(sh, c) && sh.conns[c].closed
  }

  predicate PumpOk(sh: Shared, p: Pump) {
    && PumpIds(sh, p)
    && (p.Marking? ==> Unregistered(sh, p.c))
    && (p.Sealing? ==> IsClosed(sh, p.c))
  }

  predicate CloserOk(sh: Shared, k: Closer) {
    && CloserIds(sh, k)
    && (k.MarkConns? ==> AllUnregistered(sh, k.conns))
    && (k.SealConn? ==> IsClosed(sh, k.c) && AllUnregistered(sh, k.conns))
  }

  predicate AppOk(sh: Shared, a: App) {
    && AppIds(sh, a)
    && (a.Flagging? ==> Unregistered(sh, a.c))
    && (a.Shutting? ==> IsClosed(sh, a.c))
  }

  ghost predicate Coherent(s: State) {
    && WellFormed(s)
    && TableOk(s.sh) && PumpOk(s.sh, s.pump) && CloserOk(s.sh, s.closer)
    && AllUnregistered(s.sh, s.snap.conns)
    && (forall t :: 0 <= t < |s.threads| ==> AppOk(s.sh, s.threads[t]))
  }

  // ---- What only ever moves one way ----

  predicate ConnEvolves(a: Conn, b: Conn) {
    && b.guid == a.guid && b.origin == a.origin && b.since == a.since
    && (a.closed ==> b.closed)
    && (a.box.exc.Some? ==> b.box.exc == a.box.exc)
    && a.offered <= b.offered && a.delivered <= b.delivered
    && (a.refused ==> b.refused)
  }

  predicate PendEvolves(a: Pending, b: Pending) {
    && b.key == a.key && b.caller == a.caller
    && (a.event ==> b.event) && (a.timedOut ==> b.timedOut)
  }

  predicate PingEvolves(a: PendingPing, b: PendingPing) {
    b.key == a.key && (a.event ==> b.event)
  }

  /** Identities stay, flags are only set, the first close exception stands, logs only grow, and a
      connection that has left the table never comes back. */
  ghost predicate Evolves(a: Shared, b: Shared) {
    && b.maxQueue == a.maxQueue && (a.closed ==> b.closed)
    && |a.conns| <= |b.conns| && |a.pends| <= |b.pends| && |a.pings| <= |b.pings|
    && (forall c :: 0 <= c < |a.conns| ==> ConnEvolves(a.conns[c], b.conns[c]))
    && (forall c :: 0 <= c < |a.conns| && !Registered(a, c) ==> !Registered(b, c))
    && (forall p :: 0 <= p < |a.pends| ==> PendEvolves(a.pends[p], b.pends[p]))
    && (forall q :: 0 <= q < |a.pings| ==> PingEvolves(a.pings[q], b.pings[q]))
    && a.routed <= b.routed && a.arrived <= b.arrived && a.accepted <= b.accepted
  }

  lemma EvolvesTransitive(a: Shared, b: Shared, c: Shared)
    requires Evolves(a, b) && Evolves(b, c)
    ensures Evolves(a, c)
  {
    forall i | 0 <= i < |a.conns|
      ensures ConnEvolves(a.conns[i], c.conns[i])
      ensures !Registered(a, i) ==> !Registered(c, i)
    {
      assert ConnEvolves(a.conns[i], b.conns[i]) && ConnEvolves(b.conns[i], c.conns[i]);
    }
    forall i | 0 <= i < |a.pends|
      ensures PendEvolves(a.pends[i], c.pends[i])
    {
      assert PendEvolves(a.pends[i], b.pends[i]) && PendEvolves(b.pends[i], c.pends[i]);
    }
    forall i | 0 <= i < |a.pings|
      ensures PingEvolves(a.pings[i], c.pings[i])
    {
      assert PingEvolves(a.pings[i], b.pings[i]) && PingEvolves(b.pings[i], c.pings[i]);
    }
  }

  // ---- What a thread knows survives the steps of the others ----

  lemma FactsKeep(a: Shared, b: Shared, c: ConnId)
    requires Evolves(a, b)
    ensures IsClosed(a, c) ==> IsClosed(b, c)
    ensures Unregistered(a, c) ==> Unregistered(b, c)
  {
    if IsConn(a, c) {
      assert ConnEvolves(a.conns[c], b.conns[c]);
    }
  }

  lemma SetsKeep(a: Shared, b: Shared, cs: set<ConnId>)
    requires Evolves(a, b) && AllUnregistered(a, cs)
    ensures AllUnregistered(b, cs)
  {
    forall c | c in cs ensures Unregistered(b, c) {
      FactsKeep(a, b, c);
    }
  }

  lemma PumpKeeps(a: Shared, b: Shared, p: Pump)
    requires Evolves(a, b) && PumpOk(a, p)
    ensures PumpOk(b, p)
  {
    if p.Marking? || p.Sealing? {
      FactsKeep(a, b, p.c);
    }
  }

  lemma CloserKeeps(a: Shared, b: Shared, k: Closer)
    requires Evolves(a, b) && CloserOk(a, k)
    ensures CloserOk(b, k)
  {
    if k.MarkConns? {
      SetsKeep(a, b, k.conns);
    } else if k.SealConn? {
      SetsKeep(a, b, k.conns);
      FactsKeep(a, b, k.c);
    }
  }

  lemma AppKeeps(a: Shared, b: Shared, x: App)
    requires Evolves(a, b) && TableOk(b) && AppOk(a, x)
    ensures AppOk(b, x)
  {
    if x.Flagging? || x.Shutting? {
      FactsKeep(a, b, x.c);
    }
  }

  lemma ThreadsKeep(a: Shared, b: Shared, xs: seq<App>)
    requires Evolves(a, b) && TableOk(b)
    requires forall t :: 0 <= t < |xs| ==> AppOk(a, xs[t])
    ensures forall t :: 0 <= t < |xs| ==> AppOk(b, xs[t])
  {
    forall t | 0 <= t < |xs| ensures AppOk(b, xs[t]) {
      AppKeeps(a, b, xs[t]);
    }
  }

  // ---- The atomic updates ----

  /** a and b agree on everything but the tables, the peer flag, the queue and the pings. */
  ghost predicate SameObjects(a: Shared, b: Shared) {
    && a.conns == b.conns && a.pends == b.pends && |a.pings| <= |b.pings|
    && (forall q :: 0 <= q < |a.pings| ==> PingEvolves(a.pings[q], b.pings[q]))
    && a.routed == b.routed && a.arrived <= b.arrived && a.accepted <= b.accepted
    && b.maxQueue == a.maxQueue && (a.closed ==> b.closed)
  }

  lemma TableUpdateOk(a: Shared, b: Shared)
    requires TableOk(a) && SameObjects(a, b)
    requires forall g :: g in b.connections ==> g in a.connections && b.connections[g] == a.connections[g]
    requires TableIds(b)
    ensures TableOk(b) && Evolves(a, b)
  {
  }

  lemma ConnUpdateOk(a: Shared, c: ConnId, x: Conn, b: Shared)
    requires TableOk(a) && IsConn(a, c)
    requires b == a.(conns := a.conns[c := x]) || b == a.(conns := a.conns[c := x], routed := b.routed)
    requires a.routed <= b.routed
    requires ConnEvolves(a.conns[c], x) && (x.box.exc.Some? ==> x.closed)
    requires Registered(a, c) ==> !x.closed
    ensures TableOk(b) && Evolves(a, b)
  {
    forall i | 0 <= i < |a.conns| && !Registered(a, i)
      ensures !Registered(b, i)
    {
      assert b.conns[i].guid == a.conns[i].guid;
    }
    forall g | g in b.connections
      ensures b.conns[b.connections[g]].guid == g && !b.conns[b.connections[g]].closed
    {
      assert a.conns[a.connections[g]].guid == g;
    }
  }

  lemma PendUpdateOk(a: Shared, p: PendId, x: Pending)
    requires TableOk(a) && IsPend(a, p)
    requires PendEvolves(a.pends[p], x) && (x.connection.Some? ==> IsConn(a, x.connection.value))
    ensures var b := a.(pends := a.pends[p := x]); TableOk(b) && Evolves(a, b)
  {
  }

  lemma RegisterOk(a: Shared, g: Guid, origin: Option<PendId>)
    requires TableOk(a)
    ensures var b := Register(a, g, origin); TableOk(b) && Evolves(a, b)
  {
  }

  lemma AddPendingOk(a: Shared, k: Address, caller: nat)
    requires TableOk(a)
    ensures var b := AddPending(a, k, caller); TableOk(b) && Evolves(a, b)
  {
  }

  /** What evicting a guid leaves behind. */
  lemma EvictOk(a: Shared, g: Guid)
    requires TableOk(a)
    ensures var b := Evict(a, g);
            && TableOk(b) && Evolves(a, b)
            && (forall c :: 0 <= c < |a.conns| && a.conns[c].guid == g ==> Unregistered(b, c))
  {
    TableUpdateOk(a, Evict(a, g));
  }

  lemma LookUpOk(sh: Shared, g: Guid, d: Bytes)
    requires TableOk(sh)
    ensures TableOk(LookUp(sh, g, d)) && Evolves(sh, LookUp(sh, g, d))
  {
    if g in sh.connections {
      var c := sh.connections[g];
      ConnUpdateOk(sh, c, sh.conns[c].(offered := sh.conns[c].offered + [d]), LookUp(sh, g, d));
    }
  }

  lemma EnterOk(sh: Shared, e: Event)
    requires TableOk(sh)
    ensures var (sh', p') := Enter(sh, e); TableOk(sh') && PumpOk(sh', p') && Evolves(sh, sh')
  {
    match e
    case IncomingConnection(_, g) => RegisterOk(sh, g, None);
    case ConnectSucceeded(k, _) => TableUpdateOk(sh, PopPending(sh, k));
    case ConnectFailed(k, _) => TableUpdateOk(sh, PopPending(sh, k));
    case Message(g, d) => LookUpOk(sh, g, d);
    case Disconnected(g, _) => EvictOk(sh, g);
    case PongReceived(k, _, _) => TableUpdateOk(sh, PopPing(sh, k));
  }

  lemma OfferingOk(sh: Shared, c: ConnId, d: Bytes)
    requires TableOk(sh) && IsConn(sh, c)
    ensures TableOk(Offer(sh, c, d)) && Evolves(sh, Offer(sh, c, d))
  {
    ConnUpdateOk(sh, c, Offer(sh, c, d).conns[c], Offer(sh, c, d));
  }

  lemma MarkOk(sh: Shared, c: ConnId)
    requires TableOk(sh) && Unregistered(sh, c)
    ensures var b := MarkClosed(sh, c); TableOk(b) && Evolves(sh, b) && IsClosed(b, c)
  {
    ConnUpdateOk(sh, c, sh.conns[c].(closed := true), MarkClosed(sh, c));
  }

  lemma SealOk(sh: Shared, c: ConnId, why: CloseReason)
    requires TableOk(sh) && IsClosed(sh, c)
    ensures TableOk(Seal(sh, c, why)) && Evolves(sh, Seal(sh, c, why))
  {
    ConnUpdateOk(sh, c, Seal(sh, c, why).conns[c], Seal(sh, c, why));
  }

  lemma PumpConnStepOk(sh: Shared, p: Pump)
    requires TableOk(sh) && PumpOk(sh, p) && (p.Offering? || p.Overflowing? || p.Marking? || p.Sealing?)
    ensures var (sh', p') := PumpStep(sh, p); TableOk(sh') && PumpOk(sh', p') && Evolves(sh, sh')
  {
    match p
    case Offering(c, d) => OfferingOk(sh, c, d);
    case Overflowing(c) => EvictOk(sh, sh.conns[c].guid);
    case Marking(c, _) => MarkOk(sh, c);
    case Sealing(c, why) => SealOk(sh, c, why);
  }

  lemma PumpPendStepOk(sh: Shared, p: Pump)
    requires TableOk(sh) && PumpOk(sh, p) && (p.Establishing? || p.Attaching? || p.Explaining? || p.Signalling?)
    ensures var (sh', p') := PumpStep(sh, p); TableOk(sh') && PumpOk(sh', p') && Evolves(sh, sh')
  {
    match p
    case Establishing(q, g) => RegisterOk(sh, g, Some(q));
    case Attaching(q, c) => PendUpdateOk(sh, q, sh.pends[q].(connection := Some(c)));
    case Explaining(q, f) => PendUpdateOk(sh, q, sh.pends[q].(reason := Some(f)));
    case Signalling(q) => PendUpdateOk(sh, q, sh.pends[q].(event := true));
  }

  lemma PumpStepOk(sh: Shared, p: Pump)
    requires TableOk(sh) && PumpOk(sh, p)
    ensures var (sh', p') := PumpStep(sh, p); TableOk(sh') && PumpOk(sh', p') && Evolves(sh, sh')
  {
    if p.Routing? {
      EnterOk(sh, p.event);
    } else if p.Offering? || p.Overflowing? || p.Marking? || p.Sealing? {
      PumpConnStepOk(sh, p);
    } else if p.Establishing? || p.Attaching? || p.Explaining? || p.Signalling? {
      PumpPendStepOk(sh, p);
    } else {
      TableUpdateOk(sh, PumpStep(sh, p).0);
    }
  }

  lemma ReapedOk(sh: Shared, reap: Option<PendId>)
    requires TableOk(sh) && (reap.Some? ==> IsPend(sh, reap.value))
    ensures TableOk(Reaped(sh, reap)) && Evolves(sh, Reaped(sh, reap))
  {
    if reap.Some? {
      PendUpdateOk(sh, reap.value, sh.pends[reap.value].(timedOut := true));
    }
  }

  lemma AbandonOk(sh: Shared, k: Address, p: PendId)
    requires TableOk(sh) && IsPend(sh, p)
    ensures var b := PopPending(sh, k); TableOk(b) && Evolves(sh, b)
    ensures var b := TimeOut(PopPending(sh, k), p); TableOk(b) && Evolves(sh, b)
  {
    TableUpdateOk(sh, PopPending(sh, k));
    PendUpdateOk(PopPending(sh, k), p, sh.pends[p].(timedOut := true));
  }

  lemma AppConnectStepOk(sh: Shared, t: nat, a: App, ok: bool)
    requires TableOk(sh) && AppOk(sh, a) && (a.Connecting? || a.Abandoning?)
    ensures var (sh', a') := AppStep(sh, t, a, ok); TableOk(sh') && AppOk(sh', a') && Evolves(sh, sh')
  {
    if a.Abandoning? {
      AbandonOk(sh, a.k, a.p);
    } else if !sh.closed {
      AddPendingOk(sh, a.k, t);
    }
  }

  lemma AppReapStepOk(sh: Shared, t: nat, a: App, ok: bool)
    requires TableOk(sh) && AppOk(sh, a) && (a.Reaping? || a.Testing?)
    ensures var (sh', a') := AppStep(sh, t, a, ok); TableOk(sh') && AppOk(sh', a') && Evolves(sh, sh')
  {
    ReapedOk(sh, if a.Reaping? then Some(a.p) else a.reap);
  }

  lemma AppShutStepOk(sh: Shared, t: nat, a: App, ok: bool)
    requires TableOk(sh) && AppOk(sh, a) && a.Shutting?
    ensures var (sh', a') := AppStep(sh, t, a, ok); TableOk(sh') && AppOk(sh', a') && Evolves(sh, sh')
  {
    var sh' := Seal(sh, a.c, LocalClose);
    SealOk(sh, a.c, LocalClose);
    ReapedOk(sh', a.reap);
    EvolvesTransitive(sh, sh', Reaped(sh', a.reap));
  }

  lemma AppCloseStepOk(sh: Shared, t: nat, a: App, ok: bool)
    requires TableOk(sh) && AppOk(sh, a) && (a.Dropping? || a.Flagging?)
    ensures var (sh', a') := AppStep(sh, t, a, ok); TableOk(sh') && AppOk(sh', a') && Evolves(sh, sh')
  {
    if a.Dropping? {
      EvictOk(sh, sh.conns[a.c].guid);
    } else {
      MarkOk(sh, a.c);
    }
  }

  lemma AppStepOk(sh: Shared, t: nat, a: App, ok: bool)
    requires TableOk(sh) && AppOk(sh, a) && (a.Accepting? && ok ==> sh.acceptQueue != [])
    ensures var (sh', a') := AppStep(sh, t, a, ok); TableOk(sh') && AppOk(sh', a') && Evolves(sh, sh')
  {
    if a.Connecting? || a.Abandoning? {
      AppConnectStepOk(sh, t, a, ok);
    } else if a.Reaping? || a.Testing? {
      AppReapStepOk(sh, t, a, ok);
    } else if a.Dropping? || a.Flagging? {
      AppCloseStepOk(sh, t, a, ok);
    } else if a.Shutting? {
      AppShutStepOk(sh, t, a, ok);
    } else {
      TableUpdateOk(sh, AppStep(sh, t, a, ok).0);
    }
  }

  lemma CloserConnStepOk(s: State, pick: nat)
    requires Coherent(s) && CloserEnabled(s, pick) && (s.closer.MarkConns? || s.closer.SealConn?)
    ensures var s' := CloserNext(s, pick);
            TableOk(s'.sh) && CloserOk(s'.sh, s'.closer) && Evolves(s.sh, s'.sh)
  {
    var sh := s.sh;
    match s.closer
    case MarkConns(cs) =>
      if cs != {} { MarkOk(sh, pick); }
    case SealConn(c, _) => SealOk(sh, c, PeerReason(s));
  }

  lemma CloserPendStepOk(s: State, pick: nat)
    requires Coherent(s) && CloserEnabled(s, pick) && (s.closer.ExplainPends? || s.closer.SignalPend?)
    ensures var s' := CloserNext(s, pick);
            TableOk(s'.sh) && CloserOk(s'.sh, s'.closer) && Evolves(s.sh, s'.sh)
  {
    var sh := s.sh;
    if s.closer.SignalPend? {
      PendUpdateOk(sh, s.closer.p, sh.pends[s.closer.p].(event := true));
    } else if s.closer.pends != {} {
      PendUpdateOk(sh, pick, sh.pends[pick].(reason := Some(AttemptFailed)));
    }
  }

  lemma CloserStepOk(s: State, pick: nat)
    requires Coherent(s) && CloserEnabled(s, pick)
    ensures var s' := CloserNext(s, pick);
            TableOk(s'.sh) && CloserOk(s'.sh, s'.closer) && Evolves(s.sh, s'.sh)
  {
    if s.closer.MarkConns? || s.closer.SealConn? {
      CloserConnStepOk(s, pick);
    } else if s.closer.ExplainPends? || s.closer.SignalPend? {
      CloserPendStepOk(s, pick);
    } else {
      TableUpdateOk(s.sh, CloserNext(s, pick).sh);
    }
  }

  // ---- Every step ----

  lemma WinCloseOk(s: State, byPump: bool)
    requires Coherent(s)
    ensures var s' := WinClose(s, byPump);
            && TableOk(s'.sh) && Evolves(s.sh, s'.sh)
            && AllUnregistered(s'.sh, s'.snap.conns) && SetIds(s'.sh, s'.snap.conns, s'.snap.pends, s'.snap.pings)
  {
    TableUpdateOk(s.sh, BeginClose(s.sh));
    ValuesBelow(s.sh.connections, |s.sh.conns|);
    ValuesBelow(s.sh.pendingConnects, |s.sh.pends|);
    ValuesBelow(s.sh.pendingPings, |s.sh.pings|);
  }

  lemma ValuesBelow(m: map<int, nat>, n: nat)
    requires forall k :: k in m ==> m[k] < n
    ensures forall v :: v in m.Values ==> v < n
  {
    forall v: nat | v in m.Values ensures v < n {
      ValueHasKey(m, v);
    }
  }

  lemma ValueHasKey<T>(m: map<int, T>, v: T)
    requires v in m.Values
    ensures exists k :: k in m && m[k] == v
  {
    if forall k :: k in m ==> m[k] != v {
      assert false;
    }
  }

  /** The rest of the state follows from the moved thread and the evolution of the shared part. */
  lemma OthersFollow(s: State, sh': Shared)
    requires Coherent(s) && TableOk(sh') && Evolves(s.sh, sh')
    ensures PumpOk(sh', s.pump) && CloserOk(sh', s.closer) && AllUnregistered(sh', s.snap.conns)
    ensures SetIds(sh', s.snap.conns, s.snap.pends, s.snap.pings)
    ensures forall t :: 0 <= t < |s.threads| ==> AppOk(sh', s.threads[t])
  {
    PumpKeeps(s.sh, sh', s.pump);
    CloserKeeps(s.sh, sh', s.closer);
    SetsKeep(s.sh, sh', s.snap.conns);
    ThreadsKeep(s.sh, sh', s.threads);
  }

  lemma PumpGoOk(s: State)
    requires Coherent(s) && Enabled(s, PumpGo)
    ensures Coherent(PumpNext(s)) && Evolves(s.sh, PumpNext(s).sh)
  {
    if s.pump == Crashed && !s.sh.closed {
      WinCloseOk(s, true);
    } else if s.pump != Crashed {
      PumpStepOk(s.sh, s.pump);
    }
    OthersFollow(s, PumpNext(s).sh);
  }

  lemma CloserGoOk(s: State, pick: nat)
    requires Coherent(s) && CloserEnabled(s, pick)
    ensures Coherent(CloserNext(s, pick)) && Evolves(s.sh, CloserNext(s, pick).sh)
  {
    CloserStepOk(s, pick);
    OthersFollow(s, CloserNext(s, pick).sh);
  }

  lemma AppWinOk(s: State, t: nat, ok: bool)
    requires Coherent(s) && AppEnabled(s, t, ok) && s.threads[t] == ClosingPeer
    ensures Coherent(AppNext(s, t, ok)) && Evolves(s.sh, AppNext(s, t, ok).sh)
  {
    if !s.sh.closed {
      WinCloseOk(s, false);
      OthersFollow(s, AppNext(s, t, ok).sh);
    }
  }

  lemma AppGoOk(s: State, t: nat, ok: bool)
    requires Coherent(s) && AppEnabled(s, t, ok)
    ensures Coherent(AppNext(s, t, ok)) && Evolves(s.sh, AppNext(s, t, ok).sh)
  {
    if s.threads[t] == ClosingPeer {
      AppWinOk(s, t, ok);
    } else {
      AppStepOk(s.sh, t, s.threads[t], ok);
      OthersFollow(s, AppNext(s, t, ok).sh);
    }
  }

  lemma RecvOk(s: State, c: ConnId)
    requires Coherent(s) && Enabled(s, Recv(c))
    ensures Coherent(Next(s, Recv(c))) && Evolves(s.sh, Next(s, Recv(c)).sh)
  {
    ConnUpdateOk(s.sh, c, Receive(s.sh, c).conns[c], Receive(s.sh, c));
    OthersFollow(s, Receive(s.sh, c));
  }

  lemma ReceivedOk(s: State, r: Received)
    requires Coherent(s) && s.pump.AtReceive?
    ensures Coherent(PumpReceived(s, r)) && PumpReceived(s, r).sh == s.sh
  {
    assert PumpOk(s.sh, PumpReceived(s, r).pump);
  }

  lemma BeginOk(s: State, t: nat, call: Call)
    requires Coherent(s) && Enabled(s, Begin(t, call))
    ensures Coherent(BeginNext(s, t, call)) && BeginNext(s, t, call).sh == s.sh
  {
    assert AppOk(s.sh, BeginNext(s, t, call).threads[t]);
  }

  /** Every step of every thread keeps the table coherent, and only moves flags and logs forward. */
  lemma StepCoherent(s: State, l: Label)
    requires Coherent(s) && Enabled(s, l)
    ensures Coherent(Next(s, l)) && Evolves(s.sh, Next(s, l).sh)
  {
    match l
    case PumpGo => PumpGoOk(s);
    case PumpReceive(r) => ReceivedOk(s, r);
    case CloserGo(pick) => CloserGoOk(s, pick);
    case Begin(t, call) => BeginOk(s, t, call);
    case AppGo(t, ok) => AppGoOk(s, t, ok);
    case Recv(c) => RecvOk(s, c);
  }

  /** From any coherent state, and so from any initial one: coherence holds after every run, and between
      its ends flags, exceptions and logs only moved forward and no connection came back. */
  lemma {:induction false} AlwaysCoherent(s: State, ls: seq<Label>)
    requires Coherent(s) && IsRun(s, ls)
    ensures Coherent(After(s, ls)) && Evolves(s.sh, After(s, ls).sh)
    decreases |ls|
  {
    if ls != [] {
      var s' := Next(s, ls[0]);
      StepCoherent(s, ls[0]);
      AlwaysCoherent(s', ls[1..]);
      EvolvesTransitive(s.sh, s'.sh, After(s', ls[1..]).sh);
    }
  }

  lemma InitialCoherent(s: State)
    requires Initial(s)
    ensures Coherent(s)
  {
  }

  /** At any point of any run from the start, and any number of steps later: the table maps each guid to an
      open connection of that guid, a mailbox with an exception belongs to a closed connection, a closed
      flag and a first close exception stand for good, and a connection that has left the table never
      comes back. */
  lemma RegistrationCoherence(s: State, ls: seq<Label>, more: seq<Label>)
    requires Initial(s) && IsRun(s, ls) && IsRun(After(s, ls), more)
    ensures var a, b := After(s, ls).sh, After(After(s, ls), more).sh;
            && (forall g :: g in b.connections ==>
                  var c := b.connections[g]; IsConn(b, c) && b.conns[c].guid == g && !b.conns[c].closed)
            && (forall c :: 0 <= c < |b.conns| && b.conns[c].box.exc.Some? ==> b.conns[c].closed)
            && |a.conns| <= |b.conns|
            && (forall c :: 0 <= c < |a.conns| ==>
                  && b.conns[c].guid == a.conns[c].guid
                  && (a.conns[c].closed ==> b.conns[c].closed)
                  && (a.conns[c].box.exc.Some? ==> b.conns[c].box.exc == a.conns[c].box.exc)
                  && (!Registered(a, c) ==> !Registered(b, c)))
  {
    InitialCoherent(s);
    AlwaysCoherent(s, ls);
    AlwaysCoherent(After(s, ls), more);
  }
}
