/** Who resolves a pending connect: the table, the pump, the closer or nobody, but never two of them. */
module Resolution {
  import opened RakTypes
  import opened PeerState
  import opened Protocol
  import opened Coherence
  import opened Shutdown

  predicate InTable(sh: Shared, p: PendId)
    requires IsPend(sh, p)
  {
    sh.pends[p].key in sh.pendingConnects && sh.pendingConnects[sh.pends[p].key] == p
  }

  /** The pump popped p and has not signalled it yet. */
  predicate PumpHolds(pump: Pump, p: PendId) {
    (pump.Establishing? || pump.Attaching? || pump.Explaining? || pump.Signalling?) && pump.p == p
  }

  /** The closer took p in its snapshot and has not signalled it yet. */
  function CloserHolds(s: State): set<PendId> {
    PendsLeft(s.closer, s.snap.pends)
  }

  predicate CloserSignals(k: Closer, p: PendId) {
    k.SignalPend? && k.p == p
  }

  /** In how many places p is: the table, the pump's hands, the closer's hands, or signalled. */
  function Places(s: State, p: PendId): nat
    requires IsPend(s.sh, p)
  {
    (if InTable(s.sh, p) then 1 else 0) + (if PumpHolds(s.pump, p) then 1 else 0)
    + (if p in CloserHolds(s) then 1 else 0) + (if s.sh.pends[p].event then 1 else 0)
  }

  /** At most one place; and the outcome is complete exactly from the write before event.set on. */
  ghost predicate PendOk(s: State, p: PendId)
    requires IsPend(s.sh, p)
  {
    var x := s.sh.pends[p];
    && Places(s, p) <= 1
    && (if x.event || s.pump == Signalling(p) then x.Resolved()
        else if CloserSignals(s.closer, p) then x.connection.None? && x.reason.Some?
        else x.Blank())
  }

  /** A connection made for a connect is the one its pending gets. */
  ghost predicate OriginOk(sh: Shared, pump: Pump, c: ConnId)
    requires IsConn(sh, c)
  {
    sh.conns[c].origin.Some? ==>
      var p := sh.conns[c].origin.value;
      IsPend(sh, p) && (sh.pends[p].connection == Some(c) || pump == Attaching(p, c))
  }

  /** Connections and pendings point at each other. */
  ghost predicate LinksOk(sh: Shared, pump: Pump) {
    && (forall c :: 0 <= c < |sh.conns| ==> OriginOk(sh, pump, c))
    && (pump.Attaching? ==> IsConn(sh, pump.c) && sh.conns[pump.c].origin == Some(pump.p))
    && (forall p :: 0 <= p < |sh.pends| && sh.pends[p].connection.Some? ==>
          var c := sh.pends[p].connection.value; IsConn(sh, c) && sh.conns[c].origin == Some(p))
  }

  ghost predicate TableKeysOk(sh: Shared) {
    forall k :: k in sh.pendingConnects ==>
      IsPend(sh, sh.pendingConnects[k]) && sh.pends[sh.pendingConnects[k]].key == k
  }

  ghost predicate HandsOk(s: State) {
    && (s.closer == NoCloser ==> s.snap.pends == {})
    && (s.closer.SignalPend? ==> s.closer.p !in s.closer.pends)
  }

  ghost predicate PendsOk(s: State) {
    forall p :: 0 <= p < |s.sh.pends| ==> PendOk(s, p)
  }

  ghost predicate ResolutionOk(s: State) {
    TableKeysOk(s.sh) && HandsOk(s) && PendsOk(s) && LinksOk(s.sh, s.pump)
  }

  // ---- Frames ----

  /** p is where it was. */
  ghost predicate Stays(s: State, s': State, p: PendId) {
    && IsPend(s.sh, p) && IsPend(s'.sh, p)
    && s'.sh.pends[p] == s.sh.pends[p].(timedOut := s'.sh.pends[p].timedOut)
    && (InTable(s'.sh, p) <==> InTable(s.sh, p))
    && (PumpHolds(s'.pump, p) <==> PumpHolds(s.pump, p))
    && (s'.pump == Signalling(p) <==> s.pump == Signalling(p))
    && (p in CloserHolds(s') <==> p in CloserHolds(s))
    && (CloserSignals(s'.closer, p) <==> CloserSignals(s.closer, p))
  }

  lemma StaysOk(s: State, s': State, p: PendId)
    requires Stays(s, s', p) && PendOk(s, p)
    ensures PendOk(s', p)
  {
  }

  /** A step after which every pending but one is where it was. */
  lemma OthersStay(s: State, s': State, p: PendId)
    requires PendsOk(s) && |s'.sh.pends| == |s.sh.pends|
    requires forall q :: 0 <= q < |s.sh.pends| && q != p ==> Stays(s, s', q)
    requires p < |s'.sh.pends| ==> PendOk(s', p)
    ensures PendsOk(s')
  {
    forall q | 0 <= q < |s'.sh.pends| ensures PendOk(s', q) {
      if q != p {
        StaysOk(s, s', q);
      }
    }
  }

  /** No link changes. */
  lemma LinksFrame(a: Shared, p: Pump, b: Shared, p': Pump)
    requires LinksOk(a, p) && Evolves(a, b) && |b.conns| == |a.conns|
    requires forall q :: 0 <= q < |a.pends| ==> b.pends[q].connection == a.pends[q].connection
    requires forall q :: |a.pends| <= q < |b.pends| ==> b.pends[q].connection.None?
    requires (p.Attaching? || p'.Attaching?) ==> p == p'
    ensures LinksOk(b, p')
  {
    forall c | 0 <= c < |b.conns| ensures OriginOk(b, p', c) {
      assert OriginOk(a, p, c) && ConnEvolves(a.conns[c], b.conns[c]);
    }
    forall q | 0 <= q < |b.pends| && b.pends[q].connection.Some?
      ensures var c := b.pends[q].connection.value; IsConn(b, c) && b.conns[c].origin == Some(q)
    {
      assert q < |a.pends| && a.pends[q].connection == b.pends[q].connection;
      assert ConnEvolves(a.conns[a.pends[q].connection.value], b.conns[a.pends[q].connection.value]);
    }
    if p'.Attaching? {
      assert ConnEvolves(a.conns[p.c], b.conns[p.c]);
    }
  }

  // ---- Pump steps ----

  /** A callback pops a pending: it moves from the table into the pump's hands. */
  lemma PumpPops(s: State)
    requires Coherent(s) && ResolutionOk(s) && Enabled(s, PumpGo) && s.pump.Routing?
    requires s.pump.event.ConnectSucceeded? || s.pump.event.ConnectFailed?
    ensures ResolutionOk(PumpNext(s))
  {
    var s' := PumpNext(s);
    var k := s.pump.event.address;
    PumpStepOk(s.sh, s.pump);
    LinksFrame(s.sh, s.pump, s'.sh, s'.pump);
    var p := if k in s.sh.pendingConnects then s.sh.pendingConnects[k] else |s.sh.pends|;
    assert p < |s.sh.pends| ==> PendOk(s, p);
    OthersStay(s, s', p);
  }

  lemma PumpEstablishes(s: State)
    requires Coherent(s) && ResolutionOk(s) && Enabled(s, PumpGo) && s.pump.Establishing?
    ensures ResolutionOk(PumpNext(s))
  {
    var s' := PumpNext(s);
    assert PendOk(s, s.pump.p);
    OthersStay(s, s', s.pump.p);
    forall c | 0 <= c < |s'.sh.conns| ensures OriginOk(s'.sh, s'.pump, c) {
      if c < |s.sh.conns| {
        assert OriginOk(s.sh, s.pump, c);
      }
    }
  }

  /** The writes that complete an outcome and set the event. */
  lemma PumpResolves(s: State)
    requires Coherent(s) && ResolutionOk(s) && Enabled(s, PumpGo)
    requires s.pump.Attaching? || s.pump.Explaining? || s.pump.Signalling?
    ensures ResolutionOk(PumpNext(s))
  {
    var s' := PumpNext(s);
    assert PendOk(s, s.pump.p);
    OthersStay(s, s', s.pump.p);
    forall c | 0 <= c < |s'.sh.conns| ensures OriginOk(s'.sh, s'.pump, c) {
      assert OriginOk(s.sh, s.pump, c);
    }
  }

  predicate HandlesPending(p: Pump) {
    p.Establishing? || p.Attaching? || p.Explaining? || p.Signalling?
    || (p.Routing? && (p.event.ConnectSucceeded? || p.event.ConnectFailed?))
  }

  /** The other pump steps concern no pending connect. */
  lemma PumpIgnores(sh: Shared, p: Pump)
    requires TableIds(sh) && PumpIds(sh, p) && !HandlesPending(p)
    ensures var (sh', p') := PumpStep(sh, p);
            && sh'.pends == sh.pends && sh'.pendingConnects == sh.pendingConnects && !HandlesPending(p')
            && |sh.conns| <= |sh'.conns| <= |sh.conns| + 1
            && (|sh'.conns| > |sh.conns| ==> sh'.conns[|sh.conns|].origin.None?)
  {
    if p.Routing? {
      EnterIgnores(sh, p.event);
    }
  }

  lemma EnterIgnores(sh: Shared, e: Event)
    requires TableIds(sh) && !e.ConnectSucceeded? && !e.ConnectFailed?
    ensures var (sh', p') := Enter(sh, e);
            && sh'.pends == sh.pends && sh'.pendingConnects == sh.pendingConnects && !HandlesPending(p')
            && |sh.conns| <= |sh'.conns| <= |sh.conns| + 1
            && (|sh'.conns| > |sh.conns| ==> sh'.conns[|sh.conns|].origin.None?)
  {
  }

  lemma PumpElsewhere(s: State)
    requires Coherent(s) && ResolutionOk(s) && Enabled(s, PumpGo) && s.pump != Crashed && !HandlesPending(s.pump)
    ensures ResolutionOk(PumpNext(s))
  {
    var s' := PumpNext(s);
    PumpIgnores(s.sh, s.pump);
    PumpStepOk(s.sh, s.pump);
    PendsApart(s, s');
    LinksGrow(s.sh, s.pump, s'.sh, s'.pump);
  }

  /** A step that concerns no pending connect. */
  lemma PendsApart(s: State, s': State)
    requires PendsOk(s) && s'.sh.pends == s.sh.pends && s'.sh.pendingConnects == s.sh.pendingConnects
    requires !HandlesPending(s.pump) && !HandlesPending(s'.pump) && s'.closer == s.closer && s'.snap == s.snap
    ensures PendsOk(s')
  {
    OthersStay(s, s', |s.sh.pends|);
  }

  /** At most a connection that was made for no connect is new. */
  lemma LinksGrow(a: Shared, p: Pump, b: Shared, p': Pump)
    requires LinksOk(a, p) && Evolves(a, b) && b.pends == a.pends && !p.Attaching? && !p'.Attaching?
    requires forall c :: |a.conns| <= c < |b.conns| ==> b.conns[c].origin.None?
    ensures LinksOk(b, p')
  {
    forall c | 0 <= c < |b.conns| ensures OriginOk(b, p', c) {
      if c < |a.conns| {
        assert OriginOk(a, p, c) && ConnEvolves(a.conns[c], b.conns[c]);
      }
    }
    forall q | 0 <= q < |b.pends| && b.pends[q].connection.Some?
      ensures var c := b.pends[q].connection.value; IsConn(b, c) && b.conns[c].origin == Some(q)
    {
      assert ConnEvolves(a.conns[a.pends[q].connection.value], b.conns[a.pends[q].connection.value]);
    }
  }

  // ---- The closer ----

  lemma WinResolution(s: State, byPump: bool, s': State)
    requires Coherent(s) && ResolutionOk(s) && s.closer == NoCloser
    requires s'.sh == BeginClose(s.sh) && s'.snap == WinClose(s, byPump).snap
    requires s'.closer == Joining || s'.closer == ShuttingDown
    requires s'.pump == s.pump || (s.pump == Crashed && s'.pump == Finishing)
    ensures ResolutionOk(s')
  {
    WinCloseOk(s, byPump);
    LinksFrame(s.sh, s.pump, s'.sh, s'.pump);
    forall p | 0 <= p < |s'.sh.pends| ensures PendOk(s', p) {
      assert PendOk(s, p);
      if p in s.sh.pendingConnects.Values {
        ValueHasKey(s.sh.pendingConnects, p);
        assert InTable(s.sh, p);
      } else {
        assert !InTable(s.sh, p);
      }
    }
  }

  lemma CloserResolves(s: State, pick: nat)
    requires Coherent(s) && ResolutionOk(s) && CloserEnabled(s, pick)
    requires (s.closer.ExplainPends? && s.closer.pends != {}) || s.closer.SignalPend?
    ensures PendsOk(CloserNext(s, pick)) && HandsOk(CloserNext(s, pick))
  {
    var p := if s.closer.SignalPend? then s.closer.p else pick;
    assert PendOk(s, p);
    OthersStay(s, CloserNext(s, pick), p);
  }

  lemma CloserElsewhere(s: State, pick: nat)
    requires Coherent(s) && ResolutionOk(s) && CloserEnabled(s, pick)
    requires !(s.closer.ExplainPends? && s.closer.pends != {}) && !s.closer.SignalPend?
    ensures PendsOk(CloserNext(s, pick)) && HandsOk(CloserNext(s, pick))
    ensures CloserNext(s, pick).sh.pends == s.sh.pends
  {
    CloserIgnores(s.sh, s.closer, s.snap, PeerReason(s), pick);
    OthersStay(s, CloserNext(s, pick), |s.sh.pends|);
  }

  /** The closer's other steps concern no pending connect. */
  lemma CloserIgnores(sh: Shared, k: Closer, snap: Snapshot, why: CloseReason, pick: nat)
    requires CloserIds(sh, k) && !(k.ExplainPends? && k.pends != {}) && !k.SignalPend?
    requires k.MarkConns? && k.conns != {} ==> pick in k.conns
    requires k.RingPings? && k.pings != {} ==> pick in k.pings
    ensures var (sh', k') := CloserStep(sh, k, snap, why, pick);
            && sh'.pends == sh.pends && sh'.pendingConnects == sh.pendingConnects
            && PendsLeft(k', snap.pends) == PendsLeft(k, snap.pends) && !k'.SignalPend?
            && (k'.NoCloser? ==> k.NoCloser?)
  {
  }

  /** No step of the closer moves an entry, a key or a link. */
  lemma CloserSparesPends(sh: Shared, k: Closer, snap: Snapshot, why: CloseReason, pick: nat)
    requires CloserIds(sh, k)
    requires k.MarkConns? && k.conns != {} ==> pick in k.conns
    requires k.ExplainPends? && k.pends != {} ==> pick in k.pends
    requires k.RingPings? && k.pings != {} ==> pick in k.pings
    ensures var sh' := CloserStep(sh, k, snap, why, pick).0;
            && |sh'.pends| == |sh.pends| && sh'.pendingConnects == sh.pendingConnects && |sh'.conns| == |sh.conns|
            && (forall p :: 0 <= p < |sh.pends| ==>
                  && sh'.pends[p].key == sh.pends[p].key && sh'.pends[p].connection == sh.pends[p].connection
                  && sh'.pends[p].timedOut == sh.pends[p].timedOut)
            && (forall c :: 0 <= c < |sh.conns| ==> sh'.conns[c].origin == sh.conns[c].origin)
  {
  }

  lemma CloserResolution(s: State, pick: nat)
    requires Coherent(s) && ResolutionOk(s) && CloserEnabled(s, pick)
    ensures ResolutionOk(CloserNext(s, pick))
  {
    var s' := CloserNext(s, pick);
    CloserStepOk(s, pick);
    CloserKeepsLinks(s, pick);
    if (s.closer.ExplainPends? && s.closer.pends != {}) || s.closer.SignalPend? {
      CloserResolves(s, pick);
    } else {
      CloserElsewhere(s, pick);
    }
  }

  lemma CloserKeepsLinks(s: State, pick: nat)
    requires Coherent(s) && ResolutionOk(s) && CloserEnabled(s, pick)
    ensures LinksOk(CloserNext(s, pick).sh, CloserNext(s, pick).pump) && TableKeysOk(CloserNext(s, pick).sh)
  {
    var s' := CloserNext(s, pick);
    CloserGoOk(s, pick);
    CloserSparesPends(s.sh, s.closer, s.snap, PeerReason(s), pick);
    LinksFrame(s.sh, s.pump, s'.sh, s'.pump);
  }

  // ---- Application threads ----

  lemma ConnectResolution(s: State, t: nat, ok: bool)
    requires Coherent(s) && ResolutionOk(s) && AppEnabled(s, t, ok) && s.threads[t].Connecting? && !s.sh.closed
    requires forall p :: p in CloserHolds(s) ==> IsPend(s.sh, p)
    ensures ResolutionOk(AppNext(s, t, ok))
  {
    var s' := AppNext(s, t, ok);
    AddPendingOk(s.sh, s.threads[t].k, t);
    LinksFrame(s.sh, s.pump, s'.sh, s'.pump);
    forall p | 0 <= p < |s'.sh.pends| ensures PendOk(s', p) {
      if p < |s.sh.pends| {
        assert PendOk(s, p);
      }
    }
  }

  /** The caller's own pops, and the steps that touch no pending. */
  lemma AppResolution(s: State, t: nat, ok: bool)
    requires Coherent(s) && ResolutionOk(s) && AppEnabled(s, t, ok) && s.threads[t] != ClosingPeer
    requires !(s.threads[t].Connecting? && !s.sh.closed)
    ensures ResolutionOk(AppNext(s, t, ok))
  {
    var s' := AppNext(s, t, ok);
    AppStepOk(s.sh, t, s.threads[t], ok);
    AppPends(s.sh, t, s.threads[t], ok);
    AppOnlyPops(s.sh, t, s.threads[t], ok);
    LinksFrame(s.sh, s.pump, s'.sh, s'.pump);
    forall p | 0 <= p < |s'.sh.pends| ensures PendOk(s', p) {
      assert PendOk(s, p);
    }
  }

  lemma AppPends(sh: Shared, t: nat, a: App, ok: bool)
    requires TableIds(sh) && AppIds(sh, a) && (a.Accepting? && ok ==> sh.acceptQueue != [])
    requires !(a.Connecting? && !sh.closed)
    ensures var sh' := AppStep(sh, t, a, ok).0;
            && |sh'.pends| == |sh.pends| && |sh'.conns| == |sh.conns|
            && (forall p :: 0 <= p < |sh.pends| ==> sh'.pends[p] == sh.pends[p].(timedOut := sh'.pends[p].timedOut))
  {
    if !a.Abandoning? && !a.Reaping? && !a.Testing? && !a.Shutting? {
      AppKeepsPends(sh, t, a, ok);
    }
  }

  lemma AppKeepsPends(sh: Shared, t: nat, a: App, ok: bool)
    requires TableIds(sh) && AppIds(sh, a) && (a.Accepting? && ok ==> sh.acceptQueue != [])
    requires !(a.Connecting? && !sh.closed) && !a.Abandoning? && !a.Reaping? && !a.Testing? && !a.Shutting?
    ensures var sh' := AppStep(sh, t, a, ok).0; sh'.pends == sh.pends && |sh'.conns| == |sh.conns|
  {
  }

  lemma AppOnlyPops(sh: Shared, t: nat, a: App, ok: bool)
    requires TableIds(sh) && AppIds(sh, a) && (a.Accepting? && ok ==> sh.acceptQueue != [])
    requires !(a.Connecting? && !sh.closed)
    ensures var sh' := AppStep(sh, t, a, ok).0;
            forall k :: k in sh'.pendingConnects ==>
              k in sh.pendingConnects && sh'.pendingConnects[k] == sh.pendingConnects[k]
  {
  }

  // ---- Every step ----

  lemma StepResolution(s: State, l: Label)
    requires ShutdownOk(s) && ResolutionOk(s) && Enabled(s, l)
    ensures ResolutionOk(Next(s, l))
  {
    if l.PumpGo? {
      PumpResolution(s);
    } else if l.CloserGo? {
      CloserResolution(s, l.pick);
    } else if l.AppGo? {
      AppGoResolution(s, l.t, l.ok);
    } else {
      LocalResolution(s, l);
    }
  }

  lemma AppWinResolution(s: State, t: nat, ok: bool)
    requires ShutdownOk(s) && ResolutionOk(s) && Enabled(s, AppGo(t, ok)) && s.threads[t] == ClosingPeer
    ensures ResolutionOk(AppNext(s, t, ok))
  {
    if !s.sh.closed {
      WinResolution(s, false, AppNext(s, t, ok));
    } else {
      OthersStay(s, AppNext(s, t, ok), |s.sh.pends|);
    }
  }

  lemma AppGoResolution(s: State, t: nat, ok: bool)
    requires ShutdownOk(s) && ResolutionOk(s) && Enabled(s, AppGo(t, ok))
    ensures ResolutionOk(AppNext(s, t, ok))
  {
    if s.threads[t] == ClosingPeer {
      AppWinResolution(s, t, ok);
    } else if s.threads[t].Connecting? && !s.sh.closed {
      ConnectResolution(s, t, ok);
    } else {
      AppResolution(s, t, ok);
    }
  }

  lemma PumpResolution(s: State)
    requires ShutdownOk(s) && ResolutionOk(s) && Enabled(s, PumpGo)
    ensures ResolutionOk(PumpNext(s))
  {
    if s.pump == Crashed {
      if !s.sh.closed {
        WinResolution(s, true, PumpNext(s));
      } else {
        OthersStay(s, PumpNext(s), |s.sh.pends|);
        LinksFrame(s.sh, s.pump, s.sh, Stopped);
      }
    } else if s.pump.Establishing? {
      PumpEstablishes(s);
    } else if s.pump.Routing? && HandlesPending(s.pump) {
      PumpPops(s);
    } else if HandlesPending(s.pump) {
      PumpResolves(s);
    } else {
      PumpElsewhere(s);
    }
  }

  lemma LocalResolution(s: State, l: Label)
    requires Coherent(s) && ResolutionOk(s) && Enabled(s, l) && (l.PumpReceive? || l.Begin? || l.Recv?)
    ensures ResolutionOk(Next(s, l))
  {
    var s' := Next(s, l);
    LocalQuiet(s, l);
    OthersStay(s, s', |s.sh.pends|);
    LinksFrame(s.sh, s.pump, s'.sh, s'.pump);
  }

  lemma LocalQuiet(s: State, l: Label)
    requires Coherent(s) && Enabled(s, l) && (l.PumpReceive? || l.Begin? || l.Recv?)
    ensures var s' := Next(s, l);
            && Evolves(s.sh, s'.sh) && |s'.sh.conns| == |s.sh.conns|
            && s'.sh.pends == s.sh.pends && s'.sh.pendingConnects == s.sh.pendingConnects
            && s'.closer == s.closer && s'.snap == s.snap
            && (s'.pump == s.pump || (!HandlesHeld(s.pump) && !HandlesHeld(s'.pump)))
  {
    StepCoherent(s, l);
  }

  predicate HandlesHeld(p: Pump) {
    p.Establishing? || p.Attaching? || p.Explaining? || p.Signalling?
  }
}
