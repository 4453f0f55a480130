/** Callers that wait for a connect: nobody is stranded, a timed-out connect leaks nothing, and exactly
    when that holds. */
module Waits {
  import opened RakTypes
  import opened PeerState
  import opened Protocol
  import opened Coherence
  import opened Resolution
  import opened Outcomes

  /** A connect for k that may still pop k from the table. */
  predicate Live(a: App, k: Address) {
    (a.Starting? || a.Undoing? || a.Waiting? || a.Abandoning?) && a.k == k
  }

  predicate LiveOn(a: App, p: PendId) {
    (a.Starting? || a.Undoing? || a.Waiting? || a.Abandoning?) && a.p == p
  }

  /** The next step changes the entry of k in the table. */
  predicate Drops(a: App, k: Address) {
    (a.Undoing? || a.Abandoning? || a.Connecting?) && a.k == k
  }

  /** A connect that counts on p being resolved. */
  predicate WaitsFor(a: App, p: PendId) {
    LiveOn(a, p) || a == Reaping(p)
  }

  /** The close of the connection a timed-out connect got after all. */
  predicate Reaps(a: App, p: PendId) {
    (a.Testing? || a.Dropping? || a.Flagging? || a.Shutting?) && a.reap == Some(p)
  }

  /** The uniqueness assumption, for one step: a connect is registered only when no other connect to
      that address is live. */
  predicate Disciplined(s: State, l: Label) {
    l.AppGo? && l.t < |s.threads| && s.threads[l.t].Connecting? ==>
      NoOtherLive(s, l.t, s.threads[l.t].k)
  }

  predicate NoOtherLive(s: State, t: nat, k: Address) {
    forall u :: 0 <= u < |s.threads| && u != t ==> !Live(s.threads[u], k)
  }

  ghost predicate DisciplinedRun(s: State, ls: seq<Label>)
    requires IsRun(s, ls)
    decreases |ls|
  {
    ls == [] || (Disciplined(s, ls[0]) && DisciplinedRun(Next(s, ls[0]), ls[1..]))
  }

  // ---- Places over a step ----

  lemma PumpPlaces(s: State, p: PendId)
    requires Coherent(s) && ResolutionOk(s) && Enabled(s, PumpGo) && s.pump != Crashed && IsPend(s.sh, p)
    ensures IsPend(PumpNext(s).sh, p) && Places(PumpNext(s), p) == Places(s, p)
  {
    assert PendOk(s, p);
    if s.pump.Routing? && HandlesPending(s.pump) {
      PopPlaces(s, p);
    } else if HandlesPending(s.pump) {
      HeldPlaces(s, p);
    } else {
      PumpIgnores(s.sh, s.pump);
    }
  }

  lemma PopPlaces(s: State, p: PendId)
    requires Coherent(s) && ResolutionOk(s) && Enabled(s, PumpGo) && IsPend(s.sh, p)
    requires s.pump.Routing? && (s.pump.event.ConnectSucceeded? || s.pump.event.ConnectFailed?)
    ensures IsPend(PumpNext(s).sh, p) && Places(PumpNext(s), p) == Places(s, p)
  {
  }

  lemma HeldPlaces(s: State, p: PendId)
    requires Coherent(s) && ResolutionOk(s) && Enabled(s, PumpGo) && IsPend(s.sh, p) && PendOk(s, p)
    requires s.pump.Establishing? || s.pump.Attaching? || s.pump.Explaining? || s.pump.Signalling?
    ensures IsPend(PumpNext(s).sh, p) && Places(PumpNext(s), p) == Places(s, p)
  {
  }

  lemma WinPlaces(s: State, byPump: bool, s': State, p: PendId)
    requires Coherent(s) && ResolutionOk(s) && s.closer == NoCloser && IsPend(s.sh, p)
    requires s'.sh == BeginClose(s.sh) && s'.snap == WinClose(s, byPump).snap
    requires s'.closer == Joining || s'.closer == ShuttingDown
    requires s'.pump == s.pump || (s.pump == Crashed && s'.pump == Finishing)
    ensures Places(s', p) == Places(s, p)
  {
    if p in s.sh.pendingConnects.Values {
      ValueHasKey(s.sh.pendingConnects, p);
      assert InTable(s.sh, p);
    } else {
      assert !InTable(s.sh, p);
    }
  }

  lemma CloserPlaces(s: State, pick: nat, p: PendId)
    requires Coherent(s) && ResolutionOk(s) && CloserEnabled(s, pick) && IsPend(s.sh, p)
    ensures var s' := CloserNext(s, pick); IsPend(s'.sh, p) && Places(s', p) == Places(s, p)
  {
    assert PendOk(s, p);
    if s.closer.SignalPend? || (s.closer.ExplainPends? && s.closer.pends != {}) {
      SignalPlaces(s, pick, p);
    } else {
      CloserIgnores(s.sh, s.closer, s.snap, PeerReason(s), pick);
    }
  }

  lemma SignalPlaces(s: State, pick: nat, p: PendId)
    requires Coherent(s) && ResolutionOk(s) && CloserEnabled(s, pick) && IsPend(s.sh, p) && PendOk(s, p)
    requires s.closer.SignalPend? || (s.closer.ExplainPends? && s.closer.pends != {})
    ensures var s' := CloserNext(s, pick); IsPend(s'.sh, p) && Places(s', p) == Places(s, p)
  {
  }

  /** The pump, the closer and _begin_close move a pending from place to place, but never drop it. */
  lemma SystemKeepsPlaces(s: State, l: Label, p: PendId)
    requires OutcomesOk(s) && Enabled(s, l) && IsPend(s.sh, p)
    requires l.AppGo? ==> s.threads[l.t] == ClosingPeer
    ensures IsPend(Next(s, l).sh, p) && Places(Next(s, l), p) == Places(s, p)
  {
    if l.PumpGo? && s.pump == Crashed {
      if !s.sh.closed {
        WinPlaces(s, true, Next(s, l), p);
      }
    } else if l.PumpGo? {
      PumpPlaces(s, p);
    } else if l.CloserGo? {
      CloserPlaces(s, l.pick, p);
    } else if l.AppGo? {
      if !s.sh.closed {
        WinPlaces(s, false, Next(s, l), p);
      }
    }
  }

  /** A caller drops a pending only by popping its key or registering over it. */
  lemma AppPlaces(s: State, t: nat, ok: bool, p: PendId)
    requires OutcomesOk(s) && Enabled(s, AppGo(t, ok)) && IsPend(s.sh, p) && s.threads[t] != ClosingPeer
    ensures var s' := AppNext(s, t, ok);
            && IsPend(s'.sh, p) && Places(s', p) <= Places(s, p)
            && s'.sh.pends[p].event == s.sh.pends[p].event
            && ((Drops(s.threads[t], s.sh.pends[p].key) && InTable(s.sh, p)) || Places(s', p) == Places(s, p))
  {
    AppEntry(s.sh, t, s.threads[t], ok, p);
    assert AppNext(s, t, ok).pump == s.pump && CloserHolds(AppNext(s, t, ok)) == CloserHolds(s);
  }

  /** No caller puts an existing pending back into the table. */
  lemma AppEntry(sh: Shared, t: nat, a: App, ok: bool, p: PendId)
    requires TableIds(sh) && AppIds(sh, a) && (a.Accepting? && ok ==> sh.acceptQueue != []) && IsPend(sh, p)
    ensures var sh' := AppStep(sh, t, a, ok).0;
            && IsPend(sh', p) && sh'.pends[p].event == sh.pends[p].event
            && (InTable(sh', p) ==> InTable(sh, p))
            && (InTable(sh, p) && !Drops(a, sh.pends[p].key) ==> InTable(sh', p))
  {
    if !(a.Connecting? && !sh.closed) {
      AppPends(sh, t, a, ok);
      AppOnlyPops(sh, t, a, ok);
      AppKeepsEntry(sh, t, a, ok, sh.pends[p].key);
    }
  }

  lemma AppKeepsEntry(sh: Shared, t: nat, a: App, ok: bool, k: Address)
    requires TableIds(sh) && AppIds(sh, a) && (a.Accepting? && ok ==> sh.acceptQueue != [])
    ensures k in sh.pendingConnects && !Drops(a, k) ==> k in AppStep(sh, t, a, ok).0.pendingConnects
  {
  }

  // ---- The invariant ----

  /** No two live connects to one address. */
  ghost predicate OneLive(s: State) {
    forall t, u, k :: 0 <= t < u < |s.threads| && Live(s.threads[t], k) ==> !Live(s.threads[u], k)
  }

  /** A waiting caller's pending is its own and is in exactly one place. */
  ghost predicate WaiterOk(s: State, t: nat)
    requires t < |s.threads|
  {
    var a := s.threads[t];
    && (forall p: PendId :: WaitsFor(a, p) ==>
          && IsPend(s.sh, p) && s.sh.pends[p].caller == t && Places(s, p) == 1
          && (LiveOn(a, p) ==> s.sh.pends[p].key == a.k)
          && (a == Reaping(p) ==> !InTable(s.sh, p)))
    && (forall p: PendId :: Reaps(a, p) ==>
          IsPend(s.sh, p) && s.sh.pends[p].event && s.sh.pends[p].connection == Some(a.c))
  }

  /** What is in the table belongs to a live connect. */
  ghost predicate OwnerOk(s: State, p: PendId)
    requires IsPend(s.sh, p)
  {
    InTable(s.sh, p) ==>
      var t := s.sh.pends[p].caller;
      t < |s.threads| && LiveOn(s.threads[t], p) && Live(s.threads[t], s.sh.pends[p].key)
  }

  /** A connect that has timed out left nothing behind. */
  ghost predicate NoLeak(sh: Shared, pump: Pump, p: PendId)
    requires IsPend(sh, p)
  {
    sh.pends[p].timedOut ==>
      && !InTable(sh, p) && !PumpHolds(pump, p)
      && (forall c :: 0 <= c < |sh.conns| && sh.conns[c].origin == Some(p) ==> sh.conns[c].closed)
  }

  ghost predicate WaitsOk(s: State) {
    && OutcomesOk(s) && OneLive(s)
    && (forall t :: 0 <= t < |s.threads| ==> WaiterOk(s, t))
    && (forall p :: 0 <= p < |s.sh.pends| ==> OwnerOk(s, p) && NoLeak(s.sh, s.pump, p))
  }

  // ---- Steps of the pump and the closer ----

  /** The threads, as far as connects go, are the same. */
  ghost predicate SameThreads(s: State, s': State) {
    && |s'.threads| == |s.threads|
    && (forall t :: 0 <= t < |s.threads| ==>
          s'.threads[t] == s.threads[t] || (NoConnect(s.threads[t]) && NoConnect(s'.threads[t])))
  }

  ghost predicate NoConnect(a: App) {
    (forall p: PendId :: !WaitsFor(a, p) && !Reaps(a, p)) && (forall k :: !Live(a, k))
  }

  lemma WaitersKeep(s: State, s': State)
    requires WaitsOk(s) && ResolutionOk(s) && ResolutionOk(s') && SameThreads(s, s') && Evolves(s.sh, s'.sh)
    requires forall p :: 0 <= p < |s.sh.pends| ==> Places(s', p) == Places(s, p)
    requires forall p :: 0 <= p < |s.sh.pends| && InTable(s'.sh, p) ==> InTable(s.sh, p)
    requires forall p :: 0 <= p < |s.sh.pends| && s.sh.pends[p].event ==>
               s'.sh.pends[p].connection == s.sh.pends[p].connection
    ensures forall t :: 0 <= t < |s'.threads| ==> WaiterOk(s', t)
  {
    forall t | 0 <= t < |s'.threads| ensures WaiterOk(s', t) {
      assert WaiterOk(s, t);
      forall p: PendId | WaitsFor(s'.threads[t], p)
        ensures IsPend(s'.sh, p) && s'.sh.pends[p].caller == t && Places(s', p) == 1
        ensures LiveOn(s'.threads[t], p) ==> s'.sh.pends[p].key == s'.threads[t].k
        ensures s'.threads[t] == Reaping(p) ==> !InTable(s'.sh, p)
      {
        assert WaitsFor(s.threads[t], p) && PendEvolves(s.sh.pends[p], s'.sh.pends[p]);
      }
      forall p: PendId | Reaps(s'.threads[t], p)
        ensures IsPend(s'.sh, p) && s'.sh.pends[p].event && s'.sh.pends[p].connection == Some(s'.threads[t].c)
      {
        assert Reaps(s.threads[t], p) && PendEvolves(s.sh.pends[p], s'.sh.pends[p]);
      }
    }
  }

  lemma OwnersKeep(s: State, s': State)
    requires WaitsOk(s) && SameThreads(s, s') && Evolves(s.sh, s'.sh) && |s'.sh.pends| == |s.sh.pends|
    requires forall p :: 0 <= p < |s.sh.pends| && InTable(s'.sh, p) ==> InTable(s.sh, p)
    ensures OneLive(s')
    ensures forall p :: 0 <= p < |s'.sh.pends| ==> OwnerOk(s', p)
  {
    forall p | 0 <= p < |s'.sh.pends| ensures OwnerOk(s', p) {
      assert OwnerOk(s, p) && PendEvolves(s.sh.pends[p], s'.sh.pends[p]);
      if InTable(s'.sh, p) {
        var t := s.sh.pends[p].caller;
        assert Live(s.threads[t], s.sh.pends[p].key);
        assert s'.threads[t] == s.threads[t];
      }
    }
    forall t, u, k | 0 <= t < u < |s'.threads| && Live(s'.threads[t], k) ensures !Live(s'.threads[u], k) {
      assert Live(s.threads[t], k);
    }
  }

  /** A step that gives the pump no pending and creates no connection for one. */
  lemma NoLeakKeeps(a: Shared, p: Pump, b: Shared, p': Pump, q: PendId)
    requires IsPend(a, q) && Evolves(a, b) && NoLeak(a, p, q)
    requires InTable(b, q) ==> InTable(a, q)
    requires PumpHolds(p', q) ==> PumpHolds(p, q) || InTable(a, q)
    requires b.pends[q].timedOut == a.pends[q].timedOut
    requires forall c :: |a.conns| <= c < |b.conns| ==> b.conns[c].origin != Some(q) || PumpHolds(p, q)
    ensures NoLeak(b, p', q)
  {
    if a.pends[q].timedOut {
      forall c | 0 <= c < |b.conns| && b.conns[c].origin == Some(q) ensures b.conns[c].closed {
        assert c < |a.conns| && ConnEvolves(a.conns[c], b.conns[c]);
      }
    }
  }

  /** a's table and pendings, seen from b: nothing new, nobody timed out. */
  ghost predicate TableShrinks(a: Shared, b: Shared) {
    && |b.pends| == |a.pends|
    && (forall q :: 0 <= q < |a.pends| ==> b.pends[q].timedOut == a.pends[q].timedOut)
    && (forall k :: k in b.pendingConnects ==> k in a.pendingConnects && b.pendingConnects[k] == a.pendingConnects[k])
  }

  lemma PumpShrinks(sh: Shared, p: Pump)
    requires TableIds(sh) && PumpIds(sh, p)
    ensures TableShrinks(sh, PumpStep(sh, p).0)
  {
    if !HandlesPending(p) {
      PumpIgnores(sh, p);
    }
  }

  lemma PumpTakes(sh: Shared, p: Pump)
    requires TableIds(sh) && PumpIds(sh, p) && TableKeysOk(sh)
    ensures var (sh', p') := PumpStep(sh, p);
            && |sh.conns| <= |sh'.conns|
            && (forall q :: 0 <= q < |sh.pends| && PumpHolds(p', q) ==> PumpHolds(p, q) || InTable(sh, q))
            && (forall c :: |sh.conns| <= c < |sh'.conns| && sh'.conns[c].origin.Some? ==>
                  PumpHolds(p, sh'.conns[c].origin.value))
  {
    if !HandlesPending(p) {
      PumpIgnores(sh, p);
    } else if p.Routing? {
      EnterTakes(sh, p.event);
    }
  }

  lemma EnterTakes(sh: Shared, e: Event)
    requires TableIds(sh) && TableKeysOk(sh) && (e.ConnectSucceeded? || e.ConnectFailed?)
    ensures var (sh', p') := Enter(sh, e);
            sh'.conns == sh.conns && (forall q :: 0 <= q < |sh.pends| && PumpHolds(p', q) ==> InTable(sh, q))
  {
  }

  ghost predicate ConnectsQuiet(s: State, s': State) {
    && SameThreads(s, s') && TableShrinks(s.sh, s'.sh) && |s.sh.conns| <= |s'.sh.conns|
    && (forall q :: 0 <= q < |s.sh.pends| ==> s'.sh.pends[q].key == s.sh.pends[q].key)
    && (forall q :: 0 <= q < |s.sh.pends| && PumpHolds(s'.pump, q) ==> PumpHolds(s.pump, q) || InTable(s.sh, q))
    && (forall c :: |s.sh.conns| <= c < |s'.sh.conns| && s'.sh.conns[c].origin.Some? ==>
          PumpHolds(s.pump, s'.sh.conns[c].origin.value))
  }

  lemma SystemQuiet(s: State, l: Label)
    requires OutcomesOk(s) && Enabled(s, l)
    requires l.AppGo? ==> s.threads[l.t] == ClosingPeer
    ensures ConnectsQuiet(s, Next(s, l))
  {
    StepCoherent(s, l);
    var s' := Next(s, l);
    forall q | 0 <= q < |s.sh.pends| ensures s'.sh.pends[q].key == s.sh.pends[q].key {
      assert PendEvolves(s.sh.pends[q], s'.sh.pends[q]);
    }
    if l.PumpGo? && s.pump != Crashed {
      PumpShrinks(s.sh, s.pump);
      PumpTakes(s.sh, s.pump);
    } else {
      RestQuiet(s, l);
    }
  }

  lemma RestQuiet(s: State, l: Label)
    requires Enabled(s, l) && !(l.PumpGo? && s.pump != Crashed)
    requires l.AppGo? ==> s.threads[l.t] == ClosingPeer
    ensures var s' := Next(s, l);
            && SameThreads(s, s') && TableShrinks(s.sh, s'.sh) && |s.sh.conns| == |s'.sh.conns|
            && (forall q :: PumpHolds(s'.pump, q) ==> PumpHolds(s.pump, q))
  {
    if l.CloserGo? {
      CloserQuiet(s, l.pick);
    } else if l.AppGo? || l.PumpGo? {
      WinQuiet(s, l);
    } else {
      LocalThreads(s, l);
    }
  }

  lemma WinQuiet(s: State, l: Label)
    requires Enabled(s, l)
    requires (l.PumpGo? && s.pump == Crashed) || (l.AppGo? && s.threads[l.t] == ClosingPeer)
    ensures var s' := Next(s, l);
            && SameThreads(s, s') && TableShrinks(s.sh, s'.sh) && |s.sh.conns| == |s'.sh.conns|
            && (forall q :: PumpHolds(s'.pump, q) ==> PumpHolds(s.pump, q))
  {
    if l.AppGo? {
      var s' := Next(s, l);
      assert s'.threads == s.threads[l.t := s'.threads[l.t]];
      assert NoConnect(s.threads[l.t]) && NoConnect(s'.threads[l.t]);
    } else {
      assert Next(s, l).threads == s.threads;
    }
    WinTable(s, l);
  }

  lemma WinTable(s: State, l: Label)
    requires Enabled(s, l)
    requires (l.PumpGo? && s.pump == Crashed) || (l.AppGo? && s.threads[l.t] == ClosingPeer)
    ensures var s' := Next(s, l);
            && TableShrinks(s.sh, s'.sh) && |s.sh.conns| == |s'.sh.conns|
            && (forall q :: PumpHolds(s'.pump, q) ==> PumpHolds(s.pump, q))
  {
  }

  lemma LocalThreads(s: State, l: Label)
    requires Enabled(s, l) && (l.PumpReceive? || l.Begin? || l.Recv?)
    ensures var s' := Next(s, l);
            && SameThreads(s, s') && TableShrinks(s.sh, s'.sh) && |s.sh.conns| == |s'.sh.conns|
            && (forall q :: PumpHolds(s'.pump, q) ==> PumpHolds(s.pump, q))
  {
    if l.Begin? {
      assert NoConnect(s.threads[l.t]) && NoConnect(Next(s, l).threads[l.t]);
    }
  }

  lemma CloserQuiet(s: State, pick: nat)
    requires WellFormed(s) && CloserEnabled(s, pick)
    ensures var s' := CloserNext(s, pick);
            && SameThreads(s, s') && TableShrinks(s.sh, s'.sh) && |s.sh.conns| == |s'.sh.conns|
            && (forall q :: PumpHolds(s'.pump, q) ==> PumpHolds(s.pump, q))
  {
    CloserSparesPends(s.sh, s.closer, s.snap, PeerReason(s), pick);
    ReturnQuiet(s, CloserNext(s, pick));
  }

  lemma ReturnQuiet(s: State, s': State)
    requires s'.pump == s.pump || s'.pump == Stopped
    requires s'.threads == s.threads || s'.threads == Return(s).threads
    ensures SameThreads(s, s') && forall q :: PumpHolds(s'.pump, q) ==> PumpHolds(s.pump, q)
  {
    assert NoConnect(AwaitingClose) && NoConnect(Idle);
  }

  lemma QuietWaits(s: State, s': State)
    requires WaitsOk(s) && OutcomesOk(s') && Evolves(s.sh, s'.sh) && ConnectsQuiet(s, s')
    requires forall p :: 0 <= p < |s.sh.pends| ==> Places(s', p) == Places(s, p)
    requires forall p :: 0 <= p < |s.sh.pends| && s.sh.pends[p].event ==>
               s'.sh.pends[p].connection == s.sh.pends[p].connection
    ensures WaitsOk(s')
  {
    assert forall p :: 0 <= p < |s.sh.pends| && InTable(s'.sh, p) ==> InTable(s.sh, p);
    WaitersKeep(s, s');
    OwnersKeep(s, s');
    forall p | 0 <= p < |s'.sh.pends| ensures NoLeak(s'.sh, s'.pump, p) {
      assert NoLeak(s.sh, s.pump, p);
      NoLeakKeeps(s.sh, s.pump, s'.sh, s'.pump, p);
    }
  }

  lemma SystemWaits(s: State, l: Label)
    requires WaitsOk(s) && Enabled(s, l)
    requires l.AppGo? ==> s.threads[l.t] == ClosingPeer
    ensures WaitsOk(Next(s, l))
  {
    var s' := Next(s, l);
    StepCoherent(s, l);
    StepOutcomes(s, l);
    SystemQuiet(s, l);
    forall p | 0 <= p < |s.sh.pends| ensures Places(s', p) == Places(s, p) {
      SystemKeepsPlaces(s, l, p);
    }
    forall p | 0 <= p < |s.sh.pends| && s.sh.pends[p].event
      ensures s'.sh.pends[p].connection == s.sh.pends[p].connection
    {
      StepKeepsOutcome(s, l, p);
    }
    QuietWaits(s, s');
  }

  // ---- Steps of the callers ----

  /** Nobody else's pending is in the entry that thread t is about to change. */
  lemma NotMine(s: State, t: nat, ok: bool, u: nat, p: PendId)
    requires WaitsOk(s) && Enabled(s, AppGo(t, ok)) && Disciplined(s, AppGo(t, ok))
    requires u < |s.threads| && u != t && WaitsFor(s.threads[u], p)
    ensures !(Drops(s.threads[t], s.sh.pends[p].key) && InTable(s.sh, p))
  {
    assert WaiterOk(s, u);
    if InTable(s.sh, p) {
      var k := s.sh.pends[p].key;
      assert LiveOn(s.threads[u], p) && Live(s.threads[u], k);
      assert !Live(s.threads[t], k);
      assert s.threads[t] != Connecting(k);
    }
  }

  lemma AppOtherWaiters(s: State, t: nat, ok: bool, u: nat)
    requires WaitsOk(s) && Enabled(s, AppGo(t, ok)) && Disciplined(s, AppGo(t, ok)) && s.threads[t] != ClosingPeer
    requires u < |s.threads| && u != t
    ensures WaiterOk(AppNext(s, t, ok), u)
  {
    var s' := AppNext(s, t, ok);
    StepCoherent(s, AppGo(t, ok));
    assert WaiterOk(s, u);
    forall p: PendId | WaitsFor(s.threads[u], p)
      ensures IsPend(s'.sh, p) && s'.sh.pends[p].caller == u && Places(s', p) == 1
      ensures LiveOn(s.threads[u], p) ==> s'.sh.pends[p].key == s.threads[u].k
      ensures s.threads[u] == Reaping(p) ==> !InTable(s'.sh, p)
    {
      NotMine(s, t, ok, u, p);
      AppPlaces(s, t, ok, p);
      assert PendEvolves(s.sh.pends[p], s'.sh.pends[p]);
      AppEntry(s.sh, t, s.threads[t], ok, p);
    }
    forall p: PendId | Reaps(s.threads[u], p)
      ensures IsPend(s'.sh, p) && s'.sh.pends[p].event && s'.sh.pends[p].connection == Some(s.threads[u].c)
    {
      StepKeepsOutcome(s, AppGo(t, ok), p);
    }
  }

  lemma AppOneLive(s: State, t: nat, ok: bool)
    requires OneLive(s) && Enabled(s, AppGo(t, ok)) && Disciplined(s, AppGo(t, ok)) && s.threads[t] != ClosingPeer
    ensures OneLive(AppNext(s, t, ok))
  {
    var s' := AppNext(s, t, ok);
    var a, a' := s.threads[t], s'.threads[t];
    assert s'.threads == s.threads[t := a'];
    LivesOn(s.sh, t, a, ok);
  }

  lemma LivesOn(sh: Shared, t: nat, a: App, ok: bool)
    requires TableIds(sh) && AppIds(sh, a) && (a.Accepting? && ok ==> sh.acceptQueue != [])
    ensures forall k :: Live(AppStep(sh, t, a, ok).1, k) ==> Live(a, k) || a == Connecting(k)
  {
  }

  lemma AppOwners(s: State, t: nat, ok: bool, p: PendId)
    requires OutcomesOk(s) && Enabled(s, AppGo(t, ok)) && s.threads[t] != ClosingPeer
    requires IsPend(AppNext(s, t, ok).sh, p) && (p < |s.sh.pends| ==> OwnerOk(s, p))
    ensures OwnerOk(AppNext(s, t, ok), p)
  {
    var s' := AppNext(s, t, ok);
    if p < |s.sh.pends| {
      AppGoOk(s, t, ok);
      AppEntry(s.sh, t, s.threads[t], ok, p);
      assert OwnerOk(s, p) && PendEvolves(s.sh.pends[p], s'.sh.pends[p]);
      if InTable(s'.sh, p) && s.sh.pends[p].caller == t {
        OwnEntry(s, t, ok, p);
      }
    } else {
      NewOwner(s, t, ok, p);
    }
  }

  lemma NewOwner(s: State, t: nat, ok: bool, p: PendId)
    requires Enabled(s, AppGo(t, ok)) && s.threads[t] != ClosingPeer
    requires |s.sh.pends| <= p < |AppNext(s, t, ok).sh.pends|
    ensures OwnerOk(AppNext(s, t, ok), p)
  {
    assert s.threads[t].Connecting?;
  }

  /** A caller leaves its wait only with its pending out of the table. */
  lemma OwnEntry(s: State, t: nat, ok: bool, p: PendId)
    requires ResolutionOk(s) && Enabled(s, AppGo(t, ok)) && IsPend(s.sh, p) && InTable(s.sh, p) && OwnerOk(s, p)
    requires s.sh.pends[p].caller == t && s.threads[t] != ClosingPeer
    ensures var s' := AppNext(s, t, ok);
            InTable(s'.sh, p) ==> LiveOn(s'.threads[t], p) && Live(s'.threads[t], s.sh.pends[p].key)
  {
    assert PendOk(s, p);
  }

  /** A waiting connect goes on with its pending, or is over. */
  lemma WaiterMoves(s: State, s': State, t: nat, p: PendId)
    requires t < |s.threads| && t < |s'.threads| && WaiterOk(s, t) && WaitsFor(s.threads[t], p)
    requires IsPend(s.sh, p) && IsPend(s'.sh, p) && PendEvolves(s.sh.pends[p], s'.sh.pends[p])
    requires var a, b := s.threads[t], s'.threads[t];
             || b.Idle? || b.Collecting?
             || (LiveOn(a, p) && LiveOn(b, p) && b.k == a.k && Places(s', p) == 1)
             || (b == Reaping(p) && Places(s', p) == 1 && !InTable(s'.sh, p))
    ensures WaiterOk(s', t)
  {
    var b := s'.threads[t];
    assert forall q: PendId :: WaitsFor(b, q) ==> q == p;
    assert forall q: PendId :: !Reaps(b, q);
  }

  lemma LiveMoves(sh: Shared, t: nat, a: App, ok: bool)
    requires TableIds(sh) && AppIds(sh, a) && (a.Starting? || a.Waiting? || a.Undoing? || a.Abandoning?)
    ensures var a' := AppStep(sh, t, a, ok).1;
            || a'.Idle? || a'.Collecting?
            || (LiveOn(a', a.p) && a'.k == a.k && !Drops(a, a.k))
            || (a' == Reaping(a.p) && a.Abandoning? && a.k !in sh.pendingConnects)
  {
  }

  lemma LiveSelf(s: State, t: nat, ok: bool)
    requires OutcomesOk(s) && Enabled(s, AppGo(t, ok)) && WaiterOk(s, t)
    requires s.threads[t].Starting? || s.threads[t].Waiting? || s.threads[t].Undoing? || s.threads[t].Abandoning?
    ensures WaiterOk(AppNext(s, t, ok), t)
  {
    var a := s.threads[t];
    assert WaitsFor(a, a.p);
    AppGoOk(s, t, ok);
    AppPlaces(s, t, ok, a.p);
    AppEntry(s.sh, t, a, ok, a.p);
    LiveMoves(s.sh, t, a, ok);
    WaiterMoves(s, AppNext(s, t, ok), t, a.p);
  }

  lemma ConnectSelf(s: State, t: nat, ok: bool)
    requires WaitsOk(s) && Enabled(s, AppGo(t, ok)) && s.threads[t].Connecting?
    ensures WaiterOk(AppNext(s, t, ok), t)
  {
  }

  /** A thread that is idle, or closes the connection its pending got. */
  lemma CloserWaits(s: State, t: nat, a: App)
    requires t < |s.threads| && s.threads[t] == a
    requires a.Idle? || a.Testing? || a.Dropping? || a.Flagging? || a.Shutting?
    requires !a.Idle? && a.reap.Some? ==>
               && IsPend(s.sh, a.reap.value) && s.sh.pends[a.reap.value].event
               && s.sh.pends[a.reap.value].connection == Some(a.c)
    ensures WaiterOk(s, t)
  {
  }

  lemma ReapSelf(s: State, t: nat, ok: bool)
    requires ResolutionOk(s) && Enabled(s, AppGo(t, ok)) && s.threads[t].Reaping?
    ensures WaiterOk(AppNext(s, t, ok), t)
  {
    var p := s.threads[t].p;
    StepKeepsOutcome(s, AppGo(t, ok), p);
    ReapMoves(s.sh, t, p, ok);
    CloserWaits(AppNext(s, t, ok), t, AppNext(s, t, ok).threads[t]);
  }

  lemma ReapMoves(sh: Shared, t: nat, p: PendId, ok: bool)
    requires TableIds(sh) && AppIds(sh, Reaping(p))
    ensures var a' := AppStep(sh, t, Reaping(p), ok).1;
            a' == Idle || (sh.pends[p].connection.Some? && a' == Testing(sh.pends[p].connection.value, Some(p)))
  {
  }

  lemma CloseSelf(s: State, t: nat, ok: bool)
    requires ResolutionOk(s) && Enabled(s, AppGo(t, ok)) && WaiterOk(s, t)
    requires s.threads[t].Testing? || s.threads[t].Dropping? || s.threads[t].Flagging? || s.threads[t].Shutting?
    ensures WaiterOk(AppNext(s, t, ok), t)
  {
    var a := s.threads[t];
    CloseMoves(s.sh, t, a, ok);
    if a.reap.Some? {
      ReaperKnows(s, t, a.reap.value);
      StepKeepsOutcome(s, AppGo(t, ok), a.reap.value);
    }
    CloserWaits(AppNext(s, t, ok), t, AppNext(s, t, ok).threads[t]);
  }

  lemma ReaperKnows(s: State, t: nat, p: PendId)
    requires t < |s.threads| && WaiterOk(s, t) && Reaps(s.threads[t], p)
    ensures IsPend(s.sh, p) && s.sh.pends[p].event && s.sh.pends[p].connection == Some(s.threads[t].c)
  {
  }

  /** Connection.close goes on for the same connection, or is over. */
  lemma CloseMoves(sh: Shared, t: nat, a: App, ok: bool)
    requires TableIds(sh) && AppIds(sh, a) && (a.Testing? || a.Dropping? || a.Flagging? || a.Shutting?)
    ensures var a' := AppStep(sh, t, a, ok).1;
            a' == Idle || ((a'.Dropping? || a'.Flagging? || a'.Shutting?) && a'.c == a.c && a'.reap == a.reap)
  {
  }

  lemma AppSelf(s: State, t: nat, ok: bool)
    requires WaitsOk(s) && Enabled(s, AppGo(t, ok)) && s.threads[t] != ClosingPeer
    ensures WaiterOk(AppNext(s, t, ok), t)
  {
    var a := s.threads[t];
    if a.Connecting? {
      ConnectSelf(s, t, ok);
    } else if a.Starting? || a.Waiting? || a.Undoing? || a.Abandoning? {
      LiveSelf(s, t, ok);
    } else if a.Reaping? {
      ReapSelf(s, t, ok);
    } else if a.Testing? || a.Dropping? || a.Flagging? || a.Shutting? {
      CloseSelf(s, t, ok);
    } else {
      OthersMove(s.sh, t, a, ok);
    }
  }

  lemma OthersMove(sh: Shared, t: nat, a: App, ok: bool)
    requires TableIds(sh) && AppIds(sh, a) && (a.Accepting? && ok ==> sh.acceptQueue != [])
    requires !a.Connecting? && !a.Starting? && !a.Undoing? && !a.Waiting? && !a.Abandoning? && !a.Reaping?
    requires !a.Testing? && !a.Dropping? && !a.Flagging? && !a.Shutting?
    ensures NoConnect(AppStep(sh, t, a, ok).1)
  {
  }

  // ---- Timed-out connects ----

  /** The only connection ever made for p, if there is one, is the one its pending got. */
  lemma OnlyConnection(s: State, p: PendId, c: ConnId)
    requires ResolutionOk(s) && IsPend(s.sh, p) && IsConn(s.sh, c) && s.sh.conns[c].origin == Some(p)
    requires !PumpHolds(s.pump, p)
    ensures s.sh.pends[p].connection == Some(c)
  {
    assert OriginOk(s.sh, s.pump, c);
  }

  /** A live connect that finds its key in the table finds its own pending there, unresolved. */
  lemma FindsOwn(s: State, t: nat)
    requires WaitsOk(s) && t < |s.threads| && s.threads[t].Abandoning? && s.threads[t].k in s.sh.pendingConnects
    ensures IsPend(s.sh, s.threads[t].p) && s.sh.pends[s.threads[t].p].key == s.threads[t].k
    ensures InTable(s.sh, s.threads[t].p) && !PumpHolds(s.pump, s.threads[t].p)
    ensures forall c :: 0 <= c < |s.sh.conns| ==> s.sh.conns[c].origin != Some(s.threads[t].p)
  {
    var k, p := s.threads[t].k, s.threads[t].p;
    var q := s.sh.pendingConnects[k];
    assert InTable(s.sh, q) && OwnerOk(s, q);
    var u := s.sh.pends[q].caller;
    assert Live(s.threads[t], k) && Live(s.threads[u], k);
    assert u == t;
    assert PendOk(s, p);
    forall c | 0 <= c < |s.sh.conns| ensures s.sh.conns[c].origin != Some(p) {
      if s.sh.conns[c].origin == Some(p) {
        OnlyConnection(s, p, c);
      }
    }
  }

  /** The pending a step of t times out, if any. */
  predicate TimesOut(s: State, t: nat, p: PendId)
    requires t < |s.threads|
  {
    var a := s.threads[t];
    ((a.Abandoning? || a.Reaping?) && a.p == p) || ((a.Testing? || a.Shutting?) && a.reap == Some(p))
  }

  lemma ReapedNoLeak(s: State, t: nat, ok: bool, p: PendId)
    requires WaitsOk(s) && Enabled(s, AppGo(t, ok)) && IsPend(s.sh, p)
    requires s.threads[t].Reaping? || s.threads[t].Testing? || s.threads[t].Shutting?
    requires TimesOut(s, t, p)
    ensures NoLeak(AppNext(s, t, ok).sh, s.pump, p)
  {
    var s' := AppNext(s, t, ok);
    var a := s.threads[t];
    assert WaiterOk(s, t) && PendOk(s, p) && (WaitsFor(a, p) || Reaps(a, p));
    assert s.sh.pends[p].event;
    assert !PumpHolds(s.pump, p) && !InTable(s.sh, p);
    if s'.sh.pends[p].timedOut {
      forall c | 0 <= c < |s'.sh.conns| && s'.sh.conns[c].origin == Some(p) ensures s'.sh.conns[c].closed {
        assert s.sh.conns[c].origin == Some(p);
        OnlyConnection(s, p, c);
        assert NoLeak(s.sh, s.pump, p);
      }
    }
  }

  lemma AppNoLeak(s: State, t: nat, ok: bool, p: PendId)
    requires WaitsOk(s) && Enabled(s, AppGo(t, ok)) && s.threads[t] != ClosingPeer
    requires IsPend(AppNext(s, t, ok).sh, p)
    ensures NoLeak(AppNext(s, t, ok).sh, s.pump, p)
  {
    var s' := AppNext(s, t, ok);
    StepCoherent(s, AppGo(t, ok));
    AppObjects(s.sh, t, s.threads[t], ok);
    if p < |s.sh.pends| {
      assert NoLeak(s.sh, s.pump, p);
      AppEntry(s.sh, t, s.threads[t], ok, p);
      if TimesOut(s, t, p) && s.threads[t].Abandoning? {
        AbandonedNoLeak(s, t, ok, p);
      } else if TimesOut(s, t, p) {
        ReapedNoLeak(s, t, ok, p);
      } else {
        AppTimesOut(s, t, ok, p);
        NoLeakKeeps(s.sh, s.pump, s'.sh, s.pump, p);
      }
    }
  }

  lemma AbandonedNoLeak(s: State, t: nat, ok: bool, p: PendId)
    requires WaitsOk(s) && Enabled(s, AppGo(t, ok)) && IsPend(s.sh, p)
    requires s.threads[t].Abandoning? && s.threads[t].p == p
    ensures NoLeak(AppNext(s, t, ok).sh, s.pump, p)
  {
    var sh' := AppNext(s, t, ok).sh;
    assert sh'.conns == s.sh.conns;
    if s.threads[t].k in s.sh.pendingConnects {
      FindsOwn(s, t);
      assert !InTable(sh', p);
    } else {
      assert NoLeak(s.sh, s.pump, p) && sh'.pends == s.sh.pends;
    }
  }

  lemma AppObjects(sh: Shared, t: nat, a: App, ok: bool)
    requires TableIds(sh) && AppIds(sh, a) && (a.Accepting? && ok ==> sh.acceptQueue != [])
    ensures var sh' := AppStep(sh, t, a, ok).0;
            && |sh'.conns| == |sh.conns|
            && (forall p :: |sh.pends| <= p < |sh'.pends| ==> !sh'.pends[p].timedOut)
  {
  }

  lemma AppTimesOut(s: State, t: nat, ok: bool, p: PendId)
    requires Enabled(s, AppGo(t, ok)) && s.threads[t] != ClosingPeer && IsPend(s.sh, p) && !TimesOut(s, t, p)
    ensures var sh' := AppNext(s, t, ok).sh; IsPend(sh', p) && sh'.pends[p].timedOut == s.sh.pends[p].timedOut
  {
  }

  // ---- Every step ----

  lemma StepWaits(s: State, l: Label)
    requires WaitsOk(s) && Enabled(s, l) && Disciplined(s, l)
    ensures WaitsOk(Next(s, l))
  {
    if l.AppGo? && s.threads[l.t] != ClosingPeer {
      AppWaits(s, l.t, l.ok);
    } else {
      SystemWaits(s, l);
    }
  }

  lemma AppWaits(s: State, t: nat, ok: bool)
    requires WaitsOk(s) && Enabled(s, AppGo(t, ok)) && Disciplined(s, AppGo(t, ok)) && s.threads[t] != ClosingPeer
    ensures WaitsOk(AppNext(s, t, ok))
  {
    var s' := AppNext(s, t, ok);
    StepOutcomes(s, AppGo(t, ok));
    AppOneLive(s, t, ok);
    forall u | 0 <= u < |s'.threads| ensures WaiterOk(s', u) {
      if u == t {
        AppSelf(s, t, ok);
      } else {
        AppOtherWaiters(s, t, ok, u);
      }
    }
    forall p | 0 <= p < |s'.sh.pends| ensures OwnerOk(s', p) && NoLeak(s'.sh, s'.pump, p) {
      AppOwners(s, t, ok, p);
      AppNoLeak(s, t, ok, p);
    }
  }

  lemma {:induction false} AlwaysWaitsOk(s: State, ls: seq<Label>)
    requires WaitsOk(s) && IsRun(s, ls) && DisciplinedRun(s, ls)
    ensures WaitsOk(After(s, ls))
    decreases |ls|
  {
    if ls != [] {
      StepWaits(s, ls[0]);
      AlwaysWaitsOk(Next(s, ls[0]), ls[1..]);
    }
  }

  lemma InitialWaitsOk(s: State)
    requires Initial(s)
    ensures WaitsOk(s)
  {
    InitialOutcomesOk(s);
  }

  /** Under the uniqueness assumption, in every run: the pending of a waiting connect is in exactly one
      place, the table, the pump's hands, the closer's hands, or signalled; and for the unbounded second
      wait it is not the table. */
  lemma NoStrandedConnect(s: State, ls: seq<Label>, t: nat, p: PendId)
    requires Initial(s) && IsRun(s, ls) && DisciplinedRun(s, ls)
    requires t < |After(s, ls).threads| && WaitsFor(After(s, ls).threads[t], p)
    ensures var s' := After(s, ls);
            && IsPend(s'.sh, p) && Places(s', p) == 1
            && (s'.threads[t] == Reaping(p) ==> !InTable(s'.sh, p))
  {
    InitialWaitsOk(s);
    AlwaysWaitsOk(s, ls);
    assert WaiterOk(After(s, ls), t);
  }

  /** Under the uniqueness assumption: whenever a connect has raised TimeoutError, its pending is out of
      the table and out of the pump's hands, and any connection ever created for it is closed and not
      registered. */
  lemma TimedOutConnectDoesNotLeak(s: State, ls: seq<Label>, p: PendId)
    requires Initial(s) && IsRun(s, ls) && DisciplinedRun(s, ls)
    requires IsPend(After(s, ls).sh, p) && After(s, ls).sh.pends[p].timedOut
    ensures var s' := After(s, ls);
            && !InTable(s'.sh, p) && !PumpHolds(s'.pump, p)
            && (forall c :: 0 <= c < |s'.sh.conns| && s'.sh.conns[c].origin == Some(p) ==>
                  s'.sh.conns[c].closed && !Registered(s'.sh, c))
  {
    InitialWaitsOk(s);
    AlwaysWaitsOk(s, ls);
    var s' := After(s, ls);
    assert NoLeak(s'.sh, s'.pump, p);
  }
}
