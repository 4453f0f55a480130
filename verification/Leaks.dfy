/** Timed-out connects without the uniqueness assumption: exactly when a second connect to the same address
    lets a timed-out one leave an open connection behind. */
module Leaks {
  import opened RakTypes
  import opened PeerState
  import opened Protocol
  import opened Coherence
  import opened Resolution
  import opened Outcomes
  import opened Waits
  import opened Stranding
  import opened FailedConnects

  /** A connect for k that may still raise TimeoutError. */
  predicate CanTimeOut(a: App, k: Address) {
    (a.Starting? || a.Waiting? || a.Abandoning?) && a.k == k
  }

  /** Nothing made for p is open, and nothing will ever be made for it. */
  ghost predicate Harmless(s: State, p: PendId) {
    OutOfReach(s.sh, s.pump, p) && NoneOpenFor(s.sh, p)
  }

  /** What a thread inside connect knows about its pending. */
  ghost predicate KnowsOk(s: State, t: nat)
    requires t < |s.threads|
  {
    var a := s.threads[t];
    && (forall p: PendId :: LiveOn(a, p) ==> IsPend(s.sh, p) && s.sh.pends[p].caller == t && s.sh.pends[p].key == a.k)
    && (forall p: PendId :: Reaps(a, p) ==>
          IsPend(s.sh, p) && s.sh.pends[p].event && s.sh.pends[p].connection == Some(a.c))
  }

  /** While a connect that may time out could still leave a connection, no other live connect for its address
      has an entry that it would take for its own. */
  ghost predicate FindsOwnOnly(s: State, t: nat, u: nat)
    requires t < |s.threads| && u < |s.threads|
  {
    var a, b := s.threads[t], s.threads[u];
    forall k :: t != u && CanTimeOut(a, k) && Live(b, k) && IsPend(s.sh, b.p) && InTable(s.sh, b.p) ==> Harmless(s, a.p)
  }

  ghost predicate NoLeakYet(s: State, p: PendId)
    requires IsPend(s.sh, p)
  {
    s.sh.pends[p].timedOut ==> Harmless(s, p)
  }

  ghost predicate WeakOk(s: State) {
    && OutcomesOk(s)
    && (forall t :: 0 <= t < |s.threads| ==> KnowsOk(s, t))
    && (forall t, u :: 0 <= t < |s.threads| && 0 <= u < |s.threads| ==> FindsOwnOnly(s, t, u))
    && (forall p :: 0 <= p < |s.sh.pends| ==> OwnerOk(s, p) && NoLeakYet(s, p))
  }

  /** Of the other connects for k that may time out, none has a connection open or in the making. */
  predicate Mild(s: State, t: nat, k: Address) {
    forall u :: 0 <= u < |s.threads| && u != t && CanTimeOut(s.threads[u], k) ==>
      !Makes(s.pump, s.threads[u].p) && NoneOpenFor(s.sh, s.threads[u].p)
  }

  lemma WaitsAreWeak(s: State)
    requires WaitsOk(s)
    ensures WeakOk(s)
  {
    forall t | 0 <= t < |s.threads| ensures KnowsOk(s, t) {
      assert WaiterOk(s, t);
      assert forall p: PendId :: LiveOn(s.threads[t], p) ==> WaitsFor(s.threads[t], p);
    }
    forall t, u | 0 <= t < |s.threads| && 0 <= u < |s.threads| ensures FindsOwnOnly(s, t, u) {
      assert forall k :: CanTimeOut(s.threads[t], k) ==> Live(s.threads[t], k);
      assert t != u ==> forall k :: Live(s.threads[t], k) ==> !Live(s.threads[u], k);
    }
    forall p | 0 <= p < |s.sh.pends| ensures NoLeakYet(s, p) {
      assert NoLeak(s.sh, s.pump, p);
    }
  }

  // ---- Steps of the pump and the closer ----

  lemma HarmlessStays(s: State, l: Label, p: PendId)
    requires OutcomesOk(s) && Enabled(s, l) && Harmless(s, p)
    ensures Harmless(Next(s, l), p)
  {
    StepClean(s, l, p);
  }

  /** A step that leaves the threads inside connect where they are. */
  lemma QuietKnows(s: State, l: Label, t: nat)
    requires OutcomesOk(s) && Enabled(s, l) && t < |s.threads| && t < |Next(s, l).threads| && KnowsOk(s, t)
    requires Next(s, l).threads[t] == s.threads[t]
    ensures KnowsOk(Next(s, l), t)
  {
    var a, s' := s.threads[t], Next(s, l);
    StepCoherent(s, l);
    forall p: PendId | LiveOn(a, p)
      ensures IsPend(s'.sh, p) && s'.sh.pends[p].caller == t && s'.sh.pends[p].key == a.k
    {
      assert PendEvolves(s.sh.pends[p], s'.sh.pends[p]);
    }
    forall p: PendId | Reaps(a, p)
      ensures IsPend(s'.sh, p) && s'.sh.pends[p].event && s'.sh.pends[p].connection == Some(a.c)
    {
      StepKeepsOutcome(s, l, p);
    }
  }

  lemma IdleKnows(s: State, t: nat)
    requires t < |s.threads| && NoConnect(s.threads[t])
    ensures KnowsOk(s, t)
  {
    assert forall p: PendId :: LiveOn(s.threads[t], p) ==> WaitsFor(s.threads[t], p);
  }

  /** b is at most as live as a, for the same pending. */
  ghost predicate NoLivelier(a: App, b: App) {
    && (forall k :: CanTimeOut(b, k) ==> CanTimeOut(a, k) && b.p == a.p)
    && (forall k :: Live(b, k) ==> Live(a, k) && b.p == a.p)
  }

  /** Two threads that become no livelier, while no pending comes back into the table. */
  lemma PairStays(s: State, l: Label, s': State, t: nat, u: nat)
    requires OutcomesOk(s) && Enabled(s, l) && s' == Next(s, l)
    requires t < |s.threads| == |s'.threads| && u < |s.threads| && FindsOwnOnly(s, t, u)
    requires NoLivelier(s.threads[t], s'.threads[t]) && NoLivelier(s.threads[u], s'.threads[u])
    requires TableOnlyLess(s.sh, s'.sh) && KnowsOk(s, u)
    ensures FindsOwnOnly(s', t, u)
  {
    LiveHasPend(s, u);
    forall k | t != u && CanTimeOut(s'.threads[t], k) && Live(s'.threads[u], k)
               && IsPend(s'.sh, s'.threads[u].p) && InTable(s'.sh, s'.threads[u].p)
      ensures Harmless(s', s'.threads[t].p)
    {
      HarmlessStays(s, l, s.threads[t].p);
    }
  }

  ghost predicate TableOnlyLess(a: Shared, b: Shared) {
    |a.pends| <= |b.pends| && forall p :: 0 <= p < |a.pends| && InTable(b, p) ==> InTable(a, p)
  }

  lemma LiveHasPend(s: State, u: nat)
    requires u < |s.threads| && KnowsOk(s, u)
    ensures forall k :: Live(s.threads[u], k) ==> IsPend(s.sh, s.threads[u].p)
  {
    if exists k :: Live(s.threads[u], k) {
      assert LiveOn(s.threads[u], s.threads[u].p);
    }
  }

  lemma NoLiveNoConnect(a: App, b: App)
    requires a == b || (NoConnect(a) && NoConnect(b))
    ensures NoLivelier(a, b)
  {
    assert forall k :: CanTimeOut(b, k) ==> Live(b, k);
  }

  lemma SystemWeak(s: State, l: Label)
    requires WeakOk(s) && Enabled(s, l) && (l.AppGo? ==> s.threads[l.t] == ClosingPeer)
    ensures WeakOk(Next(s, l))
  {
    var s' := Next(s, l);
    StepOutcomes(s, l);
    SystemQuiet(s, l);
    TableStays(s, s');
    forall t | 0 <= t < |s'.threads| ensures KnowsOk(s', t) {
      if s'.threads[t] == s.threads[t] {
        QuietKnows(s, l, t);
      } else {
        IdleKnows(s', t);
      }
    }
    forall t, u | 0 <= t < |s'.threads| && 0 <= u < |s'.threads| ensures FindsOwnOnly(s', t, u) {
      NoLiveNoConnect(s.threads[t], s'.threads[t]);
      NoLiveNoConnect(s.threads[u], s'.threads[u]);
      PairStays(s, l, s', t, u);
    }
    SystemOwners(s, l);
    forall p | 0 <= p < |s'.sh.pends| ensures NoLeakYet(s', p) {
      assert NoLeakYet(s, p);
      if s.sh.pends[p].timedOut {
        HarmlessStays(s, l, p);
      }
    }
  }

  lemma TableStays(s: State, s': State)
    requires ConnectsQuiet(s, s')
    ensures TableOnlyLess(s.sh, s'.sh)
  {
  }

  lemma SystemOwners(s: State, l: Label)
    requires WeakOk(s) && Enabled(s, l) && ConnectsQuiet(s, Next(s, l))
    ensures var s' := Next(s, l); forall p :: 0 <= p < |s'.sh.pends| ==> OwnerOk(s', p)
  {
    var s' := Next(s, l);
    StepCoherent(s, l);
    TableStays(s, s');
    forall p | 0 <= p < |s'.sh.pends| ensures OwnerOk(s', p) {
      assert OwnerOk(s, p) && PendEvolves(s.sh.pends[p], s'.sh.pends[p]);
      if InTable(s'.sh, p) {
        var t := s.sh.pends[p].caller;
        assert Live(s.threads[t], s.sh.pends[p].key);
        assert s'.threads[t] == s.threads[t];
      }
    }
  }

  // ---- Steps of the callers ----

  lemma AppKnows(s: State, t: nat, ok: bool)
    requires OutcomesOk(s) && Enabled(s, AppGo(t, ok)) && s.threads[t] != ClosingPeer && KnowsOk(s, t)
    ensures KnowsOk(AppNext(s, t, ok), t)
  {
    var a := s.threads[t];
    if a.Starting? || a.Waiting? || a.Undoing? || a.Abandoning? {
      LiveKnows(s, t, ok);
    } else if a.Reaping? {
      ReapMoves(s.sh, t, a.p, ok);
      StepKeepsOutcome(s, AppGo(t, ok), a.p);
      CloserKnows(AppNext(s, t, ok), t, AppNext(s, t, ok).threads[t]);
    } else if a.Testing? || a.Dropping? || a.Flagging? || a.Shutting? {
      CloseKnows(s, t, ok);
    } else if a.Connecting? {
      ConnectKnows(s, t, ok);
    } else {
      OthersMove(s.sh, t, a, ok);
      IdleKnows(AppNext(s, t, ok), t);
    }
  }

  lemma LiveKnows(s: State, t: nat, ok: bool)
    requires OutcomesOk(s) && Enabled(s, AppGo(t, ok)) && KnowsOk(s, t)
    requires s.threads[t].Starting? || s.threads[t].Waiting? || s.threads[t].Undoing? || s.threads[t].Abandoning?
    ensures KnowsOk(AppNext(s, t, ok), t)
  {
    var a := s.threads[t];
    assert LiveOn(a, a.p);
    LiveMoves(s.sh, t, a, ok);
    AppGoOk(s, t, ok);
    StillKnows(s, AppNext(s, t, ok), t, a.p);
  }

  /** A thread that goes on with its pending, or is no longer live. */
  lemma StillKnows(s: State, s': State, t: nat, p: PendId)
    requires t < |s.threads| && t < |s'.threads| && KnowsOk(s, t) && LiveOn(s.threads[t], p)
    requires IsPend(s.sh, p) && IsPend(s'.sh, p) && PendEvolves(s.sh.pends[p], s'.sh.pends[p])
    requires var a, b := s.threads[t], s'.threads[t];
             b.Idle? || b.Collecting? || b.Reaping? || (LiveOn(b, p) && b.k == a.k)
    ensures KnowsOk(s', t)
  {
  }

  lemma ConnectKnows(s: State, t: nat, ok: bool)
    requires Enabled(s, AppGo(t, ok)) && s.threads[t].Connecting?
    ensures KnowsOk(AppNext(s, t, ok), t)
  {
  }

  /** A thread that is idle, or closes the connection its pending got. */
  lemma CloserKnows(s: State, t: nat, a: App)
    requires t < |s.threads| && s.threads[t] == a
    requires a.Idle? || a.Testing? || a.Dropping? || a.Flagging? || a.Shutting?
    requires !a.Idle? && a.reap.Some? ==>
               && IsPend(s.sh, a.reap.value) && s.sh.pends[a.reap.value].event
               && s.sh.pends[a.reap.value].connection == Some(a.c)
    ensures KnowsOk(s, t)
  {
  }

  lemma CloseKnows(s: State, t: nat, ok: bool)
    requires ResolutionOk(s) && Enabled(s, AppGo(t, ok)) && KnowsOk(s, t)
    requires s.threads[t].Testing? || s.threads[t].Dropping? || s.threads[t].Flagging? || s.threads[t].Shutting?
    ensures KnowsOk(AppNext(s, t, ok), t)
  {
    var a := s.threads[t];
    CloseMoves(s.sh, t, a, ok);
    if a.reap.Some? {
      ReaperRemembers(s, t, a.reap.value);
      StepKeepsOutcome(s, AppGo(t, ok), a.reap.value);
    }
    CloserKnows(AppNext(s, t, ok), t, AppNext(s, t, ok).threads[t]);
  }

  lemma ReaperRemembers(s: State, t: nat, p: PendId)
    requires t < |s.threads| && KnowsOk(s, t) && Reaps(s.threads[t], p)
    ensures IsPend(s.sh, p) && s.sh.pends[p].event && s.sh.pends[p].connection == Some(s.threads[t].c)
  {
  }

  /** A step of t that registers nothing. */
  lemma AppPair(s: State, t: nat, ok: bool, u: nat, v: nat)
    requires OutcomesOk(s) && Enabled(s, AppGo(t, ok)) && s.threads[t] != ClosingPeer
    requires !(s.threads[t].Connecting? && !s.sh.closed)
    requires u < |s.threads| && v < |s.threads| && KnowsOk(s, v) && FindsOwnOnly(s, u, v)
    ensures FindsOwnOnly(AppNext(s, t, ok), u, v)
  {
    var s' := AppNext(s, t, ok);
    LiveShrinks(s.sh, t, s.threads[t], ok);
    AppPends(s.sh, t, s.threads[t], ok);
    forall p | 0 <= p < |s.sh.pends| && InTable(s'.sh, p) ensures InTable(s.sh, p) {
      AppEntry(s.sh, t, s.threads[t], ok, p);
    }
    PairStays(s, AppGo(t, ok), s', u, v);
  }

  lemma LiveShrinks(sh: Shared, t: nat, a: App, ok: bool)
    requires TableIds(sh) && AppIds(sh, a) && (a.Accepting? && ok ==> sh.acceptQueue != [])
    requires !(a.Connecting? && !sh.closed)
    ensures NoLivelier(a, AppStep(sh, t, a, ok).1)
  {
  }

  /** The registration itself. */
  lemma RegisterPair(s: State, t: nat, ok: bool, u: nat, v: nat)
    requires OutcomesOk(s) && Enabled(s, AppGo(t, ok)) && s.threads[t].Connecting? && !s.sh.closed
    requires Mild(s, t, s.threads[t].k)
    requires u < |s.threads| && v < |s.threads| && KnowsOk(s, u) && KnowsOk(s, v) && FindsOwnOnly(s, u, v)
    ensures FindsOwnOnly(AppNext(s, t, ok), u, v)
  {
    var s', k := AppNext(s, t, ok), s.threads[t].k;
    assert s'.threads == s.threads[t := Starting(k, |s.sh.pends|)];
    LiveHasPend(s, u);
    LiveHasPend(s, v);
    forall j | u != v && CanTimeOut(s'.threads[u], j) && Live(s'.threads[v], j)
               && IsPend(s'.sh, s'.threads[v].p) && InTable(s'.sh, s'.threads[v].p)
      ensures Harmless(s', s'.threads[u].p)
    {
      if u == t {
        OverwrittenIsOut(s, t, ok, v);
      } else if v == t {
        OverwrittenIsHarmless(s, t, ok, u);
      } else {
        assert InTable(s.sh, s.threads[v].p);
        HarmlessStays(s, AppGo(t, ok), s.threads[u].p);
      }
    }
  }

  /** The entry of another live connect for the address is gone. */
  lemma OverwrittenIsOut(s: State, t: nat, ok: bool, u: nat)
    requires Coherent(s) && Enabled(s, AppGo(t, ok)) && s.threads[t].Connecting? && !s.sh.closed
    requires u < |s.threads| && u != t && KnowsOk(s, u) && Live(s.threads[u], s.threads[t].k)
    ensures IsPend(s.sh, s.threads[u].p) && !InTable(AppNext(s, t, ok).sh, s.threads[u].p)
  {
    assert LiveOn(s.threads[u], s.threads[u].p);
  }

  lemma OverwrittenIsHarmless(s: State, t: nat, ok: bool, u: nat)
    requires Coherent(s) && Enabled(s, AppGo(t, ok)) && s.threads[t].Connecting? && !s.sh.closed
    requires Mild(s, t, s.threads[t].k)
    requires u < |s.threads| && u != t && KnowsOk(s, u) && CanTimeOut(s.threads[u], s.threads[t].k)
    ensures Harmless(AppNext(s, t, ok), s.threads[u].p)
  {
    OverwrittenIsOut(s, t, ok, u);
  }

  // ---- The moment of the timeout ----

  /** A signalled pending whose connection, if any, is closed. */
  lemma SignalledIsHarmless(s: State, p: PendId)
    requires ResolutionOk(s) && IsPend(s.sh, p) && s.sh.pends[p].event
    requires s.sh.pends[p].connection.Some? ==> IsClosed(s.sh, s.sh.pends[p].connection.value)
    ensures Harmless(s, p)
  {
    assert PendOk(s, p);
    MadeIsAttached(s, p);
  }

  lemma ReapedIsHarmless(s: State, t: nat, ok: bool, p: PendId)
    requires OutcomesOk(s) && Enabled(s, AppGo(t, ok)) && KnowsOk(s, t) && IsPend(s.sh, p)
    requires s.threads[t].Reaping? || s.threads[t].Testing? || s.threads[t].Shutting?
    requires TimesOut(s, t, p) && !s.sh.pends[p].timedOut && AppNext(s, t, ok).sh.pends[p].timedOut
    ensures Harmless(s, p)
  {
    var a := s.threads[t];
    assert a.Reaping? || Reaps(a, p);
    SignalledIsHarmless(s, p);
  }

  /** A connect that finds its key in the table at its timeout: its own pending, which is blank, or one that
      can do no harm. */
  lemma AbandonedIsHarmless(s: State, t: nat, ok: bool)
    requires WeakOk(s) && Enabled(s, AppGo(t, ok)) && s.threads[t].Abandoning?
    requires s.threads[t].k in s.sh.pendingConnects
    ensures Harmless(AppNext(s, t, ok), s.threads[t].p)
  {
    var k, p := s.threads[t].k, s.threads[t].p;
    var q := s.sh.pendingConnects[k];
    assert KnowsOk(s, t) && LiveOn(s.threads[t], p);
    assert InTable(s.sh, q) && OwnerOk(s, q);
    var u := s.sh.pends[q].caller;
    if u == t {
      BlankIsHarmless(s, t, ok);
    } else {
      assert FindsOwnOnly(s, t, u) && CanTimeOut(s.threads[t], k) && Live(s.threads[u], k);
      HarmlessStays(s, AppGo(t, ok), p);
    }
  }

  lemma BlankIsHarmless(s: State, t: nat, ok: bool)
    requires OutcomesOk(s) && Enabled(s, AppGo(t, ok)) && s.threads[t].Abandoning?
    requires IsPend(s.sh, s.threads[t].p) && s.sh.pends[s.threads[t].p].key == s.threads[t].k
    requires InTable(s.sh, s.threads[t].p)
    ensures Harmless(AppNext(s, t, ok), s.threads[t].p)
  {
    var p := s.threads[t].p;
    assert PendOk(s, p);
    MadeIsAttached(s, p);
    assert NoneMadeFor(s.sh, p);
    assert AppNext(s, t, ok).sh.conns == s.sh.conns;
  }

  lemma AppNoLeakYet(s: State, t: nat, ok: bool, p: PendId)
    requires WeakOk(s) && Enabled(s, AppGo(t, ok)) && s.threads[t] != ClosingPeer
    requires IsPend(AppNext(s, t, ok).sh, p)
    ensures NoLeakYet(AppNext(s, t, ok), p)
  {
    var s' := AppNext(s, t, ok);
    AppObjects(s.sh, t, s.threads[t], ok);
    if p < |s.sh.pends| && s'.sh.pends[p].timedOut {
      assert NoLeakYet(s, p);
      if s.sh.pends[p].timedOut {
        HarmlessStays(s, AppGo(t, ok), p);
      } else {
        TimesOutHarmless(s, t, ok, p);
      }
    }
  }

  lemma TimesOutHarmless(s: State, t: nat, ok: bool, p: PendId)
    requires WeakOk(s) && Enabled(s, AppGo(t, ok)) && s.threads[t] != ClosingPeer && IsPend(s.sh, p)
    requires !s.sh.pends[p].timedOut && AppNext(s, t, ok).sh.pends[p].timedOut
    ensures Harmless(AppNext(s, t, ok), p)
  {
    if !TimesOut(s, t, p) {
      AppTimesOut(s, t, ok, p);
    } else if s.threads[t].Abandoning? {
      AbandonedIsHarmless(s, t, ok);
    } else {
      assert KnowsOk(s, t);
      ReapedIsHarmless(s, t, ok, p);
      HarmlessStays(s, AppGo(t, ok), p);
    }
  }

  // ---- Every step ----

  lemma StepWeak(s: State, l: Label)
    requires WeakOk(s) && Enabled(s, l)
    requires l.AppGo? && s.threads[l.t].Connecting? ==> Mild(s, l.t, s.threads[l.t].k)
    ensures WeakOk(Next(s, l))
  {
    if l.AppGo? && s.threads[l.t] != ClosingPeer {
      AppWeak(s, l.t, l.ok);
    } else {
      SystemWeak(s, l);
    }
  }

  lemma AppWeak(s: State, t: nat, ok: bool)
    requires WeakOk(s) && Enabled(s, AppGo(t, ok)) && s.threads[t] != ClosingPeer
    requires s.threads[t].Connecting? ==> Mild(s, t, s.threads[t].k)
    ensures WeakOk(AppNext(s, t, ok))
  {
    var s' := AppNext(s, t, ok);
    StepOutcomes(s, AppGo(t, ok));
    forall u | 0 <= u < |s'.threads| ensures KnowsOk(s', u) {
      if u == t {
        AppKnows(s, t, ok);
      } else {
        QuietKnows(s, AppGo(t, ok), u);
      }
    }
    forall u, v | 0 <= u < |s'.threads| && 0 <= v < |s'.threads| ensures FindsOwnOnly(s', u, v) {
      if s.threads[t].Connecting? && !s.sh.closed {
        RegisterPair(s, t, ok, u, v);
      } else {
        AppPair(s, t, ok, u, v);
      }
    }
    forall p | 0 <= p < |s'.sh.pends| ensures OwnerOk(s', p) && NoLeakYet(s', p) {
      AppOwners(s, t, ok, p);
      AppNoLeakYet(s, t, ok, p);
    }
  }

  lemma {:induction false} AlwaysWeak(s: State, ls: seq<Label>)
    requires WeakOk(s) && IsRun(s, ls) && DisciplinedRun(s, ls)
    ensures WeakOk(After(s, ls))
    decreases |ls|
  {
    if ls != [] {
      StepWeak(s, ls[0]);
      AlwaysWeak(Next(s, ls[0]), ls[1..]);
    }
  }

  // ---- Exactly when ----

  /** Every connect that has timed out is out of the table, with no connection made for it open. */
  ghost predicate NothingLeaked(s: State) {
    forall p :: 0 <= p < |s.sh.pends| && s.sh.pends[p].timedOut ==> !InTable(s.sh, p) && NoneOpenFor(s.sh, p)
  }

  ghost predicate NeverLeaks(s: State) {
    forall ls :: IsRun(s, ls) && DisciplinedRun(s, ls) ==> NothingLeaked(After(s, ls))
  }

  lemma WeakMeansNothing(s: State)
    requires WeakOk(s)
    ensures NothingLeaked(s)
  {
    forall p | 0 <= p < |s.sh.pends| && s.sh.pends[p].timedOut ensures !InTable(s.sh, p) && NoneOpenFor(s.sh, p) {
      assert NoLeakYet(s, p);
    }
  }

  /** The timed-out connect has a connection, which is open, or the pump makes one next. */
  lemma LeaksNow(s: State, p: PendId) returns (ls: seq<Label>)
    requires OutcomesOk(s) && IsPend(s.sh, p) && s.sh.pends[p].timedOut
    requires Makes(s.pump, p) || !NoneOpenFor(s.sh, p)
    ensures IsRun(s, ls) && DisciplinedRun(s, ls) && !NothingLeaked(After(s, ls))
  {
    if Makes(s.pump, p) {
      MakesOne(s, p);
      OneStep(s, PumpGo);
      StepCoherent(s, PumpGo);
      assert PendEvolves(s.sh.pends[p], PumpNext(s).sh.pends[p]);
      ls := [PumpGo];
    } else {
      ls := [];
    }
  }

  /** The older connect gives up, finds the newer one's entry, and raises TimeoutError without a look at its
      own pending. */
  lemma {:induction false} GivesUp(s: State, u: nat, k: Address) returns (ls: seq<Label>)
    requires OutcomesOk(s) && u < |s.threads| && CanTimeOut(s.threads[u], k) && k in s.sh.pendingConnects
    requires IsPend(s.sh, s.threads[u].p)
    requires Makes(s.pump, s.threads[u].p) || !NoneOpenFor(s.sh, s.threads[u].p)
    ensures IsRun(s, ls) && DisciplinedRun(s, ls) && !NothingLeaked(After(s, ls))
    decreases if s.threads[u].Starting? then 2 else if s.threads[u].Waiting? then 1 else 0
  {
    var l := AppGo(u, s.threads[u].Starting?);
    StepOutcomes(s, l);
    GivesUpStep(s, u, k);
    var rest;
    if s.threads[u].Abandoning? {
      rest := LeaksNow(Next(s, l), s.threads[u].p);
    } else {
      rest := GivesUp(Next(s, l), u, k);
    }
    DisciplineStep(s, l, rest);
    ls := [l] + rest;
  }

  lemma GivesUpStep(s: State, u: nat, k: Address)
    requires WellFormed(s) && u < |s.threads| && CanTimeOut(s.threads[u], k) && k in s.sh.pendingConnects
    ensures var l := AppGo(u, s.threads[u].Starting?);
            && Enabled(s, l) && Disciplined(s, l)
            && var s' := Next(s, l);
            var p := s.threads[u].p;
            && s'.pump == s.pump && s'.sh.conns == s.sh.conns && u < |s'.threads| && IsPend(s'.sh, p)
            && (s.threads[u].Starting? ==> s'.threads[u] == Waiting(k, p) && s'.sh == s.sh)
            && (s.threads[u].Waiting? ==> s'.threads[u] == Abandoning(k, p) && s'.sh == s.sh)
            && (s.threads[u].Abandoning? ==> s'.sh.pends[p].timedOut)
  {
  }

  /** When thread t registers a connect for k on an open peer, then from there on no run that respects the
      uniqueness assumption lets a timed-out connect leave an open connection, or its entry, behind, if and only
      if no other connect for k that may time out had a connection open or in the making. */
  lemma ConnectLeaksIff(s: State, t: nat, k: Address)
    requires WaitsOk(s) && t < |s.threads| && s.threads[t] == Connecting(k) && !s.sh.closed
    ensures Enabled(s, AppGo(t, true))
    ensures NeverLeaks(Next(s, AppGo(t, true))) <==> Mild(s, t, k)
  {
    if Mild(s, t, k) {
      MildNeverLeaks(s, t, k);
    } else {
      HarshLeaks(s, t, k);
    }
  }

  lemma MildNeverLeaks(s: State, t: nat, k: Address)
    requires WaitsOk(s) && t < |s.threads| && s.threads[t] == Connecting(k) && Mild(s, t, k)
    ensures NeverLeaks(Next(s, AppGo(t, true)))
  {
    var s' := Next(s, AppGo(t, true));
    WaitsAreWeak(s);
    StepWeak(s, AppGo(t, true));
    forall ls | IsRun(s', ls) && DisciplinedRun(s', ls) ensures NothingLeaked(After(s', ls)) {
      AlwaysWeak(s', ls);
      WeakMeansNothing(After(s', ls));
    }
  }

  lemma HarshLeaks(s: State, t: nat, k: Address)
    requires WaitsOk(s) && t < |s.threads| && s.threads[t] == Connecting(k) && !s.sh.closed && !Mild(s, t, k)
    ensures !NeverLeaks(Next(s, AppGo(t, true)))
  {
    var s' := Next(s, AppGo(t, true));
    StepOutcomes(s, AppGo(t, true));
    var u: nat :| u < |s.threads| && u != t && CanTimeOut(s.threads[u], k)
                  && !(!Makes(s.pump, s.threads[u].p) && NoneOpenFor(s.sh, s.threads[u].p));
    assert s'.threads[u] == s.threads[u] && s'.sh.conns == s.sh.conns && s'.pump == s.pump;
    var ls := GivesUp(s', u, k);
  }
}
