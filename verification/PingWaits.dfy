/** Callers that wait for a pong: when nobody is stranded, and exactly when a second ping to the same address
    strands a caller. */
module PingWaits {
  import opened RakTypes
  import opened PeerState
  import opened Protocol
  import opened Coherence
  import opened Shutdown
  import opened Pings

  /** A ping for k that may still pop k from the table. */
  predicate Live(a: App, k: Address) {
    (a.PingStarting? || a.PingWaiting? || a.PingUndoing?) && a.k == k
  }

  /** The next step changes the entry of k in the table. */
  predicate Drops(a: App, k: Address) {
    (a.PingUndoing? || a.Pinging?) && a.k == k
  }

  /** A ping that counts on q being signalled. */
  predicate WaitsFor(a: App, q: PingId) {
    (a.PingStarting? || a.PingWaiting?) && a.q == q
  }

  predicate NoOtherLive(s: State, t: nat, k: Address) {
    forall u :: 0 <= u < |s.threads| && u != t ==> !Live(s.threads[u], k)
  }

  /** The uniqueness assumption, for one step: a ping is registered only when no other ping to that address is
      live. */
  predicate Disciplined(s: State, l: Label) {
    l.AppGo? && l.t < |s.threads| && s.threads[l.t].Pinging? ==> NoOtherLive(s, l.t, s.threads[l.t].k)
  }

  ghost predicate DisciplinedRun(s: State, ls: seq<Label>)
    requires IsRun(s, ls)
    decreases |ls|
  {
    ls == [] || (Disciplined(s, ls[0]) && DisciplinedRun(Next(s, ls[0]), ls[1..]))
  }

  // ---- Places over a step ----

  lemma PumpKeeps(s: State, q: PingId)
    requires WellFormed(s) && PingsResolve(s) && Enabled(s, PumpGo) && s.pump != Crashed && IsPing(s.sh, q)
    ensures IsPing(PumpNext(s).sh, q) && Places(PumpNext(s), q) == Places(s, q)
  {
    assert PingOk(s, q);
    if HandlesPing(s.pump) || (s.pump.Routing? && s.pump.event.PongReceived?) {
      PongKeeps(s, q);
    } else {
      PumpElsewhere(s.sh, s.pump);
    }
  }

  lemma PongKeeps(s: State, q: PingId)
    requires WellFormed(s) && PingsResolve(s) && Enabled(s, PumpGo) && IsPing(s.sh, q) && PingOk(s, q)
    requires HandlesPing(s.pump) || (s.pump.Routing? && s.pump.event.PongReceived?)
    ensures IsPing(PumpNext(s).sh, q) && Places(PumpNext(s), q) == Places(s, q)
  {
  }

  lemma RingKeeps(s: State, pick: nat, q: PingId)
    requires WellFormed(s) && PingsResolve(s) && CloserEnabled(s, pick) && s.closer.RingPings? && IsPing(s.sh, q)
    ensures IsPing(CloserNext(s, pick).sh, q) && Places(CloserNext(s, pick), q) == Places(s, q)
  {
    assert PingOk(s, q);
  }

  lemma WinKeeps(s: State, l: Label, q: PingId)
    requires ShutdownOk(s) && PingsResolve(s) && Enabled(s, l) && !s.sh.closed && IsPing(s.sh, q)
    requires (l.PumpGo? && s.pump == Crashed) || (l.AppGo? && s.threads[l.t] == ClosingPeer)
    ensures IsPing(Next(s, l).sh, q) && Places(Next(s, l), q) == Places(s, q)
  {
    TableValues(s.sh, q);
  }

  lemma TableValues(sh: Shared, q: PingId)
    requires TableKeysOk(sh) && IsPing(sh, q)
    ensures InTable(sh, q) <==> q in sh.pendingPings.Values
  {
    if InTable(sh, q) {
      assert sh.pendingPings[sh.pings[q].key] == q;
    } else {
      NotAValue(sh, q);
    }
  }

  lemma NotAValue(sh: Shared, q: PingId)
    requires TableKeysOk(sh) && IsPing(sh, q) && !InTable(sh, q)
    ensures q !in sh.pendingPings.Values
  {
    forall k | k in sh.pendingPings ensures sh.pendingPings[k] != q {
      assert sh.pings[sh.pendingPings[k]].key == k;
    }
    if q in sh.pendingPings.Values {
      ValueHasKey(sh.pendingPings, q);
      assert false;
    }
  }

  /** The pump, the closer and _begin_close move a ping from place to place, but never drop it. */
  lemma SystemKeeps(s: State, l: Label, q: PingId)
    requires ShutdownOk(s) && PingsResolve(s) && Enabled(s, l) && IsPing(s.sh, q)
    requires l.AppGo? ==> s.threads[l.t] == ClosingPeer
    ensures IsPing(Next(s, l).sh, q) && Places(Next(s, l), q) == Places(s, q)
  {
    if l.PumpGo? && s.pump != Crashed {
      PumpKeeps(s, q);
    } else if l.CloserGo? && s.closer.RingPings? {
      RingKeeps(s, l.pick, q);
    } else if l.CloserGo? {
      CloserElsewhere(s, l.pick);
    } else if (l.PumpGo? || l.AppGo?) && !s.sh.closed {
      WinKeeps(s, l, q);
    }
  }

  lemma AppEntry(sh: Shared, t: nat, a: App, ok: bool, q: PingId)
    requires TableIds(sh) && AppIds(sh, a) && (a.Accepting? && ok ==> sh.acceptQueue != []) && IsPing(sh, q)
    ensures var sh' := AppStep(sh, t, a, ok).0;
            && IsPing(sh', q) && sh'.pings[q] == sh.pings[q]
            && (InTable(sh', q) ==> InTable(sh, q))
            && (InTable(sh, q) && !Drops(a, sh.pings[q].key) ==> InTable(sh', q))
  {
  }

  /** A caller drops a ping only by popping its key or registering over it. */
  lemma AppKeeps(s: State, t: nat, ok: bool, q: PingId)
    requires Enabled(s, AppGo(t, ok)) && IsPing(s.sh, q) && s.threads[t] != ClosingPeer
    ensures var s' := AppNext(s, t, ok);
            && IsPing(s'.sh, q) && s'.sh.pings[q] == s.sh.pings[q] && Places(s', q) <= Places(s, q)
            && ((Drops(s.threads[t], s.sh.pings[q].key) && InTable(s.sh, q)) || Places(s', q) == Places(s, q))
  {
    AppEntry(s.sh, t, s.threads[t], ok, q);
    assert AppNext(s, t, ok).pump == s.pump && AppNext(s, t, ok).closer == s.closer;
  }

  // ---- The invariant ----

  /** No two live pings to one address. */
  ghost predicate OneLive(s: State) {
    forall t, u, k :: 0 <= t < u < |s.threads| && Live(s.threads[t], k) ==> !Live(s.threads[u], k)
  }

  /** A waiting caller's ping is in exactly one place, under the caller's key. */
  ghost predicate WaiterOk(s: State, a: App) {
    forall q: PingId :: WaitsFor(a, q) ==> IsPing(s.sh, q) && Places(s, q) == 1 && s.sh.pings[q].key == a.k
  }

  ghost predicate WaitsOk(s: State) {
    && ShutdownOk(s) && PingsResolve(s) && OneLive(s)
    && (forall t :: 0 <= t < |s.threads| ==> WaiterOk(s, s.threads[t]))
  }

  predicate NoPing(a: App) {
    !a.PingStarting? && !a.PingWaiting? && !a.PingUndoing?
  }

  /** A step of anything but a caller inside ping leaves the callers inside ping where they are. */
  lemma OthersStay(s: State, l: Label, t: nat)
    requires Enabled(s, l) && t < |s.threads| && (l.AppGo? ==> s.threads[l.t] == ClosingPeer)
    ensures t < |Next(s, l).threads|
    ensures var b := Next(s, l).threads[t]; b == s.threads[t] || (NoPing(s.threads[t]) && NoPing(b))
  {
  }

  lemma SameCount(s: State, l: Label)
    requires Enabled(s, l)
    ensures |Next(s, l).threads| == |s.threads|
  {
  }

  lemma SystemWaits(s: State, l: Label)
    requires WaitsOk(s) && Enabled(s, l) && (l.AppGo? ==> s.threads[l.t] == ClosingPeer)
    ensures WaitsOk(Next(s, l))
  {
    var s' := Next(s, l);
    StepShutdown(s, l);
    StepResolves(s, l);
    SameCount(s, l);
    forall t | 0 <= t < |s'.threads| ensures WaiterOk(s', s'.threads[t]) {
      OthersStay(s, l, t);
      WaiterStays(s, l, s'.threads[t]);
    }
    SystemOneLive(s, l);
  }

  lemma WaiterStays(s: State, l: Label, a: App)
    requires ShutdownOk(s) && PingsResolve(s) && Enabled(s, l) && (l.AppGo? ==> s.threads[l.t] == ClosingPeer)
    requires WaiterOk(s, a)
    ensures WaiterOk(Next(s, l), a)
  {
    StepCoherent(s, l);
    forall q: PingId | WaitsFor(a, q)
      ensures var s' := Next(s, l); IsPing(s'.sh, q) && Places(s', q) == 1 && s'.sh.pings[q].key == a.k
    {
      SystemKeeps(s, l, q);
      assert PingEvolves(s.sh.pings[q], Next(s, l).sh.pings[q]);
    }
  }

  lemma SystemOneLive(s: State, l: Label)
    requires OneLive(s) && Enabled(s, l) && (l.AppGo? ==> s.threads[l.t] == ClosingPeer)
    ensures OneLive(Next(s, l))
  {
    var s' := Next(s, l);
    SameCount(s, l);
    forall t, u, k | 0 <= t < u < |s'.threads| && Live(s'.threads[t], k) ensures !Live(s'.threads[u], k) {
      OthersStay(s, l, t);
      OthersStay(s, l, u);
    }
  }

  // ---- Steps of the callers ----

  lemma PingMoves(sh: Shared, t: nat, a: App, ok: bool)
    requires TableIds(sh) && AppIds(sh, a) && (a.Accepting? && ok ==> sh.acceptQueue != [])
    ensures var a' := AppStep(sh, t, a, ok).1;
            && (forall k :: Live(a', k) ==> Live(a, k) || (a == Pinging(k) && !sh.closed))
            && (forall q: PingId :: WaitsFor(a', q) ==>
                  || (a.PingStarting? && a.q == q && a'.k == a.k)
                  || (a.Pinging? && !sh.closed && q == |sh.pings| && a'.k == a.k))
  {
  }

  lemma AppWaiter(s: State, t: nat, ok: bool, u: nat)
    requires WaitsOk(s) && Enabled(s, AppGo(t, ok)) && Disciplined(s, AppGo(t, ok)) && s.threads[t] != ClosingPeer
    requires u < |s.threads| && u != t
    ensures WaiterOk(AppNext(s, t, ok), s.threads[u])
  {
    forall q: PingId | WaitsFor(s.threads[u], q)
      ensures var s' := AppNext(s, t, ok);
              IsPing(s'.sh, q) && Places(s', q) == 1 && s'.sh.pings[q].key == s.threads[u].k
    {
      assert WaiterOk(s, s.threads[u]);
      AppKeeps(s, t, ok, q);
      NotMine(s, t, u, q);
    }
  }

  /** Nobody else's ping is in the entry that thread t is about to change. */
  lemma NotMine(s: State, t: nat, u: nat, q: PingId)
    requires OneLive(s) && t < |s.threads| && u < |s.threads| && u != t && WaitsFor(s.threads[u], q)
    requires s.threads[t].Pinging? ==> NoOtherLive(s, t, s.threads[t].k)
    ensures !Drops(s.threads[t], s.threads[u].k)
  {
    var k := s.threads[u].k;
    assert Live(s.threads[u], k);
    assert !Live(s.threads[t], k);
    assert s.threads[t] != Pinging(k);
  }

  lemma AppSelf(s: State, t: nat, ok: bool)
    requires WaitsOk(s) && Enabled(s, AppGo(t, ok)) && s.threads[t] != ClosingPeer
    ensures WaiterOk(AppNext(s, t, ok), AppNext(s, t, ok).threads[t])
  {
    var s' := AppNext(s, t, ok);
    var a, a' := s.threads[t], s'.threads[t];
    PingMoves(s.sh, t, a, ok);
    forall q: PingId | WaitsFor(a', q)
      ensures IsPing(s'.sh, q) && Places(s', q) == 1 && s'.sh.pings[q].key == a'.k
    {
      if a.PingStarting? {
        assert WaiterOk(s, a) && WaitsFor(a, q);
        AppKeeps(s, t, ok, q);
      } else {
        NewWaits(s, t, ok);
      }
    }
  }

  lemma NewWaits(s: State, t: nat, ok: bool)
    requires ShutdownOk(s) && Enabled(s, AppGo(t, ok)) && s.threads[t].Pinging? && !s.sh.closed
    ensures var s' := AppNext(s, t, ok);
            var q := |s.sh.pings|;
            && IsPing(s'.sh, q) && Places(s', q) == 1 && InTable(s'.sh, q) && s'.sh.pings[q].key == s.threads[t].k
            && s'.threads == s.threads[t := PingStarting(s.threads[t].k, q)]
  {
    FreshPing(s);
  }

  lemma AppOneLive(s: State, t: nat, ok: bool)
    requires OneLive(s) && Enabled(s, AppGo(t, ok)) && Disciplined(s, AppGo(t, ok)) && s.threads[t] != ClosingPeer
    ensures OneLive(AppNext(s, t, ok))
  {
    var s' := AppNext(s, t, ok);
    assert s'.threads == s.threads[t := s'.threads[t]];
    PingMoves(s.sh, t, s.threads[t], ok);
  }

  lemma StepWaits(s: State, l: Label)
    requires WaitsOk(s) && Enabled(s, l) && Disciplined(s, l)
    ensures WaitsOk(Next(s, l))
  {
    if l.AppGo? && s.threads[l.t] != ClosingPeer {
      var s' := Next(s, l);
      StepShutdown(s, l);
      StepResolves(s, l);
      AppOneLive(s, l.t, l.ok);
      forall u | 0 <= u < |s'.threads| ensures WaiterOk(s', s'.threads[u]) {
        if u == l.t {
          AppSelf(s, l.t, l.ok);
        } else {
          AppWaiter(s, l.t, l.ok, u);
        }
      }
    } else {
      SystemWaits(s, l);
    }
  }

  lemma {:induction false} AlwaysWaitsOk(s: State, ls: seq<Label>)
    requires WaitsOk(s) && IsRun(s, ls) && DisciplinedRun(s, ls)
    ensures WaitsOk(After(s, ls))
    decreases |ls|
  {
    if ls != [] {
      StepWaits(s, ls[0]);
      AlwaysWaitsOk(Next(s, ls[0]), ls[1..]);
    }
  }

  /** Under the uniqueness assumption, in every run: the pending of a waiting ping is in exactly one place, the
      table, the pump's hands, the closer's hands, or signalled. */
  lemma NoStrandedPing(s: State, ls: seq<Label>, t: nat, q: PingId)
    requires Initial(s) && IsRun(s, ls) && DisciplinedRun(s, ls)
    requires t < |After(s, ls).threads| && WaitsFor(After(s, ls).threads[t], q)
    ensures IsPing(After(s, ls).sh, q) && Places(After(s, ls), q) == 1
  {
    InitialShutdownOk(s);
    AlwaysWaitsOk(s, ls);
    assert WaiterOk(After(s, ls), After(s, ls).threads[t]);
  }

  // ---- A second ping to the same address ----

  lemma StepKeepsLost(s: State, l: Label, q: PingId)
    requires ShutdownOk(s) && PingsResolve(s) && Enabled(s, l) && IsPing(s.sh, q) && Places(s, q) == 0
    ensures IsPing(Next(s, l).sh, q) && Places(Next(s, l), q) == 0
  {
    if l.AppGo? && s.threads[l.t] != ClosingPeer {
      AppKeeps(s, l.t, l.ok, q);
    } else {
      SystemKeeps(s, l, q);
    }
  }

  /** A ping that is in no place stays there: no run ever signals it. */
  lemma {:induction false} LostForEver(s: State, ls: seq<Label>, q: PingId)
    requires ShutdownOk(s) && PingsResolve(s) && IsRun(s, ls) && IsPing(s.sh, q) && Places(s, q) == 0
    ensures var s' := After(s, ls); IsPing(s'.sh, q) && Places(s', q) == 0 && !s'.sh.pings[q].event
    decreases |ls|
  {
    if ls != [] {
      StepKeepsLost(s, ls[0], q);
      StepShutdown(s, ls[0]);
      StepResolves(s, ls[0]);
      LostForEver(Next(s, ls[0]), ls[1..], q);
    }
  }

  ghost predicate NoneStranded(s: State) {
    forall t: nat, q: PingId :: t < |s.threads| && WaitsFor(s.threads[t], q) ==> IsPing(s.sh, q) && Places(s, q) == 1
  }

  ghost predicate NeverStrands(s: State) {
    forall ls :: IsRun(s, ls) && DisciplinedRun(s, ls) ==> NoneStranded(After(s, ls))
  }

  /** t waits for a ping that will never be signalled. */
  ghost predicate Stranded(s: State, t: nat) {
    && t < |s.threads| && s.threads[t].PingWaiting?
    && IsPing(s.sh, s.threads[t].q) && Places(s, s.threads[t].q) == 0
  }

  lemma Prepend(s: State, l: Label, rest: seq<Label>) returns (ls: seq<Label>)
    requires Enabled(s, l) && Disciplined(s, l) && IsRun(Next(s, l), rest) && DisciplinedRun(Next(s, l), rest)
    ensures IsRun(s, ls) && DisciplinedRun(s, ls) && After(s, ls) == After(Next(s, l), rest)
  {
    ls := [l] + rest;
    assert ls[1..] == rest;
  }

  /** t, registered for k beside another live ping u, is left waiting for ever when u pops k. */
  lemma SecondPingStrands(s: State, t: nat, u: nat, k: Address) returns (ls: seq<Label>)
    requires ShutdownOk(s) && PingsResolve(s) && t < |s.threads| && u < |s.threads| && t != u
    requires s.threads[t].PingStarting? && s.threads[t].k == k && Live(s.threads[u], k)
    requires IsPing(s.sh, s.threads[t].q) && s.sh.pings[s.threads[t].q].key == k && InTable(s.sh, s.threads[t].q)
    ensures IsRun(s, ls) && DisciplinedRun(s, ls) && Stranded(After(s, ls), t)
  {
    if s.threads[u].PingUndoing? {
      ls := PopThenWait(s, t, u, k);
    } else {
      var l := AppGo(u, false);
      StepShutdown(s, l);
      StepResolves(s, l);
      GivesUp(s, t, u);
      ls := PopThenWait(Next(s, l), t, u, k);
      ls := Prepend(s, l, ls);
    }
  }

  lemma GivesUp(s: State, t: nat, u: nat)
    requires WellFormed(s) && t < |s.threads| && u < |s.threads| && t != u
    requires s.threads[u].PingStarting? || s.threads[u].PingWaiting?
    ensures Enabled(s, AppGo(u, false))
    ensures var s' := Next(s, AppGo(u, false));
            && s'.sh == s.sh && |s'.threads| == |s.threads| && s'.threads[t] == s.threads[t]
            && s'.threads[u] == PingUndoing(s.threads[u].k)
  {
  }

  lemma PopThenWait(s: State, t: nat, u: nat, k: Address) returns (ls: seq<Label>)
    requires ShutdownOk(s) && PingsResolve(s) && t < |s.threads| && u < |s.threads| && t != u
    requires s.threads[t].PingStarting? && s.threads[t].k == k && s.threads[u] == PingUndoing(k)
    requires IsPing(s.sh, s.threads[t].q) && s.sh.pings[s.threads[t].q].key == k && InTable(s.sh, s.threads[t].q)
    ensures IsRun(s, ls) && DisciplinedRun(s, ls) && Stranded(After(s, ls), t)
  {
    var l1, l2 := AppGo(u, false), AppGo(t, true);
    var s1 := Next(s, l1);
    StepShutdown(s, l1);
    StepResolves(s, l1);
    PopLoses(s, u, s.threads[t].q);
    assert s1.threads[t] == s.threads[t];
    NowWaits(s1, t);
    ls := Prepend(s1, l2, []);
    ls := Prepend(s, l1, ls);
  }

  lemma PopLoses(s: State, u: nat, q: PingId)
    requires PingsResolve(s) && Enabled(s, AppGo(u, false)) && IsPing(s.sh, q) && InTable(s.sh, q)
    requires s.threads[u] == PingUndoing(s.sh.pings[q].key)
    ensures IsPing(AppNext(s, u, false).sh, q) && Places(AppNext(s, u, false), q) == 0
  {
    assert PingOk(s, q);
  }

  lemma NowWaits(s: State, t: nat)
    requires ShutdownOk(s) && PingsResolve(s) && t < |s.threads| && s.threads[t].PingStarting?
    requires IsPing(s.sh, s.threads[t].q) && Places(s, s.threads[t].q) == 0
    ensures Enabled(s, AppGo(t, true)) && Stranded(Next(s, AppGo(t, true)), t)
  {
    StepKeepsLost(s, AppGo(t, true), s.threads[t].q);
  }

  /** When thread t registers a ping for k on an open peer, then from there on no run that respects the
      uniqueness assumption strands a waiting ping, if and only if no other ping for k was live. */
  lemma PingIsSafeIff(s: State, t: nat, k: Address)
    requires WaitsOk(s) && t < |s.threads| && s.threads[t] == Pinging(k) && !s.sh.closed
    ensures Enabled(s, AppGo(t, true))
    ensures NeverStrands(Next(s, AppGo(t, true))) <==> NoOtherLive(s, t, k)
  {
    if NoOtherLive(s, t, k) {
      LonePingIsSafe(s, t, k);
    } else {
      SharedPingIsUnsafe(s, t, k);
    }
  }

  lemma LonePingIsSafe(s: State, t: nat, k: Address)
    requires WaitsOk(s) && t < |s.threads| && s.threads[t] == Pinging(k) && NoOtherLive(s, t, k)
    ensures NeverStrands(Next(s, AppGo(t, true)))
  {
    var s' := Next(s, AppGo(t, true));
    StepWaits(s, AppGo(t, true));
    forall ls | IsRun(s', ls) && DisciplinedRun(s', ls) ensures NoneStranded(After(s', ls)) {
      AlwaysWaitsOk(s', ls);
      WaitsMeansNone(After(s', ls));
    }
  }

  lemma WaitsMeansNone(s: State)
    requires WaitsOk(s)
    ensures NoneStranded(s)
  {
    forall t: nat, q: PingId | t < |s.threads| && WaitsFor(s.threads[t], q)
      ensures IsPing(s.sh, q) && Places(s, q) == 1
    {
      assert WaiterOk(s, s.threads[t]);
    }
  }

  lemma SharedPingIsUnsafe(s: State, t: nat, k: Address)
    requires ShutdownOk(s) && PingsResolve(s) && t < |s.threads| && s.threads[t] == Pinging(k) && !s.sh.closed
    requires !NoOtherLive(s, t, k)
    ensures !NeverStrands(Next(s, AppGo(t, true)))
  {
    var s' := Next(s, AppGo(t, true));
    StepShutdown(s, AppGo(t, true));
    StepResolves(s, AppGo(t, true));
    NewWaits(s, t, true);
    var u: nat :| u < |s.threads| && u != t && Live(s.threads[u], k);
    var ls := SecondPingStrands(s', t, u, k);
    StrandedIsNot(After(s', ls), t);
  }

  lemma StrandedIsNot(s: State, t: nat)
    requires Stranded(s, t)
    ensures !NoneStranded(s)
  {
    assert WaitsFor(s.threads[t], s.threads[t].q);
  }
}
