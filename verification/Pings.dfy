/** Who resolves a pending ping: the table, the pump, the closer or nobody, but never two of them. */
module Pings {
  import opened RakTypes
  import opened PeerState
  import opened Protocol
  import opened Coherence
  import opened Shutdown

  predicate InTable(sh: Shared, q: PingId)
    requires IsPing(sh, q)
  {
    sh.pings[q].key in sh.pendingPings && sh.pendingPings[sh.pings[q].key] == q
  }

  /** The pump popped q and has not signalled it yet. */
  predicate PumpHolds(pump: Pump, q: PingId) {
    (pump.Ponging? || pump.RingingPing?) && pump.q == q
  }

  /** In how many places q is: the table, the pump's hands, the closer's hands, or signalled. */
  function Places(s: State, q: PingId): nat
    requires IsPing(s.sh, q)
  {
    (if InTable(s.sh, q) then 1 else 0) + (if PumpHolds(s.pump, q) then 1 else 0)
    + (if q in PingsLeft(s.closer, s.snap.pings) then 1 else 0) + (if s.sh.pings[q].event then 1 else 0)
  }

  /** At most one place; and a pong is there only from the pump's write on. */
  ghost predicate PingOk(s: State, q: PingId)
    requires IsPing(s.sh, q)
  {
    Places(s, q) <= 1 && (s.sh.pings[q].pong.Some? ==> s.sh.pings[q].event || s.pump == RingingPing(q))
  }

  ghost predicate TableKeysOk(sh: Shared) {
    forall k :: k in sh.pendingPings ==> IsPing(sh, sh.pendingPings[k]) && sh.pings[sh.pendingPings[k]].key == k
  }

  ghost predicate PingsResolve(s: State) {
    && TableKeysOk(s.sh) && (s.closer == NoCloser ==> s.snap.pings == {})
    && (forall q :: 0 <= q < |s.sh.pings| ==> PingOk(s, q))
  }

  // ---- Steps that concern no ping ----

  ghost predicate SamePings(s: State, s': State) {
    && s'.sh.pings == s.sh.pings && s'.sh.pendingPings == s.sh.pendingPings && s'.snap.pings == s.snap.pings
    && (s'.pump == s.pump || (!HandlesPing(s.pump) && !HandlesPing(s'.pump)))
    && PingsLeft(s'.closer, s'.snap.pings) == PingsLeft(s.closer, s.snap.pings)
    && (s'.closer == NoCloser ==> s.closer == NoCloser)
  }

  predicate HandlesPing(p: Pump) {
    p.Ponging? || p.RingingPing?
  }

  lemma SameResolve(s: State, s': State)
    requires PingsResolve(s) && SamePings(s, s')
    ensures PingsResolve(s')
  {
    forall q | 0 <= q < |s'.sh.pings| ensures PingOk(s', q) {
      assert PingOk(s, q);
    }
  }

  // ---- The pump ----

  lemma PumpElsewhere(sh: Shared, p: Pump)
    requires TableIds(sh) && PumpIds(sh, p) && !HandlesPing(p) && !(p.Routing? && p.event.PongReceived?)
    ensures var (sh', p') := PumpStep(sh, p);
            sh'.pings == sh.pings && sh'.pendingPings == sh.pendingPings && !HandlesPing(p')
  {
    if p.Routing? {
      EnterElsewhere(sh, p.event);
    }
  }

  lemma EnterElsewhere(sh: Shared, e: Event)
    requires TableIds(sh) && !e.PongReceived?
    ensures var (sh', p') := Enter(sh, e);
            sh'.pings == sh.pings && sh'.pendingPings == sh.pendingPings && !HandlesPing(p')
  {
  }

  lemma PumpResolves(s: State)
    requires WellFormed(s) && PingsResolve(s) && Enabled(s, PumpGo)
    requires HandlesPing(s.pump) || (s.pump.Routing? && s.pump.event.PongReceived?)
    ensures PingsResolve(PumpNext(s))
  {
    var s' := PumpNext(s);
    forall q | 0 <= q < |s'.sh.pings| ensures PingOk(s', q) {
      assert PingOk(s, q);
    }
  }

  lemma PumpGoResolves(s: State)
    requires WellFormed(s) && PingsResolve(s) && Enabled(s, PumpGo) && s.pump != Crashed
    ensures PingsResolve(PumpNext(s))
  {
    if HandlesPing(s.pump) || (s.pump.Routing? && s.pump.event.PongReceived?) {
      PumpResolves(s);
    } else {
      PumpElsewhere(s.sh, s.pump);
      SameResolve(s, PumpNext(s));
    }
  }

  // ---- The closer ----

  lemma WinResolves(s: State, l: Label)
    requires ShutdownOk(s) && PingsResolve(s) && Enabled(s, l) && !s.sh.closed
    requires (l.PumpGo? && s.pump == Crashed) || (l.AppGo? && s.threads[l.t] == ClosingPeer)
    ensures PingsResolve(Next(s, l))
  {
    var s' := Next(s, l);
    forall q | 0 <= q < |s'.sh.pings| ensures PingOk(s', q) {
      assert PingOk(s, q);
      if q in s.sh.pendingPings.Values {
        ValueHasKey(s.sh.pendingPings, q);
        assert InTable(s.sh, q);
      }
      assert InTable(s.sh, q) ==> q in s.sh.pendingPings.Values;
    }
  }

  lemma CloserRings(s: State, pick: nat)
    requires WellFormed(s) && PingsResolve(s) && CloserEnabled(s, pick) && s.closer.RingPings?
    ensures PingsResolve(CloserNext(s, pick))
  {
    var s' := CloserNext(s, pick);
    forall q | 0 <= q < |s'.sh.pings| ensures PingOk(s', q) {
      assert PingOk(s, q);
    }
  }

  lemma CloserElsewhere(s: State, pick: nat)
    requires WellFormed(s) && CloserEnabled(s, pick) && !s.closer.RingPings?
    ensures SamePings(s, CloserNext(s, pick))
  {
  }

  // ---- The callers ----

  /** A caller adds a fresh ping, or pops a key. */
  lemma AppPingTable(sh: Shared, t: nat, a: App, ok: bool)
    requires TableIds(sh) && AppIds(sh, a) && (a.Accepting? && ok ==> sh.acceptQueue != []) && !a.Pinging?
    ensures var sh' := AppStep(sh, t, a, ok).0;
            && sh'.pings == sh.pings
            && (forall k :: k in sh'.pendingPings ==> k in sh.pendingPings && sh'.pendingPings[k] == sh.pendingPings[k])
  {
  }

  lemma AppResolves(s: State, t: nat, ok: bool)
    requires ShutdownOk(s) && PingsResolve(s) && Enabled(s, AppGo(t, ok)) && s.threads[t] != ClosingPeer
    ensures PingsResolve(AppNext(s, t, ok))
  {
    var s' := AppNext(s, t, ok);
    if !s.threads[t].Pinging? {
      AppPingTable(s.sh, t, s.threads[t], ok);
    }
    forall q | 0 <= q < |s'.sh.pings| ensures PingOk(s', q) {
      if q < |s.sh.pings| {
        assert PingOk(s, q);
      } else {
        FreshPing(s);
      }
    }
  }

  lemma FreshPing(s: State)
    requires ShutdownOk(s)
    ensures |s.sh.pings| !in PingsLeft(s.closer, s.snap.pings) && !PumpHolds(s.pump, |s.sh.pings|)
  {
  }

  // ---- Every step ----

  lemma StepResolves(s: State, l: Label)
    requires ShutdownOk(s) && PingsResolve(s) && Enabled(s, l)
    ensures PingsResolve(Next(s, l))
  {
    if l.PumpGo? && s.pump != Crashed {
      PumpGoResolves(s);
    } else if l.CloserGo? && s.closer.RingPings? {
      CloserRings(s, l.pick);
    } else if l.CloserGo? {
      CloserElsewhere(s, l.pick);
      SameResolve(s, Next(s, l));
    } else if l.AppGo? && s.threads[l.t] != ClosingPeer {
      AppResolves(s, l.t, l.ok);
    } else if (l.PumpGo? || l.AppGo?) && !s.sh.closed {
      WinResolves(s, l);
    } else {
      SameResolve(s, Next(s, l));
    }
  }

  lemma {:induction false} AlwaysResolves(s: State, ls: seq<Label>)
    requires ShutdownOk(s) && PingsResolve(s) && IsRun(s, ls)
    ensures PingsResolve(After(s, ls))
    decreases |ls|
  {
    if ls != [] {
      StepResolves(s, ls[0]);
      StepShutdown(s, ls[0]);
      AlwaysResolves(Next(s, ls[0]), ls[1..]);
    }
  }

  /** In every run from the start a pending ping is in at most one of the table, the pump's hands, the closer's
      hands and signalled, so at most one of them resolves it; and only the pump's answer gives it a pong. */
  lemma SingleRing(s: State, ls: seq<Label>, q: PingId)
    requires Initial(s) && IsRun(s, ls) && IsPing(After(s, ls).sh, q)
    ensures var s' := After(s, ls);
            Places(s', q) <= 1 && (s'.sh.pings[q].pong.Some? ==> s'.sh.pings[q].event || s'.pump == RingingPing(q))
  {
    InitialShutdownOk(s);
    AlwaysResolves(s, ls);
    assert PingOk(After(s, ls), q);
  }

  // ---- Final answers ----

  lemma PumpKeepsRung(sh: Shared, p: Pump, q: PingId)
    requires TableIds(sh) && PumpIds(sh, p) && IsPing(sh, q) && sh.pings[q].event && !PumpHolds(p, q)
    ensures var sh' := PumpStep(sh, p).0; IsPing(sh', q) && sh'.pings[q] == sh.pings[q]
  {
  }

  lemma CloserKeepsRung(s: State, pick: nat, q: PingId)
    requires WellFormed(s) && CloserEnabled(s, pick) && IsPing(s.sh, q) && s.sh.pings[q].event
    ensures var sh' := CloserNext(s, pick).sh; IsPing(sh', q) && sh'.pings[q] == s.sh.pings[q]
  {
  }

  lemma AppKeepsRung(sh: Shared, t: nat, a: App, ok: bool, q: PingId)
    requires TableIds(sh) && AppIds(sh, a) && (a.Accepting? && ok ==> sh.acceptQueue != []) && IsPing(sh, q)
    ensures var sh' := AppStep(sh, t, a, ok).0; IsPing(sh', q) && sh'.pings[q] == sh.pings[q]
  {
  }

  lemma StepKeepsRung(s: State, l: Label, q: PingId)
    requires WellFormed(s) && Enabled(s, l) && IsPing(s.sh, q) && PingOk(s, q) && s.sh.pings[q].event
    ensures var sh' := Next(s, l).sh; IsPing(sh', q) && sh'.pings[q] == s.sh.pings[q]
  {
    if l.PumpGo? && s.pump != Crashed {
      PumpKeepsRung(s.sh, s.pump, q);
    } else if l.CloserGo? {
      CloserKeepsRung(s, l.pick, q);
    } else if l.AppGo? && s.threads[l.t] != ClosingPeer {
      AppKeepsRung(s.sh, l.t, s.threads[l.t], l.ok, q);
    }
  }

  /** Once a ping has been signalled, what its caller finds there, a pong or none, never changes. */
  lemma {:induction false} AnswerIsFinal(s: State, ls: seq<Label>, q: PingId)
    requires ShutdownOk(s) && PingsResolve(s) && IsRun(s, ls) && IsPing(s.sh, q) && s.sh.pings[q].event
    ensures var sh' := After(s, ls).sh; IsPing(sh', q) && sh'.pings[q] == s.sh.pings[q]
    decreases |ls|
  {
    if ls != [] {
      assert PingOk(s, q);
      StepKeepsRung(s, ls[0], q);
      StepResolves(s, ls[0]);
      StepShutdown(s, ls[0]);
      AnswerIsFinal(Next(s, ls[0]), ls[1..], q);
    }
  }
}
