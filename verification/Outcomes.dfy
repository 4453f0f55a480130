/** What connect and ping report: the outcome behind a set event is complete and final. */
module Outcomes {
  import opened PeerState
  import opened Protocol
  import opened Coherence
  import opened Shutdown
  import opened Resolution

  /** A caller that goes on to read the outcome was woken by its event. */
  predicate CollectOk(sh: Shared, a: App) {
    && (a.Collecting? ==> IsPend(sh, a.p) && sh.pends[a.p].event)
    && (a.PingCollecting? ==> IsPing(sh, a.q) && sh.pings[a.q].event)
  }

  /** A ping is only signalled without a pong by the closer. */
  ghost predicate PingsOk(sh: Shared, pump: Pump) {
    && (pump.RingingPing? ==> IsPing(sh, pump.q) && sh.pings[pump.q].pong.Some?)
    && (forall q :: 0 <= q < |sh.pings| && sh.pings[q].event && sh.pings[q].pong.None? ==> sh.closed)
  }

  ghost predicate OutcomesOk(s: State) {
    && ShutdownOk(s) && ResolutionOk(s) && PingsOk(s.sh, s.pump)
    && (forall t :: 0 <= t < |s.threads| ==> CollectOk(s.sh, s.threads[t]))
  }

  lemma PumpPings(sh: Shared, p: Pump)
    requires TableIds(sh) && PumpIds(sh, p) && PingsOk(sh, p)
    ensures var (sh', p') := PumpStep(sh, p); PingsOk(sh', p')
  {
  }

  lemma AppPings(sh: Shared, t: nat, a: App, ok: bool)
    requires TableIds(sh) && AppIds(sh, a) && (a.Accepting? && ok ==> sh.acceptQueue != [])
    requires a.Waiting? && ok ==> sh.pends[a.p].event
    requires a.PingWaiting? && ok ==> sh.pings[a.q].event
    requires CollectOk(sh, a)
    ensures var (sh', a') := AppStep(sh, t, a, ok);
            && CollectOk(sh', a')
            && |sh.pings| <= |sh'.pings| && (forall q :: 0 <= q < |sh.pings| ==> sh'.pings[q] == sh.pings[q])
            && (forall q :: |sh.pings| <= q < |sh'.pings| ==> !sh'.pings[q].event)
            && sh'.closed == sh.closed
  {
  }

  lemma CloserPings(s: State, pick: nat)
    requires ShutdownOk(s) && CloserEnabled(s, pick) && PingsOk(s.sh, s.pump)
    ensures PingsOk(CloserNext(s, pick).sh, CloserNext(s, pick).pump)
  {
  }

  lemma StepPings(s: State, l: Label)
    requires OutcomesOk(s) && Enabled(s, l)
    ensures PingsOk(Next(s, l).sh, Next(s, l).pump)
  {
    if l.PumpGo? && s.pump != Crashed {
      PumpPings(s.sh, s.pump);
    } else if l.CloserGo? {
      CloserPings(s, l.pick);
    } else if l.AppGo? && s.threads[l.t] != ClosingPeer {
      AppPings(s.sh, l.t, s.threads[l.t], l.ok);
    }
  }

  lemma CollectKeeps(a: Shared, b: Shared, x: App)
    requires Evolves(a, b) && CollectOk(a, x)
    ensures CollectOk(b, x)
  {
    if x.Collecting? {
      assert PendEvolves(a.pends[x.p], b.pends[x.p]);
    } else if x.PingCollecting? {
      assert PingEvolves(a.pings[x.q], b.pings[x.q]);
    }
  }

  lemma StepCollects(s: State, l: Label)
    requires OutcomesOk(s) && Enabled(s, l)
    ensures var s' := Next(s, l); forall t :: 0 <= t < |s'.threads| ==> CollectOk(s'.sh, s'.threads[t])
  {
    var s' := Next(s, l);
    StepCoherent(s, l);
    forall t | 0 <= t < |s'.threads| ensures CollectOk(s'.sh, s'.threads[t]) {
      CollectKeeps(s.sh, s'.sh, s.threads[t]);
      if l.AppGo? && l.t == t && s.threads[t] != ClosingPeer {
        AppPings(s.sh, t, s.threads[t], l.ok);
      } else {
        SameOrIdle(s, l, t);
      }
    }
  }

  /** A thread that takes no step of its own collects nothing new. */
  lemma SameOrIdle(s: State, l: Label, t: nat)
    requires Enabled(s, l) && t < |s.threads| && (l.AppGo? && l.t == t ==> s.threads[t] == ClosingPeer)
    ensures var a := Next(s, l).threads[t]; a == s.threads[t] || (!a.Collecting? && !a.PingCollecting?)
  {
  }

  lemma StepOutcomes(s: State, l: Label)
    requires OutcomesOk(s) && Enabled(s, l)
    ensures OutcomesOk(Next(s, l))
  {
    StepShutdown(s, l);
    StepResolution(s, l);
    StepPings(s, l);
    StepCollects(s, l);
  }

  lemma {:induction false} AlwaysOutcomesOk(s: State, ls: seq<Label>)
    requires OutcomesOk(s) && IsRun(s, ls)
    ensures OutcomesOk(After(s, ls))
    decreases |ls|
  {
    if ls != [] {
      StepOutcomes(s, ls[0]);
      AlwaysOutcomesOk(Next(s, ls[0]), ls[1..]);
    }
  }

  lemma InitialOutcomesOk(s: State)
    requires Initial(s)
    ensures OutcomesOk(s)
  {
    InitialShutdownOk(s);
  }

  /** In every run from the start: a pending connect is in at most one place, so at most one of the pump
      and the closer ever resolves it; behind a set event exactly one of connection and reason is there,
      so the assertion in _finish_connect cannot fail; and a ping that wakes without a pong means that
      the peer is closed. */
  lemma SingleResolution(s: State, ls: seq<Label>)
    requires Initial(s) && IsRun(s, ls)
    ensures var s' := After(s, ls);
            && (forall p :: 0 <= p < |s'.sh.pends| ==>
                  Places(s', p) <= 1 && (s'.sh.pends[p].event ==> s'.sh.pends[p].Resolved()))
            && (forall t :: 0 <= t < |s'.threads| && s'.threads[t].Collecting? ==>
                  var p := s'.threads[t].p; IsPend(s'.sh, p) && s'.sh.pends[p].event && s'.sh.pends[p].Resolved())
            && (forall t :: 0 <= t < |s'.threads| && s'.threads[t].PingCollecting? ==>
                  var q := s'.threads[t].q; IsPing(s'.sh, q) && (s'.sh.pings[q].pong.None? ==> s'.sh.closed))
  {
    InitialOutcomesOk(s);
    AlwaysOutcomesOk(s, ls);
    var s' := After(s, ls);
    forall p | 0 <= p < |s'.sh.pends|
      ensures Places(s', p) <= 1 && (s'.sh.pends[p].event ==> s'.sh.pends[p].Resolved())
    {
      assert PendOk(s', p);
    }
    forall t | 0 <= t < |s'.threads| && s'.threads[t].Collecting?
      ensures var p := s'.threads[t].p; IsPend(s'.sh, p) && s'.sh.pends[p].event && s'.sh.pends[p].Resolved()
    {
      assert CollectOk(s'.sh, s'.threads[t]) && PendOk(s', s'.threads[t].p);
    }
    forall t | 0 <= t < |s'.threads| && s'.threads[t].PingCollecting?
      ensures var q := s'.threads[t].q; IsPing(s'.sh, q) && (s'.sh.pings[q].pong.None? ==> s'.sh.closed)
    {
      assert CollectOk(s'.sh, s'.threads[t]);
    }
  }

  // ---- Final outcomes ----

  predicate SameOutcome(a: Pending, b: Pending) {
    b.event == a.event && b.connection == a.connection && b.reason == a.reason
  }

  lemma PumpLeavesOthers(sh: Shared, p: Pump, q: PendId)
    requires TableIds(sh) && PumpIds(sh, p) && IsPend(sh, q) && !PumpHolds(p, q)
    ensures var sh' := PumpStep(sh, p).0; IsPend(sh', q) && sh'.pends[q] == sh.pends[q]
  {
  }

  lemma PumpKeepsOutcome(s: State, p: PendId)
    requires WellFormed(s) && Enabled(s, PumpGo) && IsPend(s.sh, p) && PendOk(s, p) && s.sh.pends[p].event
    ensures var s' := PumpNext(s); IsPend(s'.sh, p) && SameOutcome(s.sh.pends[p], s'.sh.pends[p])
  {
    if s.pump != Crashed {
      PumpLeavesOthers(s.sh, s.pump, p);
    }
  }

  lemma CloserKeepsOutcome(s: State, pick: nat, p: PendId)
    requires WellFormed(s) && CloserEnabled(s, pick) && IsPend(s.sh, p) && PendOk(s, p) && s.sh.pends[p].event
    ensures var s' := CloserNext(s, pick); IsPend(s'.sh, p) && SameOutcome(s.sh.pends[p], s'.sh.pends[p])
  {
    assert p !in CloserHolds(s);
  }

  lemma AppKeepsOutcome(sh: Shared, t: nat, a: App, ok: bool, p: PendId)
    requires TableIds(sh) && AppIds(sh, a) && (a.Accepting? && ok ==> sh.acceptQueue != []) && IsPend(sh, p)
    ensures var sh' := AppStep(sh, t, a, ok).0; IsPend(sh', p) && SameOutcome(sh.pends[p], sh'.pends[p])
  {
  }

  lemma StepKeepsOutcome(s: State, l: Label, p: PendId)
    requires ResolutionOk(s) && Enabled(s, l) && IsPend(s.sh, p) && s.sh.pends[p].event
    ensures var s' := Next(s, l); IsPend(s'.sh, p) && SameOutcome(s.sh.pends[p], s'.sh.pends[p])
  {
    assert PendOk(s, p);
    if l.PumpGo? {
      PumpKeepsOutcome(s, p);
    } else if l.CloserGo? {
      CloserKeepsOutcome(s, l.pick, p);
    } else if l.AppGo? && s.threads[l.t] != ClosingPeer {
      AppKeepsOutcome(s.sh, l.t, s.threads[l.t], l.ok, p);
    }
  }

  /** Once the event of a pending connect is set, its outcome never changes again. */
  lemma {:induction false} OutcomeIsFinal(s: State, ls: seq<Label>, p: PendId)
    requires OutcomesOk(s) && IsRun(s, ls) && IsPend(s.sh, p) && s.sh.pends[p].event
    ensures var s' := After(s, ls); IsPend(s'.sh, p) && SameOutcome(s.sh.pends[p], s'.sh.pends[p])
    decreases |ls|
  {
    if ls != [] {
      StepKeepsOutcome(s, ls[0], p);
      StepOutcomes(s, ls[0]);
      OutcomeIsFinal(Next(s, ls[0]), ls[1..], p);
    }
  }
}
