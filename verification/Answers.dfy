/** Where the answers come from: behind every outcome of a connect or a ping there is the packet that was routed
    for it, or the close of the peer. */
module Answers {
  import opened RakTypes
  import opened PeerState
  import opened Protocol
  import opened Coherence
  import opened Shutdown
  import opened Resolution
  import opened Outcomes
  import Pings

  // ---- Connects ----

  /** The pending connect that a step of the pump takes out of the table, with the callback it takes it for. */
  ghost function Taken(s: State, l: Label): set<(PendId, Event)> {
    if l.PumpGo? && s.pump.Routing? && (s.pump.event.ConnectSucceeded? || s.pump.event.ConnectFailed?)
       && s.pump.event.address in s.sh.pendingConnects
    then {(s.sh.pendingConnects[s.pump.event.address], s.pump.event)}
    else {}
  }

  ghost function AllTaken(s: State, ls: seq<Label>): set<(PendId, Event)>
    requires IsRun(s, ls)
    decreases |ls|
  {
    if ls == [] then {} else Taken(s, ls[0]) + AllTaken(Next(s, ls[0]), ls[1..])
  }

  ghost predicate PendRouted(sh: Shared, snap: set<PendId>, p: PendId, h: set<(PendId, Event)>)
    requires IsPend(sh, p)
  {
    var x := sh.pends[p];
    && (x.reason.Some? ==>
          (p, ConnectFailed(x.key, x.reason.value)) in h || (x.reason.value == AttemptFailed && p in snap))
    && (x.connection.Some? ==>
          IsConn(sh, x.connection.value) && (p, ConnectSucceeded(x.key, sh.conns[x.connection.value].guid)) in h)
  }

  ghost predicate PumpRouted(sh: Shared, pump: Pump, h: set<(PendId, Event)>)
    requires PumpIds(sh, pump)
  {
    && (pump.Establishing? ==> (pump.p, ConnectSucceeded(sh.pends[pump.p].key, pump.g)) in h)
    && (pump.Attaching? ==> (pump.p, ConnectSucceeded(sh.pends[pump.p].key, sh.conns[pump.c].guid)) in h)
    && (pump.Explaining? ==> (pump.p, ConnectFailed(sh.pends[pump.p].key, pump.failure)) in h)
  }

  ghost predicate Routed(s: State, h: set<(PendId, Event)>) {
    && PumpIds(s.sh, s.pump) && PumpRouted(s.sh, s.pump, h)
    && (forall p :: 0 <= p < |s.sh.pends| ==> PendRouted(s.sh, s.snap.pends, p, h))
  }

  lemma PumpRoutes(sh: Shared, p: Pump, snap: set<PendId>, h: set<(PendId, Event)>, q: PendId)
    requires TableIds(sh) && PumpIds(sh, p) && TableKeysOk(sh) && IsPend(sh, q)
    requires PumpRouted(sh, p, h) && PendRouted(sh, snap, q, h)
    ensures var sh' := PumpStep(sh, p).0; IsPend(sh', q) && PendRouted(sh', snap, q, h)
  {
    if !HandlesPending(p) {
      PumpIgnores(sh, p);
      PumpGuids(sh, p);
    }
  }

  /** No step of the pump changes a guid. */
  lemma PumpGuids(sh: Shared, p: Pump)
    requires TableIds(sh) && PumpIds(sh, p)
    ensures var sh' := PumpStep(sh, p).0;
            |sh.conns| <= |sh'.conns| && forall c :: 0 <= c < |sh.conns| ==> sh'.conns[c].guid == sh.conns[c].guid
  {
    if p.Routing? {
      EnterGuids(sh, p.event);
    }
  }

  lemma EnterGuids(sh: Shared, e: Event)
    requires TableIds(sh)
    ensures var sh' := Enter(sh, e).0;
            |sh.conns| <= |sh'.conns| && forall c :: 0 <= c < |sh.conns| ==> sh'.conns[c].guid == sh.conns[c].guid
  {
  }

  lemma PumpNowRouted(s: State, h: set<(PendId, Event)>)
    requires WellFormed(s) && TableKeysOk(s.sh) && Enabled(s, PumpGo) && s.pump != Crashed
    requires PumpRouted(s.sh, s.pump, h)
    requires PumpIds(PumpNext(s).sh, PumpNext(s).pump)
    ensures PumpRouted(PumpNext(s).sh, PumpNext(s).pump, h + Taken(s, PumpGo))
  {
    if !HandlesPending(s.pump) {
      PumpIgnores(s.sh, s.pump);
    }
  }

  lemma PumpStepRouted(s: State, h: set<(PendId, Event)>)
    requires OutcomesOk(s) && Routed(s, h) && Enabled(s, PumpGo) && s.pump != Crashed
    ensures Routed(PumpNext(s), h + Taken(s, PumpGo))
  {
    var s' := PumpNext(s);
    PumpGoOk(s);
    PumpNowRouted(s, h);
    SamePends(s.sh, s.pump);
    forall q | 0 <= q < |s'.sh.pends| ensures PendRouted(s'.sh, s'.snap.pends, q, h + Taken(s, PumpGo)) {
      PumpRoutes(s.sh, s.pump, s.snap.pends, h, q);
    }
  }

  lemma SamePends(sh: Shared, p: Pump)
    requires TableIds(sh) && PumpIds(sh, p)
    ensures |PumpStep(sh, p).0.pends| == |sh.pends|
  {
  }

  /** A step after which outcomes, guids and the pump's business are what they were, but for the closer's one
      failure. */
  lemma KeepsRouted(s: State, s': State, h: set<(PendId, Event)>)
    requires Routed(s, h) && Evolves(s.sh, s'.sh) && s.snap.pends <= s'.snap.pends && PumpIds(s'.sh, s'.pump)
    requires s'.pump == s.pump || (!HandlesHeld(s'.pump))
    requires forall p :: 0 <= p < |s'.sh.pends| ==>
               if p < |s.sh.pends| then
                 && s'.sh.pends[p].connection == s.sh.pends[p].connection
                 && (s'.sh.pends[p].reason == s.sh.pends[p].reason
                     || (s'.sh.pends[p].reason == Some(AttemptFailed) && p in s'.snap.pends))
               else s'.sh.pends[p].Blank()
    ensures Routed(s', h)
  {
    forall p | 0 <= p < |s'.sh.pends| ensures PendRouted(s'.sh, s'.snap.pends, p, h) {
      if p < |s.sh.pends| {
        assert PendRouted(s.sh, s.snap.pends, p, h) && PendEvolves(s.sh.pends[p], s'.sh.pends[p]);
        if s.sh.pends[p].connection.Some? {
          var c := s.sh.pends[p].connection.value;
          assert ConnEvolves(s.sh.conns[c], s'.sh.conns[c]);
        }
      }
    }
    if s.pump == s'.pump && (s.pump.Establishing? || s.pump.Attaching? || s.pump.Explaining?) {
      assert PendEvolves(s.sh.pends[s.pump.p], s'.sh.pends[s.pump.p]);
      if s.pump.Attaching? {
        assert ConnEvolves(s.sh.conns[s.pump.c], s'.sh.conns[s.pump.c]);
      }
    }
  }

  /** The closer fails only what is in its snapshot. */
  lemma CloserFails(s: State, pick: nat)
    requires WellFormed(s) && SweepOk(s) && CloserEnabled(s, pick)
    ensures var s' := CloserNext(s, pick);
            && s'.snap == s.snap && |s'.sh.pends| == |s.sh.pends|
            && (s'.pump == s.pump || !HandlesHeld(s'.pump))
            && (forall p :: 0 <= p < |s.sh.pends| ==>
                  && s'.sh.pends[p].connection == s.sh.pends[p].connection
                  && (s'.sh.pends[p].reason == s.sh.pends[p].reason
                      || (s'.sh.pends[p].reason == Some(AttemptFailed) && p in s.snap.pends)))
  {
    if !(s.closer.ExplainPends? && s.closer.pends != {}) && !s.closer.SignalPend? {
      CloserIgnores(s.sh, s.closer, s.snap, PeerReason(s), pick);
    } else if s.closer.ExplainPends? {
      assert pick in PendsLeft(s.closer, s.snap.pends);
    }
  }

  lemma AppOutcomes(sh: Shared, t: nat, a: App, ok: bool)
    requires TableIds(sh) && AppIds(sh, a) && (a.Accepting? && ok ==> sh.acceptQueue != [])
    ensures var sh' := AppStep(sh, t, a, ok).0;
            && |sh.pends| <= |sh'.pends|
            && (forall p :: 0 <= p < |sh'.pends| ==>
                  if p < |sh.pends| then
                    sh'.pends[p].connection == sh.pends[p].connection && sh'.pends[p].reason == sh.pends[p].reason
                  else sh'.pends[p].Blank())
  {
    if !(a.Connecting? && !sh.closed) {
      AppPends(sh, t, a, ok);
    }
  }

  lemma LocalOutcomes(s: State, l: Label)
    requires ControlOk(s) && HandsOk(s) && Enabled(s, l) && !l.CloserGo?
    requires (l.PumpGo? ==> s.pump == Crashed) && (l.AppGo? ==> s.threads[l.t] == ClosingPeer)
    ensures var s' := Next(s, l);
            && s'.sh.pends == s.sh.pends && s.snap.pends <= s'.snap.pends
            && (s'.pump == s.pump || !HandlesHeld(s'.pump))
  {
  }

  lemma StepRouted(s: State, l: Label, h: set<(PendId, Event)>)
    requires OutcomesOk(s) && Routed(s, h) && Enabled(s, l)
    ensures Routed(Next(s, l), h + Taken(s, l))
  {
    if l.PumpGo? && s.pump != Crashed {
      PumpStepRouted(s, h);
    } else {
      assert h + Taken(s, l) == h;
      OthersKeepRouted(s, l, h);
    }
  }

  lemma OthersKeepRouted(s: State, l: Label, h: set<(PendId, Event)>)
    requires OutcomesOk(s) && Routed(s, h) && Enabled(s, l) && (l.PumpGo? ==> s.pump == Crashed)
    ensures Routed(Next(s, l), h)
  {
    StepCoherent(s, l);
    if l.CloserGo? {
      CloserFails(s, l.pick);
    } else if l.AppGo? && s.threads[l.t] != ClosingPeer {
      AppOutcomes(s.sh, l.t, s.threads[l.t], l.ok);
    } else {
      LocalOutcomes(s, l);
    }
    KeepsRouted(s, Next(s, l), h);
  }

  lemma {:induction false} AlwaysRouted(s: State, ls: seq<Label>, h: set<(PendId, Event)>)
    requires OutcomesOk(s) && Routed(s, h) && IsRun(s, ls)
    ensures Routed(After(s, ls), h + AllTaken(s, ls))
    decreases |ls|
  {
    if ls != [] {
      StepRouted(s, ls[0], h);
      StepOutcomes(s, ls[0]);
      AlwaysRouted(Next(s, ls[0]), ls[1..], h + Taken(s, ls[0]));
      assert h + Taken(s, ls[0]) + AllTaken(Next(s, ls[0]), ls[1..]) == h + AllTaken(s, ls);
    } else {
      assert h + AllTaken(s, ls) == h;
    }
  }

  /** In every run from the start: the reason of a failed connect is that of a ConnectFailed routed for it, with
      its address, or AttemptFailed from the close of the peer; and its connection has the guid of a
      ConnectSucceeded routed for it. */
  lemma OutcomeIsRouted(s: State, ls: seq<Label>, p: PendId)
    requires Initial(s) && IsRun(s, ls) && IsPend(After(s, ls).sh, p)
    ensures var s' := After(s, ls);
            var x := s'.sh.pends[p];
            && (x.reason.Some? ==>
                  || (p, ConnectFailed(x.key, x.reason.value)) in AllTaken(s, ls)
                  || (x.reason.value == AttemptFailed && s'.sh.closed && p in s'.snap.pends))
            && (x.connection.Some? ==>
                  && IsConn(s'.sh, x.connection.value)
                  && (p, ConnectSucceeded(x.key, s'.sh.conns[x.connection.value].guid)) in AllTaken(s, ls))
  {
    InitialOutcomesOk(s);
    AlwaysOutcomesOk(s, ls);
    AlwaysRouted(s, ls, {});
    assert {} + AllTaken(s, ls) == AllTaken(s, ls);
    assert PendRouted(After(s, ls).sh, After(s, ls).snap.pends, p, AllTaken(s, ls));
  }

  // ---- What the close of the peer tells the connects ----

  /** What the closer's second loop has passed has failed with AttemptFailed. */
  ghost predicate FailedBySweep(s: State) {
    && (s.closer.SignalPend? ==> IsPend(s.sh, s.closer.p) && s.sh.pends[s.closer.p].reason == Some(AttemptFailed))
    && (forall p :: p in s.snap.pends && p !in PendsLeft(s.closer, s.snap.pends) ==>
          IsPend(s.sh, p) && s.sh.pends[p].reason == Some(AttemptFailed))
  }

  lemma CloserFailsAll(s: State, pick: nat)
    requires WellFormed(s) && SweepOk(s) && CloserEnabled(s, pick) && FailedBySweep(s)
    ensures FailedBySweep(CloserNext(s, pick))
  {
    if !(s.closer.ExplainPends? && s.closer.pends != {}) && !s.closer.SignalPend? {
      CloserIgnores(s.sh, s.closer, s.snap, PeerReason(s), pick);
    }
  }

  /** A reason the closer has given is not written over. */
  lemma ReasonStays(s: State, l: Label, p: PendId)
    requires OutcomesOk(s) && Enabled(s, l) && !l.CloserGo? && IsPend(s.sh, p)
    requires s.sh.pends[p].event || CloserSignals(s.closer, p)
    ensures IsPend(Next(s, l).sh, p) && Next(s, l).sh.pends[p].reason == s.sh.pends[p].reason
  {
    assert PendOk(s, p);
    if l.PumpGo? && s.pump != Crashed {
      PumpLeavesOthers(s.sh, s.pump, p);
    } else if l.AppGo? && s.threads[l.t] != ClosingPeer {
      AppOutcomes(s.sh, l.t, s.threads[l.t], l.ok);
    } else {
      LocalOutcomes(s, l);
    }
  }

  lemma StepFailedBySweep(s: State, l: Label)
    requires OutcomesOk(s) && FailedBySweep(s) && Enabled(s, l)
    ensures FailedBySweep(Next(s, l))
  {
    var s' := Next(s, l);
    if l.CloserGo? {
      CloserFailsAll(s, l.pick);
    } else {
      OtherSteps(s, l);
      if s'.closer == s.closer {
        if s.closer.SignalPend? {
          ReasonStays(s, l, s.closer.p);
        }
        forall p | p in s.snap.pends && p !in PendsLeft(s.closer, s.snap.pends)
          ensures IsPend(s'.sh, p) && s'.sh.pends[p].reason == Some(AttemptFailed)
        {
          ReasonStays(s, l, p);
        }
      }
    }
  }

  lemma {:induction false} AlwaysFailedBySweep(s: State, ls: seq<Label>)
    requires OutcomesOk(s) && FailedBySweep(s) && IsRun(s, ls)
    ensures FailedBySweep(After(s, ls))
    decreases |ls|
  {
    if ls != [] {
      StepFailedBySweep(s, ls[0]);
      StepOutcomes(s, ls[0]);
      AlwaysFailedBySweep(Next(s, ls[0]), ls[1..]);
    }
  }

  /** When _finish_close is done, every connect in its snapshot is signalled with AttemptFailed and without a
      connection. */
  lemma SweepFails(s: State, ls: seq<Label>, p: PendId)
    requires Initial(s) && IsRun(s, ls) && After(s, ls).closer == Finished && p in After(s, ls).snap.pends
    ensures IsPend(After(s, ls).sh, p)
    ensures var x := After(s, ls).sh.pends[p]; x.event && x.reason == Some(AttemptFailed) && x.connection.None?
  {
    InitialOutcomesOk(s);
    AlwaysOutcomesOk(s, ls);
    AlwaysFailedBySweep(s, ls);
    assert PendOk(After(s, ls), p);
  }

  // ---- Pings ----

  /** The pending ping that a step of the pump takes out of the table, with the callback it takes it for. */
  ghost function Answered(s: State, l: Label): set<(PingId, Event)> {
    if l.PumpGo? && s.pump.Routing? && s.pump.event.PongReceived? && s.pump.event.address in s.sh.pendingPings
    then {(s.sh.pendingPings[s.pump.event.address], s.pump.event)}
    else {}
  }

  ghost function AllAnswered(s: State, ls: seq<Label>): set<(PingId, Event)>
    requires IsRun(s, ls)
    decreases |ls|
  {
    if ls == [] then {} else Answered(s, ls[0]) + AllAnswered(Next(s, ls[0]), ls[1..])
  }

  ghost predicate IsAnswer(q: PingId, key: Address, x: Pong, h: set<(PingId, Event)>) {
    x.address == key && (q, PongReceived(x.address, x.guid, x.data)) in h
  }

  ghost predicate PongsRouted(sh: Shared, pump: Pump, h: set<(PingId, Event)>) {
    && PumpIds(sh, pump) && (pump.Ponging? ==> IsAnswer(pump.q, sh.pings[pump.q].key, pump.pong, h))
    && (forall q :: 0 <= q < |sh.pings| && sh.pings[q].pong.Some? ==>
          IsAnswer(q, sh.pings[q].key, sh.pings[q].pong.value, h))
  }

  lemma PumpAnswers(s: State, h: set<(PingId, Event)>)
    requires ShutdownOk(s) && Pings.PingsResolve(s) && PongsRouted(s.sh, s.pump, h)
    requires Enabled(s, PumpGo) && s.pump != Crashed
    ensures PongsRouted(PumpNext(s).sh, PumpNext(s).pump, h + Answered(s, PumpGo))
  {
    PumpGoOk(s);
    if !Pings.HandlesPing(s.pump) && !(s.pump.Routing? && s.pump.event.PongReceived?) {
      Pings.PumpElsewhere(s.sh, s.pump);
    }
  }

  lemma OthersAnswer(s: State, l: Label, h: set<(PingId, Event)>)
    requires Coherent(s) && PongsRouted(s.sh, s.pump, h) && Enabled(s, l) && !(l.PumpGo? && s.pump != Crashed)
    ensures PongsRouted(Next(s, l).sh, Next(s, l).pump, h)
  {
    var s' := Next(s, l);
    StepCoherent(s, l);
    PongsStay(s, l);
    forall q | 0 <= q < |s'.sh.pings| && s'.sh.pings[q].pong.Some?
      ensures IsAnswer(q, s'.sh.pings[q].key, s'.sh.pings[q].pong.value, h)
    {
      assert PingEvolves(s.sh.pings[q], s'.sh.pings[q]);
    }
    if s'.pump.Ponging? {
      assert PingEvolves(s.sh.pings[s.pump.q], s'.sh.pings[s.pump.q]);
    }
  }

  /** Nobody but the pump writes a pong. */
  lemma PongsStay(s: State, l: Label)
    requires Enabled(s, l) && !(l.PumpGo? && s.pump != Crashed)
    ensures var s' := Next(s, l);
            && (s'.pump.Ponging? ==> s'.pump == s.pump)
            && (forall q :: 0 <= q < |s'.sh.pings| && s'.sh.pings[q].pong.Some? ==>
                  q < |s.sh.pings| && s'.sh.pings[q].pong == s.sh.pings[q].pong)
  {
    if l.AppGo? && s.threads[l.t] != ClosingPeer {
      AppPongs(s.sh, l.t, s.threads[l.t], l.ok);
    } else if l.CloserGo? {
      CloserPongs(s, l.pick);
    }
  }

  lemma AppPongs(sh: Shared, t: nat, a: App, ok: bool)
    requires TableIds(sh) && AppIds(sh, a) && (a.Accepting? && ok ==> sh.acceptQueue != [])
    ensures var sh' := AppStep(sh, t, a, ok).0;
            forall q :: 0 <= q < |sh'.pings| && sh'.pings[q].pong.Some? ==>
              q < |sh.pings| && sh'.pings[q].pong == sh.pings[q].pong
  {
  }

  lemma CloserPongs(s: State, pick: nat)
    requires WellFormed(s) && CloserEnabled(s, pick)
    ensures var s' := CloserNext(s, pick);
            && (s'.pump.Ponging? ==> s'.pump == s.pump)
            && (forall q :: 0 <= q < |s'.sh.pings| && s'.sh.pings[q].pong.Some? ==>
                  q < |s.sh.pings| && s'.sh.pings[q].pong == s.sh.pings[q].pong)
  {
  }

  lemma StepAnswered(s: State, l: Label, h: set<(PingId, Event)>)
    requires ShutdownOk(s) && Pings.PingsResolve(s) && PongsRouted(s.sh, s.pump, h) && Enabled(s, l)
    ensures PongsRouted(Next(s, l).sh, Next(s, l).pump, h + Answered(s, l))
  {
    if l.PumpGo? && s.pump != Crashed {
      PumpAnswers(s, h);
    } else {
      assert h + Answered(s, l) == h;
      OthersAnswer(s, l, h);
    }
  }

  lemma {:induction false} AlwaysAnswered(s: State, ls: seq<Label>, h: set<(PingId, Event)>)
    requires ShutdownOk(s) && Pings.PingsResolve(s) && PongsRouted(s.sh, s.pump, h) && IsRun(s, ls)
    ensures PongsRouted(After(s, ls).sh, After(s, ls).pump, h + AllAnswered(s, ls))
    decreases |ls|
  {
    if ls != [] {
      var h' := h + Answered(s, ls[0]);
      StepAnswered(s, ls[0], h);
      StepShutdown(s, ls[0]);
      Pings.StepResolves(s, ls[0]);
      AlwaysAnswered(Next(s, ls[0]), ls[1..], h');
      assert h' + AllAnswered(Next(s, ls[0]), ls[1..]) == h + AllAnswered(s, ls);
    } else {
      assert h + AllAnswered(s, ls) == h;
    }
  }

  /** In every run from the start: the pong a ping holds is that of a PongReceived routed for it, from its own
      address, with that packet's guid and data. */
  lemma PongIsRouted(s: State, ls: seq<Label>, q: PingId)
    requires Initial(s) && IsRun(s, ls) && IsPing(After(s, ls).sh, q) && After(s, ls).sh.pings[q].pong.Some?
    ensures var x := After(s, ls).sh.pings[q];
            && x.pong.value.address == x.key
            && (q, PongReceived(x.key, x.pong.value.guid, x.pong.value.data)) in AllAnswered(s, ls)
  {
    InitialShutdownOk(s);
    AlwaysAnswered(s, ls, {});
    assert {} + AllAnswered(s, ls) == AllAnswered(s, ls);
  }
}
