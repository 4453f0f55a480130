/** A connect whose start RakNet refuses: exactly when a connection is made for it all the same, and when one
    is left open. */
module FailedConnects {
  import opened RakTypes
  import opened PeerState
  import opened Protocol
  import opened Coherence
  import opened AcceptQueue
  import opened Resolution
  import opened Outcomes
  import opened Waits

  predicate NoneMadeFor(sh: Shared, p: PendId) {
    forall c :: 0 <= c < |sh.conns| ==> sh.conns[c].origin != Some(p)
  }

  predicate NoneOpenFor(sh: Shared, p: PendId) {
    forall c :: 0 <= c < |sh.conns| && sh.conns[c].origin == Some(p) ==> sh.conns[c].closed
  }

  /** No continuation makes a connection for p. */
  ghost predicate NeverConnected(s: State, p: PendId) {
    forall ls :: IsRun(s, ls) ==> NoneMadeFor(After(s, ls).sh, p)
  }

  /** No continuation leaves a connection made for p open. */
  ghost predicate NeverOpen(s: State, p: PendId) {
    forall ls :: IsRun(s, ls) ==> NoneOpenFor(After(s, ls).sh, p)
  }

  /** The pump is about to make a connection for p. */
  predicate Makes(pump: Pump, p: PendId) {
    pump.Establishing? && pump.p == p
  }

  /** The pump has made c for p and not attached it yet. */
  predicate Attaches(pump: Pump, p: PendId) {
    pump.Attaching? && pump.p == p
  }

  // ---- Out of the callbacks' reach ----

  predicate OutOfReach(sh: Shared, pump: Pump, p: PendId) {
    IsPend(sh, p) && !InTable(sh, p) && !Makes(pump, p)
  }

  lemma PumpOut(sh: Shared, pump: Pump, p: PendId)
    requires TableIds(sh) && PumpIds(sh, pump) && TableKeysOk(sh) && OutOfReach(sh, pump, p)
    ensures var (sh', pump') := PumpStep(sh, pump); OutOfReach(sh', pump', p)
  {
    if pump.Routing? {
      EnterOut(sh, pump.event, p);
    }
  }

  lemma EnterOut(sh: Shared, e: Event, p: PendId)
    requires TableIds(sh) && TableKeysOk(sh) && IsPend(sh, p) && !InTable(sh, p)
    ensures var (sh', pump') := Enter(sh, e); OutOfReach(sh', pump', p)
  {
  }

  lemma CloserOut(s: State, pick: nat, p: PendId)
    requires WellFormed(s) && CloserEnabled(s, pick) && OutOfReach(s.sh, s.pump, p)
    ensures OutOfReach(CloserNext(s, pick).sh, CloserNext(s, pick).pump, p)
  {
    CloserSparesPends(s.sh, s.closer, s.snap, PeerReason(s), pick);
  }

  lemma LocalOut(s: State, l: Label, p: PendId)
    requires Enabled(s, l) && OutOfReach(s.sh, s.pump, p) && !l.CloserGo?
    requires (l.PumpGo? ==> s.pump == Crashed) && (l.AppGo? ==> s.threads[l.t] == ClosingPeer)
    ensures OutOfReach(Next(s, l).sh, Next(s, l).pump, p)
  {
  }

  lemma StepOut(s: State, l: Label, p: PendId)
    requires ResolutionOk(s) && Enabled(s, l) && OutOfReach(s.sh, s.pump, p)
    ensures OutOfReach(Next(s, l).sh, Next(s, l).pump, p)
  {
    if l.PumpGo? && s.pump != Crashed {
      PumpOut(s.sh, s.pump, p);
    } else if l.CloserGo? {
      CloserOut(s, l.pick, p);
    } else if l.AppGo? && s.threads[l.t] != ClosingPeer {
      AppEntry(s.sh, l.t, s.threads[l.t], l.ok, p);
    } else {
      LocalOut(s, l, p);
    }
  }

  /** Only the step from Establishing makes a connection for a connect. */
  lemma PumpMakes(sh: Shared, pump: Pump, c: ConnId)
    requires TableIds(sh) && PumpIds(sh, pump)
    ensures var sh' := PumpStep(sh, pump).0;
            |sh.conns| <= c < |sh'.conns| && sh'.conns[c].origin.Some? ==> Makes(pump, sh'.conns[c].origin.value)
  {
  }

  lemma StepMakes(s: State, l: Label, c: ConnId)
    requires Enabled(s, l) && |s.sh.conns| <= c < |Next(s, l).sh.conns|
    ensures var o := Next(s, l).sh.conns[c].origin; o.Some? ==> Makes(s.pump, o.value)
  {
    if l.PumpGo? && s.pump != Crashed {
      PumpMakes(s.sh, s.pump, c);
    } else {
      QuietArrivals(s, l);
    }
  }

  /** A step with p out of reach makes nothing for it, and opens nothing again. */
  lemma StepClean(s: State, l: Label, p: PendId)
    requires Coherent(s) && ResolutionOk(s) && Enabled(s, l) && OutOfReach(s.sh, s.pump, p)
    ensures OutOfReach(Next(s, l).sh, Next(s, l).pump, p)
    ensures NoneMadeFor(s.sh, p) ==> NoneMadeFor(Next(s, l).sh, p)
    ensures NoneOpenFor(s.sh, p) ==> NoneOpenFor(Next(s, l).sh, p)
  {
    StepOut(s, l, p);
    var sh' := Next(s, l).sh;
    StepCoherent(s, l);
    forall c | 0 <= c < |sh'.conns| && sh'.conns[c].origin == Some(p)
      ensures c < |s.sh.conns| && s.sh.conns[c].origin == Some(p) && (s.sh.conns[c].closed ==> sh'.conns[c].closed)
    {
      if c < |s.sh.conns| {
        assert ConnEvolves(s.sh.conns[c], sh'.conns[c]);
      } else {
        StepMakes(s, l, c);
      }
    }
  }

  lemma {:induction false} AlwaysClean(s: State, ls: seq<Label>, p: PendId)
    requires OutcomesOk(s) && IsRun(s, ls) && OutOfReach(s.sh, s.pump, p)
    ensures NoneMadeFor(s.sh, p) ==> NoneMadeFor(After(s, ls).sh, p)
    ensures NoneOpenFor(s.sh, p) ==> NoneOpenFor(After(s, ls).sh, p)
    decreases |ls|
  {
    if ls != [] {
      StepClean(s, ls[0], p);
      StepOutcomes(s, ls[0]);
      AlwaysClean(Next(s, ls[0]), ls[1..], p);
    }
  }

  // ---- Exactly when ----

  /** What a refused start finds: its own pending, under its own key. */
  lemma UndoneIsOut(s: State, t: nat, ok: bool)
    requires WaitsOk(s) && Enabled(s, AppGo(t, ok)) && s.threads[t].Undoing?
    ensures var p := s.threads[t].p;
            var s' := AppNext(s, t, ok);
            && IsPend(s.sh, p) && !InTable(s'.sh, p)
            && s'.sh.conns == s.sh.conns && s'.sh.pends == s.sh.pends && s'.pump == s.pump
  {
    assert WaiterOk(s, t) && WaitsFor(s.threads[t], s.threads[t].p);
  }

  /** The pump's next step makes a connection for p, which is open. */
  lemma MakesOne(s: State, p: PendId)
    requires Coherent(s) && Makes(s.pump, p)
    ensures var s' := After(s, [PumpGo]);
            IsRun(s, [PumpGo]) && !NoneOpenFor(s'.sh, p) && !NoneMadeFor(s'.sh, p)
  {
    assert [PumpGo][1..] == [];
    assert After(s, [PumpGo]) == PumpNext(s);
    var c := PumpNext(s).sh.conns[|s.sh.conns|];
    assert c.origin == Some(p) && !c.closed;
  }

  /** The connection made for p is the one being attached to it, or attached. */
  lemma MadeIsAttached(s: State, p: PendId)
    requires ResolutionOk(s) && IsPend(s.sh, p)
    ensures NoneMadeFor(s.sh, p) <==> !Attaches(s.pump, p) && s.sh.pends[p].connection.None?
    ensures Attaches(s.pump, p) ==> (NoneOpenFor(s.sh, p) <==> IsClosed(s.sh, s.pump.c))
    ensures s.sh.pends[p].connection.Some? ==>
              (NoneOpenFor(s.sh, p) <==> IsClosed(s.sh, s.sh.pends[p].connection.value))
  {
    assert PendOk(s, p);
    forall c | 0 <= c < |s.sh.conns| && s.sh.conns[c].origin == Some(p)
      ensures s.sh.pends[p].connection == Some(c) || s.pump == Attaching(p, c)
    {
      assert OriginOk(s.sh, s.pump, c);
    }
  }

  lemma NeverConnectedIff(s: State, p: PendId)
    requires OutcomesOk(s) && IsPend(s.sh, p) && !InTable(s.sh, p)
    ensures NeverConnected(s, p) <==> !Makes(s.pump, p) && !Attaches(s.pump, p) && s.sh.pends[p].connection.None?
  {
    MadeIsAttached(s, p);
    if Makes(s.pump, p) {
      MakesOne(s, p);
    } else if NoneMadeFor(s.sh, p) {
      forall ls | IsRun(s, ls) ensures NoneMadeFor(After(s, ls).sh, p) {
        AlwaysClean(s, ls, p);
      }
    } else {
      assert IsRun(s, []) && After(s, []) == s;
    }
  }

  lemma NeverOpenIff(s: State, p: PendId)
    requires OutcomesOk(s) && IsPend(s.sh, p) && !InTable(s.sh, p)
    ensures NeverOpen(s, p) <==>
            && !Makes(s.pump, p)
            && (Attaches(s.pump, p) ==> IsClosed(s.sh, s.pump.c))
            && (s.sh.pends[p].connection.Some? ==> IsClosed(s.sh, s.sh.pends[p].connection.value))
  {
    MadeIsAttached(s, p);
    if Makes(s.pump, p) {
      MakesOne(s, p);
    } else if NoneOpenFor(s.sh, p) {
      forall ls | IsRun(s, ls) ensures NoneOpenFor(After(s, ls).sh, p) {
        AlwaysClean(s, ls, p);
      }
    } else {
      assert IsRun(s, []) && After(s, []) == s;
    }
  }

  /** When RakNet refuses to start an attempt and the connect pops its entry before it raises ConnectError: no
      connection is ever made for it, in any continuation, if and only if the pump had not already begun to
      establish one, and had not attached one, by then. */
  lemma RefusedStartIsCleanIff(s: State, t: nat, ok: bool)
    requires WaitsOk(s) && Enabled(s, AppGo(t, ok)) && s.threads[t].Undoing?
    ensures var p := s.threads[t].p;
            && IsPend(s.sh, p)
            && (NeverConnected(AppNext(s, t, ok), p) <==>
                  !Makes(s.pump, p) && !Attaches(s.pump, p) && s.sh.pends[p].connection.None?)
  {
    UndoneIsOut(s, t, ok);
    StepOutcomes(s, AppGo(t, ok));
    NeverConnectedIff(AppNext(s, t, ok), s.threads[t].p);
  }

  /** And no connection made for it is left open, in any continuation, if and only if none was being made, and
      the one made, if any, was closed already. */
  lemma RefusedStartLeavesNoneOpenIff(s: State, t: nat, ok: bool)
    requires WaitsOk(s) && Enabled(s, AppGo(t, ok)) && s.threads[t].Undoing?
    ensures var p := s.threads[t].p;
            && IsPend(s.sh, p)
            && (NeverOpen(AppNext(s, t, ok), p) <==>
                  && !Makes(s.pump, p)
                  && (Attaches(s.pump, p) ==> IsClosed(s.sh, s.pump.c))
                  && (s.sh.pends[p].connection.Some? ==> IsClosed(s.sh, s.sh.pends[p].connection.value)))
  {
    UndoneIsOut(s, t, ok);
    StepOutcomes(s, AppGo(t, ok));
    NeverOpenIff(AppNext(s, t, ok), s.threads[t].p);
  }
}
