/** The limits of the waits: exactly when a connect can strand a caller, and why the unbounded second
    wait of a timed-out connect always ends. */
module Stranding {
  import opened RakTypes
  import opened PeerState
  import opened Protocol
  import opened Coherence
  import opened Shutdown
  import opened Resolution
  import opened Outcomes
  import opened Waits

  // ---- A lost pending ----

  lemma StepKeepsLost(s: State, l: Label, p: PendId)
    requires OutcomesOk(s) && Enabled(s, l) && IsPend(s.sh, p) && Places(s, p) == 0
    ensures IsPend(Next(s, l).sh, p) && Places(Next(s, l), p) == 0
  {
    if l.AppGo? && s.threads[l.t] != ClosingPeer {
      AppPlaces(s, l.t, l.ok, p);
    } else {
      SystemKeepsPlaces(s, l, p);
    }
  }

  /** A pending that is in no place stays there: no run ever signals it. */
  lemma {:induction false} LostForEver(s: State, ls: seq<Label>, p: PendId)
    requires OutcomesOk(s) && IsRun(s, ls) && IsPend(s.sh, p) && Places(s, p) == 0
    ensures var s' := After(s, ls); IsPend(s'.sh, p) && Places(s', p) == 0 && !s'.sh.pends[p].event
    decreases |ls|
  {
    if ls != [] {
      StepKeepsLost(s, ls[0], p);
      StepOutcomes(s, ls[0]);
      LostForEver(Next(s, ls[0]), ls[1..], p);
    }
  }

  /** Every waiting connect has its pending in exactly one place. */
  ghost predicate NoneStranded(s: State) {
    forall t: nat, p: PendId :: t < |s.threads| && WaitsFor(s.threads[t], p) ==> IsPend(s.sh, p) && Places(s, p) == 1
  }

  /** t waits, with no timeout of its own to help it, for something that will never come. */
  ghost predicate Stranded(s: State, t: nat) {
    && t < |s.threads| && s.threads[t].Waiting?
    && IsPend(s.sh, s.threads[t].p) && Places(s, s.threads[t].p) == 0
  }

  /** u, live on k, walks up to its pop of k. */
  lemma WalkToPop(s: State, u: nat, k: Address)
    requires OutcomesOk(s) && u < |s.threads|
    requires (s.threads[u].Starting? || s.threads[u].Waiting?) && s.threads[u].k == k
    ensures Enabled(s, AppGo(u, false)) && Disciplined(s, AppGo(u, false))
    ensures var s' := Next(s, AppGo(u, false));
            && s'.sh == s.sh && |s'.threads| == |s.threads|
            && (forall t :: 0 <= t < |s.threads| && t != u ==> s'.threads[t] == s.threads[t])
            && Drops(s'.threads[u], k) && !s'.threads[u].Connecting? && OutcomesOk(s')
  {
    StepOutcomes(s, AppGo(u, false));
  }

  /** One disciplined step, then a disciplined run. */
  lemma DisciplineStep(s: State, l: Label, rest: seq<Label>)
    requires Enabled(s, l) && Disciplined(s, l) && IsRun(Next(s, l), rest) && DisciplinedRun(Next(s, l), rest)
    ensures var ls := [l] + rest;
            IsRun(s, ls) && DisciplinedRun(s, ls) && After(s, ls) == After(Next(s, l), rest)
  {
    assert ([l] + rest)[1..] == rest;
  }

  lemma OneStep(s: State, l: Label)
    requires Enabled(s, l)
    ensures IsRun(s, [l]) && After(s, [l]) == Next(s, l)
    ensures Disciplined(s, l) ==> DisciplinedRun(s, [l])
  {
    assert [l][1..] == [];
  }

  /** Right after t has registered for k beside another live connect: there is a run, with no further
      breach of the assumption, that leaves t waiting for ever. */
  lemma SecondConnectStrands(s: State, t: nat, u: nat, k: Address) returns (ls: seq<Label>)
    requires OutcomesOk(s) && t < |s.threads| && u < |s.threads| && t != u
    requires s.threads[t].Starting? && s.threads[t].k == k && Live(s.threads[u], k)
    requires IsPend(s.sh, s.threads[t].p) && s.sh.pends[s.threads[t].p].key == k
    requires InTable(s.sh, s.threads[t].p)
    ensures IsRun(s, ls) && DisciplinedRun(s, ls) && Stranded(After(s, ls), t)
  {
    if s.threads[u].Starting? || s.threads[u].Waiting? {
      var l := AppGo(u, false);
      WalkToPop(s, u, k);
      var rest := PopThenWait(Next(s, l), t, u, k);
      DisciplineStep(s, l, rest);
      ls := [l] + rest;
    } else {
      ls := PopThenWait(s, t, u, k);
    }
  }

  /** u pops k, and t, whose pending that was, goes on to wait. */
  lemma PopThenWait(s: State, t: nat, u: nat, k: Address) returns (ls: seq<Label>)
    requires OutcomesOk(s) && t < |s.threads| && u < |s.threads| && t != u
    requires s.threads[t].Starting? && s.threads[t].k == k && Drops(s.threads[u], k) && !s.threads[u].Connecting?
    requires IsPend(s.sh, s.threads[t].p) && s.sh.pends[s.threads[t].p].key == k && InTable(s.sh, s.threads[t].p)
    ensures IsRun(s, ls) && DisciplinedRun(s, ls) && Stranded(After(s, ls), t)
  {
    var p := s.threads[t].p;
    var l1, l2 := AppGo(u, false), AppGo(t, true);
    var s1 := Next(s, l1);
    StepOutcomes(s, l1);
    PopLoses(s, u, p);
    assert s1.threads[t] == s.threads[t];
    NowWaits(s1, t);
    ls := [l1, l2];
    assert ls[1..] == [l2];
  }

  lemma NowWaits(s: State, t: nat)
    requires OutcomesOk(s) && t < |s.threads| && s.threads[t].Starting?
    requires IsPend(s.sh, s.threads[t].p) && Places(s, s.threads[t].p) == 0
    ensures var l := AppGo(t, true);
            IsRun(s, [l]) && DisciplinedRun(s, [l]) && Stranded(After(s, [l]), t)
  {
    OneStep(s, AppGo(t, true));
    StepKeepsLost(s, AppGo(t, true), s.threads[t].p);
  }

  lemma PopLoses(s: State, u: nat, p: PendId)
    requires OutcomesOk(s) && Enabled(s, AppGo(u, false)) && IsPend(s.sh, p) && InTable(s.sh, p)
    requires Drops(s.threads[u], s.sh.pends[p].key) && !s.threads[u].Connecting?
    ensures IsPend(AppNext(s, u, false).sh, p) && Places(AppNext(s, u, false), p) == 0
  {
    assert PendOk(s, p);
  }

  /** When thread t registers a connect for k on an open peer, then from there on no run that respects the
      uniqueness assumption strands a waiting connect, if and only if no other connect for k was live. */
  lemma ConnectIsSafeIff(s: State, t: nat, k: Address)
    requires WaitsOk(s) && t < |s.threads| && s.threads[t] == Connecting(k) && !s.sh.closed
    ensures Enabled(s, AppGo(t, true))
    ensures NeverStrands(Next(s, AppGo(t, true))) <==> NoOtherLive(s, t, k)
  {
    if NoOtherLive(s, t, k) {
      LoneConnectIsSafe(s, t, k);
    } else {
      SharedConnectIsUnsafe(s, t, k);
    }
  }

  ghost predicate NeverStrands(s: State) {
    forall ls :: IsRun(s, ls) && DisciplinedRun(s, ls) ==> NoneStranded(After(s, ls))
  }

  lemma LoneConnectIsSafe(s: State, t: nat, k: Address)
    requires WaitsOk(s) && t < |s.threads| && s.threads[t] == Connecting(k) && NoOtherLive(s, t, k)
    ensures NeverStrands(Next(s, AppGo(t, true)))
  {
    var s' := Next(s, AppGo(t, true));
    StepWaits(s, AppGo(t, true));
    forall ls | IsRun(s', ls) && DisciplinedRun(s', ls) ensures NoneStranded(After(s', ls)) {
      AlwaysWaitsOk(s', ls);
      WaitsMeansNone(After(s', ls));
    }
  }

  lemma SharedConnectIsUnsafe(s: State, t: nat, k: Address)
    requires OutcomesOk(s) && t < |s.threads| && s.threads[t] == Connecting(k) && !s.sh.closed && !NoOtherLive(s, t, k)
    ensures !NeverStrands(Next(s, AppGo(t, true)))
  {
    var s' := Next(s, AppGo(t, true));
    StepOutcomes(s, AppGo(t, true));
    var u: nat :| u < |s.threads| && u != t && Live(s.threads[u], k);
    assert s'.threads[u] == s.threads[u];
    var ls := SecondConnectStrands(s', t, u, k);
    StrandedIsNot(After(s', ls), t);
  }

  lemma StrandedIsNot(s: State, t: nat)
    requires Stranded(s, t)
    ensures !NoneStranded(s)
  {
    assert WaitsFor(s.threads[t], s.threads[t].p);
  }

  lemma WaitsMeansNone(s: State)
    requires WaitsOk(s)
    ensures NoneStranded(s)
  {
    forall t: nat, p: PendId | t < |s.threads| && WaitsFor(s.threads[t], p)
      ensures IsPend(s.sh, p) && Places(s, p) == 1
    {
      assert WaiterOk(s, t);
    }
  }

  // ---- The unbounded wait ----

  /** The thread that has taken p and is committed to signalling it moves. */
  predicate Committed(s: State, p: PendId, l: Label) {
    if PumpHolds(s.pump, p) then l.PumpGo? else SystemStep(l)
  }

  function WaitRank(s: State, p: PendId): nat {
    if PumpHolds(s.pump, p) then PumpRank(s.pump) else Rank(s)
  }

  /** p has been popped and is on its way to being signalled. */
  predicate Taken(s: State, p: PendId) {
    IsPend(s.sh, p) && (PumpHolds(s.pump, p) || p in CloserHolds(s))
  }

  lemma TakenCanMove(s: State, p: PendId) returns (l: Label)
    requires OutcomesOk(s) && Taken(s, p)
    ensures Enabled(s, l) && Committed(s, p, l)
  {
    if PumpHolds(s.pump, p) {
      l := PumpGo;
    } else {
      l := SystemCanMove(s);
    }
  }

  lemma PumpTakenStep(s: State, l: Label, p: PendId)
    requires OutcomesOk(s) && PumpHolds(s.pump, p) && IsPend(s.sh, p) && Enabled(s, l)
    ensures if l.PumpGo? then
              Next(s, l).sh.pends[p].event
              || (PumpHolds(Next(s, l).pump, p) && PumpRank(Next(s, l).pump) < PumpRank(s.pump))
            else Next(s, l).pump == s.pump
  {
  }

  lemma TakenStep(s: State, l: Label, p: PendId)
    requires OutcomesOk(s) && Taken(s, p) && Enabled(s, l)
    ensures var s' := Next(s, l);
            && IsPend(s'.sh, p)
            && (s'.sh.pends[p].event
                || (Taken(s', p) && WaitRank(s', p) + (if Committed(s, p, l) then 1 else 0) <= WaitRank(s, p)
                    && (PumpHolds(s'.pump, p) <==> PumpHolds(s.pump, p))))
  {
    var s' := Next(s, l);
    StepOutcomes(s, l);
    assert PendOk(s, p);
    if PumpHolds(s.pump, p) {
      PumpTakenStep(s, l, p);
      StepCoherent(s, l);
    } else {
      CloserTakenStep(s, l, p);
    }
  }

  lemma CloserTakenStep(s: State, l: Label, p: PendId)
    requires OutcomesOk(s) && IsPend(s.sh, p) && p in CloserHolds(s) && Enabled(s, l)
    ensures var s' := Next(s, l);
            && IsPend(s'.sh, p)
            && (s'.sh.pends[p].event || p in CloserHolds(s'))
            && !PumpHolds(s'.pump, p)
            && Rank(s') + (if SystemStep(l) then 1 else 0) <= Rank(s)
  {
    assert PendOk(s, p) && s.sh.closed && !InTable(s.sh, p) && Places(s, p) == 1;
    RankFalls(s, l);
    StepOutcomes(s, l);
    if l.AppGo? && s.threads[l.t] != ClosingPeer {
      AppPlaces(s, l.t, l.ok, p);
    } else {
      SystemKeepsPlaces(s, l, p);
      SystemQuiet(s, l);
    }
    TableEmpty(Next(s, l), p);
  }

  lemma TableEmpty(s: State, p: PendId)
    requires TailOk(s) && s.sh.closed && IsPend(s.sh, p)
    ensures !InTable(s.sh, p)
  {
  }

  ghost function CommittedSteps(s: State, ls: seq<Label>, p: PendId): nat
    requires IsRun(s, ls)
    decreases |ls|
  {
    if ls == [] then 0
    else (if Committed(s, p, ls[0]) then 1 else 0) + CommittedSteps(Next(s, ls[0]), ls[1..], p)
  }

  /** A caller in the unbounded second wait is always backed: in every run until its event is set, the
      thread committed to setting it, the pump or the closer, makes at most WaitRank steps, and it has an
      enabled step all along; a step of anyone else does not set it back. */
  lemma {:induction false} SecondWaitEnds(s: State, ls: seq<Label>, p: PendId)
    requires OutcomesOk(s) && Taken(s, p) && IsRun(s, ls)
    ensures var s' := After(s, ls);
            && IsPend(s'.sh, p)
            && (s'.sh.pends[p].event
                || (Taken(s', p) && CommittedSteps(s, ls, p) + WaitRank(s', p) <= WaitRank(s, p)
                    && exists l :: Enabled(s', l) && Committed(s', p, l)))
    decreases |ls|
  {
    if ls == [] {
      var l := TakenCanMove(s, p);
    } else {
      var s1 := Next(s, ls[0]);
      TakenStep(s, ls[0], p);
      StepOutcomes(s, ls[0]);
      if s1.sh.pends[p].event {
        OutcomeIsFinal(s1, ls[1..], p);
      } else {
        SecondWaitEnds(s1, ls[1..], p);
      }
    }
  }

  /** The unbounded wait is entered only when its pending has been signalled or taken. */
  lemma ReapingIsBacked(s: State, t: nat)
    requires WaitsOk(s) && t < |s.threads| && s.threads[t].Reaping?
    ensures var p := s.threads[t].p; IsPend(s.sh, p) && (s.sh.pends[p].event || Taken(s, p))
  {
    assert WaiterOk(s, t) && WaitsFor(s.threads[t], s.threads[t].p);
  }
}
