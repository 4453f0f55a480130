/** Exactly which of the connections that exist when the peer is closed are closed by it. */
module PeerCloses {
  import opened RakTypes
  import opened PeerState
  import opened Protocol
  import opened Coherence
  import opened Shutdown
  import opened Delivery
  import opened LateMessages
  import opened Survivors

  /** Every continuation in which _finish_close is done has closed c. */
  ghost predicate AlwaysCloses(s: State, c: ConnId) {
    forall ls :: IsRun(s, ls) && After(s, ls).closer == Finished ==> IsClosed(After(s, ls).sh, c)
  }

  /** The pump is going to close c, whatever the others do: it has found the connection lost, or its queue
      full, or is about to put into a queue that admits nothing. */
  predicate PumpCloses(p: Pump, maxQueue: Option<int>, c: ConnId) {
    ((p.Overflowing? || p.Marking?) && p.c == c) || (PutPending(p, c) && !Admits(maxQueue))
  }

  // ---- What is sure to be closed ----

  ghost predicate Doomed(s: State, c: ConnId) {
    && ShutdownOk(s) && Delivers(s.sh, s.pump) && IsConn(s.sh, c)
    && (IsClosed(s.sh, c) || PumpCloses(s.pump, s.sh.maxQueue, c))
  }

  lemma PumpGoesOn(sh: Shared, p: Pump, c: ConnId)
    requires TableIds(sh) && PumpIds(sh, p) && IsConn(sh, c) && BoxOk(sh, p, c) && PumpCloses(p, sh.maxQueue, c)
    ensures var (sh', p') := PumpStep(sh, p); IsClosed(sh', c) || PumpCloses(p', sh.maxQueue, c)
  {
  }

  lemma PumpWaits(s: State, l: Label, c: ConnId)
    requires Enabled(s, l) && !l.PumpGo? && PumpCloses(s.pump, s.sh.maxQueue, c)
    ensures Next(s, l).pump == s.pump
  {
  }

  lemma StepDoomed(s: State, l: Label, c: ConnId)
    requires Doomed(s, c) && Enabled(s, l)
    ensures Doomed(Next(s, l), c)
  {
    StepShutdown(s, l);
    StepDelivers(s, l);
    StepCoherent(s, l);
    assert ConnEvolves(s.sh.conns[c], Next(s, l).sh.conns[c]) && BoxOk(s.sh, s.pump, c);
    if !IsClosed(s.sh, c) {
      if l.PumpGo? {
        PumpGoesOn(s.sh, s.pump, c);
      } else {
        PumpWaits(s, l, c);
      }
    }
  }

  lemma {:induction false} AlwaysDoomed(s: State, ls: seq<Label>, c: ConnId)
    requires Doomed(s, c) && IsRun(s, ls)
    ensures Doomed(After(s, ls), c)
    decreases |ls|
  {
    if ls != [] {
      StepDoomed(s, ls[0], c);
      AlwaysDoomed(Next(s, ls[0]), ls[1..], c);
    }
  }

  lemma StepKeepsSnapshot(s: State, l: Label)
    requires RolesOk(s) && s.sh.closed && Enabled(s, l)
    ensures Next(s, l).snap == s.snap
  {
  }

  lemma {:induction false} SnapshotStays(s: State, ls: seq<Label>)
    requires ShutdownOk(s) && s.sh.closed && IsRun(s, ls)
    ensures ShutdownOk(After(s, ls)) && After(s, ls).snap == s.snap
    decreases |ls|
  {
    if ls != [] {
      StepShutdown(s, ls[0]);
      StepKeepsSnapshot(s, ls[0]);
      RankFalls(s, ls[0]);
      SnapshotStays(Next(s, ls[0]), ls[1..]);
    }
  }

  /** What is in the snapshot is closed when _finish_close is done. */
  lemma SnapshotCloses(s: State, ls: seq<Label>, c: ConnId)
    requires ShutdownOk(s) && s.sh.closed && c in s.snap.conns && IsRun(s, ls) && After(s, ls).closer == Finished
    ensures IsClosed(After(s, ls).sh, c)
  {
    SnapshotStays(s, ls);
  }

  // ---- What may stay open ----

  /** c is open and out of the table, and neither the closer nor the pump is at work on it. */
  ghost predicate Spared(s: State, c: ConnId) {
    && IsConn(s.sh, c) && !s.sh.conns[c].closed && !Registered(s.sh, c)
    && c !in ToMark(s.closer, s.snap) && !PumpAtWork(s.pump, c)
  }

  lemma PumpSpares(s: State, c: ConnId)
    requires Coherent(s) && s.sh.closed && Spared(s, c) && Enabled(s, PumpGo)
    ensures Spared(PumpNext(s), c)
  {
    PumpGoOk(s);
    if s.pump != Crashed {
      PumpPassesBy(s.sh, s.pump, c);
    }
  }

  lemma CloserSparesToo(s: State, pick: nat, c: ConnId)
    requires Coherent(s) && Spared(s, c) && CloserEnabled(s, pick)
    ensures Spared(CloserNext(s, pick), c)
  {
    CloserEmptied(s, pick);
    CloserSpares(s.sh, s.closer, s.snap, PeerReason(s), pick, c);
  }

  lemma StepSpared(s: State, l: Label, c: ConnId)
    requires ShutdownOk(s) && s.sh.closed && Spared(s, c) && Enabled(s, l) && SystemStep(l)
    ensures Spared(Next(s, l), c)
  {
    if l.PumpGo? {
      PumpSpares(s, c);
    } else if l.CloserGo? {
      CloserSparesToo(s, l.pick, c);
    }
  }

  /** The pump and the closer take _finish_close to its end, and c is still open. */
  lemma {:induction false} EndsWithout(s: State, c: ConnId) returns (ls: seq<Label>)
    requires ShutdownOk(s) && s.sh.closed && Spared(s, c)
    ensures IsRun(s, ls) && After(s, ls).closer == Finished && Spared(After(s, ls), c)
    decreases Rank(s)
  {
    if s.closer == Finished {
      ls := [];
    } else {
      var l := SystemCanMove(s);
      StepShutdown(s, l);
      RankFalls(s, l);
      StepSpared(s, l, c);
      var rest := EndsWithout(Next(s, l), c);
      ls := [l] + rest;
      assert ls[1..] == rest;
    }
  }

  /** The put in flight goes through, if need be after a recv has made room, and the pump is done with c. */
  lemma PutPasses(s: State, c: ConnId) returns (ls: seq<Label>)
    requires ShutdownOk(s) && Delivers(s.sh, s.pump) && s.sh.closed && IsConn(s.sh, c)
    requires !s.sh.conns[c].closed && !Registered(s.sh, c) && c !in ToMark(s.closer, s.snap)
    requires PutPending(s.pump, c) && Admits(s.sh.maxQueue)
    ensures IsRun(s, ls) && ShutdownOk(After(s, ls)) && After(s, ls).sh.closed && Spared(After(s, ls), c)
  {
    assert BoxOk(s.sh, s.pump, c);
    if s.sh.conns[c].box.Full() {
      var s1 := Next(s, Recv(c));
      StepShutdown(s, Recv(c));
      PutOnce(s1, c);
      ls := [Recv(c), PumpGo];
      assert ls[1..] == [PumpGo];
    } else {
      PutOnce(s, c);
      ls := [PumpGo];
    }
  }

  lemma PutOnce(s: State, c: ConnId)
    requires ShutdownOk(s) && s.sh.closed && IsConn(s.sh, c)
    requires !s.sh.conns[c].closed && !Registered(s.sh, c) && c !in ToMark(s.closer, s.snap)
    requires PutPending(s.pump, c) && !s.sh.conns[c].box.Full()
    ensures var s' := After(s, [PumpGo]);
            IsRun(s, [PumpGo]) && ShutdownOk(s') && s'.sh.closed && Spared(s', c)
  {
    assert [PumpGo][1..] == [];
    assert After(s, [PumpGo]) == PumpNext(s);
    StepShutdown(s, PumpGo);
  }

  // ---- Exactly when ----

  /** The step that closes the peer takes the table as its snapshot and changes no object. */
  lemma ClosingTakes(s: State, l: Label)
    requires ShutdownOk(s) && Enabled(s, l) && !s.sh.closed && Next(s, l).sh.closed
    ensures var s1 := Next(s, l);
            && s1.sh == BeginClose(s.sh) && s1.snap.conns == s.sh.connections.Values
            && ToMark(s1.closer, s1.snap) == s1.snap.conns
            && (s1.pump == s.pump || (s.pump == Crashed && s1.pump == Finishing))
  {
    WhoCloses(s, l);
  }

  /** At the step that closes the peer, for any connection there is: every continuation in which _finish_close
      is done has closed it, if and only if it was closed already, or was registered, or the pump was bound to
      close it. In particular no application thread's own close can be counted on. */
  lemma PeerClosesIff(s: State, l: Label, c: ConnId)
    requires ShutdownOk(s) && Delivers(s.sh, s.pump) && IsConn(s.sh, c)
    requires Enabled(s, l) && !s.sh.closed && Next(s, l).sh.closed
    ensures AlwaysCloses(Next(s, l), c) <==>
            s.sh.conns[c].closed || Registered(s.sh, c) || PumpCloses(s.pump, s.sh.maxQueue, c)
  {
    var s1 := Next(s, l);
    StepShutdown(s, l);
    StepDelivers(s, l);
    ClosingTakes(s, l);
    InTableIff(s.sh, c);
    if c in s1.snap.conns || IsClosed(s1.sh, c) || PumpCloses(s1.pump, s1.sh.maxQueue, c) {
      SureToClose(s1, c);
    } else {
      var ls := StaysOpen(s1, c);
    }
  }

  lemma InTableIff(sh: Shared, c: ConnId)
    requires TableOk(sh) && IsConn(sh, c)
    ensures c in sh.connections.Values <==> Registered(sh, c)
  {
    if Registered(sh, c) {
      assert sh.connections[sh.conns[c].guid] == c;
    } else {
      NotInTable(sh, c);
    }
  }

  lemma SureToClose(s: State, c: ConnId)
    requires ShutdownOk(s) && Delivers(s.sh, s.pump) && s.sh.closed && IsConn(s.sh, c)
    requires c in s.snap.conns || IsClosed(s.sh, c) || PumpCloses(s.pump, s.sh.maxQueue, c)
    ensures AlwaysCloses(s, c)
  {
    forall ls | IsRun(s, ls) && After(s, ls).closer == Finished ensures IsClosed(After(s, ls).sh, c) {
      if c in s.snap.conns {
        SnapshotCloses(s, ls, c);
      } else {
        DoomedCloses(s, ls, c);
      }
    }
  }

  lemma DoomedCloses(s: State, ls: seq<Label>, c: ConnId)
    requires Doomed(s, c) && IsRun(s, ls) && After(s, ls).closer == Finished
    ensures IsClosed(After(s, ls).sh, c)
  {
    AlwaysDoomed(s, ls, c);
  }

  lemma StaysOpen(s: State, c: ConnId) returns (ls: seq<Label>)
    requires ShutdownOk(s) && Delivers(s.sh, s.pump) && s.sh.closed && IsConn(s.sh, c)
    requires !s.sh.conns[c].closed && !Registered(s.sh, c) && c !in ToMark(s.closer, s.snap)
    requires !PumpCloses(s.pump, s.sh.maxQueue, c)
    ensures IsRun(s, ls) && After(s, ls).closer == Finished && !IsClosed(After(s, ls).sh, c)
  {
    if PutPending(s.pump, c) {
      var a := PutPasses(s, c);
      var b := EndsWithout(After(s, a), c);
      RunConcat(s, a, b);
      ls := a + b;
    } else {
      assert s.pump.Sealing? ==> s.pump.c != c;
      ls := EndsWithout(s, c);
    }
  }
}
