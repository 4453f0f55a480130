/** Exactly when a message still gets into a mailbox that has been closed. */
module LateMessages {
  import opened RakTypes
  import opened PeerState
  import opened Protocol
  import opened Coherence
  import opened Delivery

  /** The queue limit lets a message in at all. */
  predicate Admits(maxQueue: Option<int>) {
    maxQueue.Some? ==> maxQueue.value > 0
  }

  predicate Sealed(sh: Shared, c: ConnId) {
    IsConn(sh, c) && sh.conns[c].box.exc.Some?
  }

  /** The pump has looked the connection up and is about to put. */
  predicate PutPending(p: Pump, c: ConnId) {
    p.Offering? && p.c == c
  }

  predicate SameLate(a: Shared, b: Shared, c: ConnId) {
    IsConn(a, c) && IsConn(b, c) && b.conns[c].late == a.conns[c].late
  }

  /** No continuation accepts a message more. */
  ghost predicate NothingLands(s: State, c: ConnId) {
    forall ls :: IsRun(s, ls) ==> SameLate(s.sh, After(s, ls).sh, c)
  }

  /** Once c is sealed and no put on it can succeed, none ever will. */
  ghost predicate Shut(s: State, c: ConnId) {
    && Coherent(s) && Delivers(s.sh, s.pump) && Sealed(s.sh, c)
    && (PutPending(s.pump, c) ==> !Admits(s.sh.maxQueue))
  }

  lemma PumpLands(sh: Shared, p: Pump, c: ConnId)
    requires TableOk(sh) && PumpOk(sh, p) && Sealed(sh, c) && BoxOk(sh, p, c)
    requires PutPending(p, c) ==> !Admits(sh.maxQueue)
    ensures var (sh', p') := PumpStep(sh, p); SameLate(sh, sh', c) && !PutPending(p', c)
  {
    if p.Routing? {
      assert !Registered(sh, c);
      EnterLands(sh, p.event, c);
    }
  }

  lemma EnterLands(sh: Shared, e: Event, c: ConnId)
    requires TableOk(sh) && IsConn(sh, c) && !Registered(sh, c)
    ensures var (sh', p') := Enter(sh, e); SameLate(sh, sh', c) && !PutPending(p', c)
  {
  }

  lemma AppLands(sh: Shared, t: nat, a: App, ok: bool, c: ConnId)
    requires TableIds(sh) && AppIds(sh, a) && (a.Accepting? && ok ==> sh.acceptQueue != []) && IsConn(sh, c)
    ensures SameLate(sh, AppStep(sh, t, a, ok).0, c)
  {
  }

  lemma CloserLands(s: State, pick: nat, c: ConnId)
    requires WellFormed(s) && CloserEnabled(s, pick) && IsConn(s.sh, c)
    ensures SameLate(s.sh, CloserNext(s, pick).sh, c)
    ensures CloserNext(s, pick).pump.Offering? ==> CloserNext(s, pick).pump == s.pump
  {
  }

  lemma StepLands(s: State, l: Label, c: ConnId)
    requires Shut(s, c) && Enabled(s, l)
    ensures SameLate(s.sh, Next(s, l).sh, c) && (PutPending(Next(s, l).pump, c) ==> PutPending(s.pump, c))
  {
    if l.PumpGo? && s.pump != Crashed {
      assert BoxOk(s.sh, s.pump, c);
      PumpLands(s.sh, s.pump, c);
    } else if l.CloserGo? {
      CloserLands(s, l.pick, c);
    } else if l.AppGo? && s.threads[l.t] != ClosingPeer {
      AppLands(s.sh, l.t, s.threads[l.t], l.ok, c);
    }
  }

  lemma StepShut(s: State, l: Label, c: ConnId)
    requires Shut(s, c) && Enabled(s, l)
    ensures Shut(Next(s, l), c) && SameLate(s.sh, Next(s, l).sh, c)
  {
    StepCoherent(s, l);
    StepDelivers(s, l);
    StepLands(s, l, c);
    assert ConnEvolves(s.sh.conns[c], Next(s, l).sh.conns[c]);
  }

  lemma {:induction false} AlwaysShut(s: State, ls: seq<Label>, c: ConnId)
    requires Shut(s, c) && IsRun(s, ls)
    ensures SameLate(s.sh, After(s, ls).sh, c)
    decreases |ls|
  {
    if ls != [] {
      StepShut(s, ls[0], c);
      AlwaysShut(Next(s, ls[0]), ls[1..], c);
    }
  }

  /** The put in flight goes through, if need be after a recv has made room. */
  lemma PutLands(s: State, c: ConnId) returns (ls: seq<Label>)
    requires Coherent(s) && Delivers(s.sh, s.pump) && Sealed(s.sh, c)
    requires PutPending(s.pump, c) && Admits(s.sh.maxQueue)
    ensures IsRun(s, ls) && IsConn(After(s, ls).sh, c) && After(s, ls).sh.conns[c].late == s.sh.conns[c].late + 1
  {
    assert BoxOk(s.sh, s.pump, c);
    if s.sh.conns[c].box.Full() {
      RecvMakesRoom(s, c);
      OnePump(Next(s, Recv(c)), c);
      ls := [Recv(c), PumpGo];
      assert ls[1..] == [PumpGo];
    } else {
      OnePump(s, c);
      ls := [PumpGo];
    }
  }

  lemma RecvMakesRoom(s: State, c: ConnId)
    requires Coherent(s) && IsConn(s.sh, c) && BoxOk(s.sh, s.pump, c) && Admits(s.sh.maxQueue)
    requires s.sh.conns[c].box.Full() && Sealed(s.sh, c)
    ensures Enabled(s, Recv(c))
    ensures var s1 := Next(s, Recv(c));
            && Coherent(s1) && s1.pump == s.pump && Sealed(s1.sh, c) && !s1.sh.conns[c].box.Full()
            && s1.sh.conns[c].late == s.sh.conns[c].late
  {
    RecvOk(s, c);
  }

  lemma OnePump(s: State, c: ConnId)
    requires Coherent(s) && PutPending(s.pump, c) && Sealed(s.sh, c) && !s.sh.conns[c].box.Full()
    ensures IsRun(s, [PumpGo]) && IsConn(After(s, [PumpGo]).sh, c)
    ensures After(s, [PumpGo]).sh.conns[c].late == s.sh.conns[c].late + 1
  {
    assert [PumpGo][1..] == [];
    assert After(s, [PumpGo]) == PumpNext(s);
  }

  /** After a connection's mailbox has been closed: no continuation accepts a message more, if and only if
      the pump is not between looking this connection up and its put, or the limit admits no message. */
  lemma LandsIff(s: State, c: ConnId)
    requires Coherent(s) && Delivers(s.sh, s.pump) && Sealed(s.sh, c)
    ensures NothingLands(s, c) <==> !(PutPending(s.pump, c) && Admits(s.sh.maxQueue))
  {
    if PutPending(s.pump, c) && Admits(s.sh.maxQueue) {
      var ls := PutLands(s, c);
    } else {
      forall ls | IsRun(s, ls) ensures SameLate(s.sh, After(s, ls).sh, c) {
        AlwaysShut(s, ls, c);
      }
    }
  }
}
