/** Which connections outlive Peer.close: those the route call in flight registers after the snapshot, and
    those that had left the table while nobody was about to close them. */
module Survivors {
  import opened RakTypes
  import opened PeerState
  import opened Protocol
  import opened Coherence
  import opened Shutdown
  import opened AcceptQueue
  import opened Delivery

  // ---- Registered late ----

  /** The pump may still register a connection after _begin_close. */
  predicate MayRegister(p: Pump) {
    p.AtReceive? || p.Establishing? || (p.Routing? && p.event.IncomingConnection?)
  }

  /** No continuation ends _finish_close with an entry in the connection table. */
  ghost predicate NoLateEntry(s: State) {
    forall ls :: IsRun(s, ls) && After(s, ls).closer == Finished ==> After(s, ls).sh.connections == map[]
  }

  ghost predicate Emptied(s: State) {
    ShutdownOk(s) && s.sh.closed && s.sh.connections == map[] && !MayRegister(s.pump)
  }

  lemma PumpEmptied(sh: Shared, p: Pump)
    requires TableIds(sh) && PumpIds(sh, p) && sh.closed && sh.pendingConnects == map[]
    requires sh.connections == map[] && !MayRegister(p)
    ensures var (sh', p') := PumpStep(sh, p); sh'.connections == map[] && !MayRegister(p')
  {
  }

  lemma CloserEmptied(s: State, pick: nat)
    requires WellFormed(s) && CloserEnabled(s, pick)
    ensures CloserNext(s, pick).sh.connections == s.sh.connections && CloserNext(s, pick).sh.closed == s.sh.closed
    ensures CloserNext(s, pick).pump == (if s.pump == Finishing && s.closer == Posting then Stopped else s.pump)
  {
    CloserLeavesTable(s.sh, s.closer, s.snap, PeerReason(s), pick);
  }

  lemma CloserLeavesTable(sh: Shared, k: Closer, snap: Snapshot, why: CloseReason, pick: nat)
    requires CloserIds(sh, k)
    requires k.MarkConns? && k.conns != {} ==> pick in k.conns
    requires k.ExplainPends? && k.pends != {} ==> pick in k.pends
    requires k.RingPings? && k.pings != {} ==> pick in k.pings
    requires !k.Finished?
    ensures var (sh', k') := CloserStep(sh, k, snap, why, pick);
            sh'.connections == sh.connections && sh'.closed == sh.closed && (k'.Finished? <==> k.Posting?)
  {
  }

  lemma StepEmptied(s: State, l: Label)
    requires Emptied(s) && Enabled(s, l)
    ensures Emptied(Next(s, l))
  {
    StepShutdown(s, l);
    RankFalls(s, l);
    StaysEmpty(s, l);
  }

  lemma StaysEmpty(s: State, l: Label)
    requires WellFormed(s) && TailOk(s) && s.sh.closed && Enabled(s, l)
    requires s.sh.connections == map[] && !MayRegister(s.pump)
    ensures Next(s, l).sh.connections == map[] && !MayRegister(Next(s, l).pump)
  {
    if l.PumpGo? && s.pump != Crashed {
      PumpEmptied(s.sh, s.pump);
    } else if l.CloserGo? {
      CloserEmptied(s, l.pick);
    } else if l.AppGo? && s.threads[l.t] != ClosingPeer {
      AppTail(s.sh, l.t, s.threads[l.t], l.ok);
      assert Next(s, l).sh.connections.Keys <= s.sh.connections.Keys;
    }
  }

  lemma {:induction false} AlwaysEmptied(s: State, ls: seq<Label>)
    requires Emptied(s) && IsRun(s, ls)
    ensures Emptied(After(s, ls))
    decreases |ls|
  {
    if ls != [] {
      StepEmptied(s, ls[0]);
      AlwaysEmptied(Next(s, ls[0]), ls[1..]);
    }
  }

  // ---- Runs that finish ----

  /** s and t differ only in what the pump and the closer do to objects. */
  ghost predicate Finishes(s: State, ls: seq<Label>) {
    && IsRun(s, ls) && After(s, ls).closer == Finished
    && (forall i :: 0 <= i < |ls| ==> SystemStep(ls[i]))
    && After(s, ls).sh.connections == s.sh.connections
  }

  lemma Ahead(s: State, l: Label, rest: seq<Label>) returns (ls: seq<Label>)
    requires Enabled(s, l) && IsRun(Next(s, l), rest)
    requires SystemStep(l) && (forall i :: 0 <= i < |rest| ==> SystemStep(rest[i]))
    ensures ls == [l] + rest && IsRun(s, ls) && After(s, ls) == After(Next(s, l), rest)
    ensures forall i :: 0 <= i < |ls| ==> SystemStep(ls[i])
  {
    ls := [l] + rest;
    assert ls[1..] == rest;
  }

  /** With the pump out of route, pump and closer can take _finish_close to its end, and leave the table
      as it is. */
  lemma {:induction false} CanFinish(s: State) returns (ls: seq<Label>)
    requires ShutdownOk(s) && s.sh.closed && !MayRegister(s.pump) && QuietTail(s.pump)
    ensures Finishes(s, ls)
    decreases Rank(s)
  {
    if s.closer == Finished {
      ls := [];
    } else {
      var l := SystemCanMove(s);
      StepShutdown(s, l);
      RankFalls(s, l);
      TailStep(s, l);
      var rest := CanFinish(Next(s, l));
      ls := Ahead(s, l, rest);
    }
  }

  /** What a late registration, or none, leaves the pump to do. */
  predicate QuietTail(p: Pump) {
    p.AtCheck? || p.Enqueueing? || p.Attaching? || p.Signalling? || p.Crashed? || p.Finishing? || p.Stopped?
  }

  lemma TailStep(s: State, l: Label)
    requires ShutdownOk(s) && s.sh.closed && QuietTail(s.pump) && Enabled(s, l) && SystemStep(l)
    ensures Next(s, l).sh.connections == s.sh.connections && QuietTail(Next(s, l).pump)
  {
    if l.CloserGo? {
      CloserEmptied(s, l.pick);
    }
  }

  /** The pump registers a connection that was not in the snapshot. */
  lemma RegistersLate(s: State) returns (ls: seq<Label>)
    requires ShutdownOk(s) && s.sh.closed && MayRegister(s.pump)
    ensures IsRun(s, ls) && ShutdownOk(After(s, ls)) && After(s, ls).sh.closed
    ensures After(s, ls).sh.connections != map[] && QuietTail(After(s, ls).pump)
  {
    if s.pump.AtReceive? {
      var l := PumpReceive(Packet(Some(IncomingConnection(0, 0))));
      StepShutdown(s, l);
      RegisterNow(Next(s, l));
      var rest := [PumpGo];
      assert [PumpGo][1..] == [];
      ls := Ahead(s, l, rest);
    } else {
      RegisterNow(s);
      ls := [PumpGo];
      assert [PumpGo][1..] == [];
    }
  }

  lemma RegisterNow(s: State)
    requires ShutdownOk(s) && s.sh.closed && MayRegister(s.pump) && !s.pump.AtReceive?
    ensures Enabled(s, PumpGo)
    ensures var s' := PumpNext(s);
            ShutdownOk(s') && s'.sh.closed && s'.sh.connections != map[] && QuietTail(s'.pump)
  {
    StepShutdown(s, PumpGo);
    var g := if s.pump.Establishing? then s.pump.g else s.pump.event.guid;
    assert g in PumpNext(s).sh.connections;
  }

  /** At the step that closes the peer: no continuation is left with a registered connection when
      _finish_close is done, if and only if the pump is not at receive, nor about to register a connection. */
  lemma ClosingIsCleanIff(s: State, l: Label)
    requires ShutdownOk(s) && Enabled(s, l) && !s.sh.closed && Next(s, l).sh.closed
    ensures NoLateEntry(Next(s, l)) <==> !MayRegister(s.pump)
  {
    var s1 := Next(s, l);
    StepShutdown(s, l);
    WinnerMoves(s, l);
    if MayRegister(s.pump) {
      var a := RegistersLate(s1);
      var b := CanFinish(After(s1, a));
      RunConcat(s1, a, b);
      assert IsRun(s1, a + b);
    } else {
      forall ls | IsRun(s1, ls) && After(s1, ls).closer == Finished ensures After(s1, ls).sh.connections == map[] {
        AlwaysEmptied(s1, ls);
      }
    }
  }

  lemma WinnerMoves(s: State, l: Label)
    requires Enabled(s, l) && !s.sh.closed && Next(s, l).sh.closed
    ensures var s1 := Next(s, l);
            s1.sh.connections == map[] && (s1.pump == s.pump || (s.pump == Crashed && s1.pump == Finishing))
  {
    WhoCloses(s, l);
  }

  /** Only a winner of _begin_close closes the peer. */
  lemma WhoCloses(s: State, l: Label)
    requires Enabled(s, l) && !s.sh.closed && Next(s, l).sh.closed
    ensures (l.PumpGo? && s.pump == Crashed) || (l.AppGo? && s.threads[l.t] == ClosingPeer)
  {
    if l.PumpGo? && s.pump != Crashed {
      PumpStepKind(s.sh, s.pump);
    } else if l.CloserGo? {
      CloserEmptied(s, l.pick);
    } else if l.AppGo? && s.threads[l.t] != ClosingPeer {
      AppKeepsFlag(s.sh, l.t, s.threads[l.t], l.ok);
    }
  }

  // ---- Open but not registered ----

  /** c has left the table and the thread that took it out is about to flag it. */
  predicate Held(s: State, c: ConnId) {
    (s.pump.Marking? && s.pump.c == c) || exists t :: 0 <= t < |s.threads| && Flags(s.threads[t], c)
  }

  predicate Flags(a: App, c: ConnId) {
    a.Flagging? && a.c == c
  }

  predicate Going(s: State, c: ConnId) {
    IsClosed(s.sh, c) || Held(s, c)
  }

  function ToMark(k: Closer, snap: Snapshot): set<ConnId> {
    match k
    case Joining => snap.conns
    case ShuttingDown => snap.conns
    case MarkConns(cs) => cs
    case SealConn(_, cs) => cs
    case _ => {}
  }

  /** Why c need not be asked for: it is or is being closed, it is in the table, or the closer will come to it. */
  predicate Settled(s: State, c: ConnId) {
    Going(s, c) || (IsConn(s.sh, c) && Registered(s.sh, c)) || c in ToMark(s.closer, s.snap)
  }

  /** The pump's next step registers a connection for g. */
  predicate Registers(p: Pump, g: Guid) {
    (p.Establishing? && p.g == g) || (p.Routing? && p.event.IncomingConnection? && p.event.guid == g)
  }

  /** The step puts a new connection of its guid in the place of c. */
  predicate DisplacedBy(s: State, l: Label, c: ConnId) {
    IsConn(s.sh, c) && Registered(s.sh, c) && l.PumpGo? && Registers(s.pump, s.sh.conns[c].guid)
  }

  /** The step is the pop of c's guid by a Connection.close on another connection of that guid. */
  predicate PoppedBy(s: State, l: Label, c: ConnId) {
    && IsConn(s.sh, c) && Registered(s.sh, c)
    && l.AppGo? && l.t < |s.threads| && s.threads[l.t].Dropping?
    && var d := s.threads[l.t].c; d != c && IsConn(s.sh, d) && s.sh.conns[d].guid == s.sh.conns[c].guid
  }

  /** Some step of the run took c out of the table in one of these two ways. */
  ghost predicate LeftDuring(s: State, ls: seq<Label>, c: ConnId)
    requires IsRun(s, ls)
    decreases |ls|
  {
    ls != [] && (DisplacedBy(s, ls[0], c) || PoppedBy(s, ls[0], c) || LeftDuring(Next(s, ls[0]), ls[1..], c))
  }

  /** No other connection of its guid is registered while the pump is at a message for one. */
  predicate PumpOwns(sh: Shared, p: Pump) {
    (p.Offering? || p.Overflowing?) && IsConn(sh, p.c) && sh.conns[p.c].guid in sh.connections ==>
      sh.connections[sh.conns[p.c].guid] == p.c
  }

  lemma PumpKeepsOwn(sh: Shared, p: Pump)
    requires TableOk(sh) && PumpIds(sh, p) && PumpOwns(sh, p)
    ensures var (sh', p') := PumpStep(sh, p); PumpOwns(sh', p')
  {
  }

  lemma AppKeepsOwn(sh: Shared, p: Pump, t: nat, a: App, ok: bool)
    requires TableOk(sh) && AppIds(sh, a) && (a.Accepting? && ok ==> sh.acceptQueue != [])
    requires PumpIds(sh, p) && PumpOwns(sh, p)
    ensures PumpOwns(AppStep(sh, t, a, ok).0, p)
  {
    AppStepTable(sh, t, a, ok);
  }

  lemma AppStepTable(sh: Shared, t: nat, a: App, ok: bool)
    requires TableIds(sh) && AppIds(sh, a) && (a.Accepting? && ok ==> sh.acceptQueue != [])
    ensures var sh' := AppStep(sh, t, a, ok).0;
            && (forall g :: g in sh'.connections ==> g in sh.connections && sh'.connections[g] == sh.connections[g])
            && |sh'.conns| == |sh.conns|
            && (forall c :: 0 <= c < |sh.conns| ==> sh'.conns[c].guid == sh.conns[c].guid)
  {
  }

  lemma StepOwns(s: State, l: Label)
    requires Coherent(s) && Enabled(s, l) && PumpOwns(s.sh, s.pump)
    ensures PumpOwns(Next(s, l).sh, Next(s, l).pump)
  {
    if l.PumpGo? && s.pump != Crashed {
      PumpKeepsOwn(s.sh, s.pump);
    } else if l.AppGo? && s.threads[l.t] != ClosingPeer {
      AppKeepsOwn(s.sh, s.pump, l.t, s.threads[l.t], l.ok);
    } else if l.CloserGo? {
      CloserKeepsOwn(s, l.pick);
    }
  }

  lemma CloserKeepsOwn(s: State, pick: nat)
    requires Coherent(s) && CloserEnabled(s, pick) && PumpOwns(s.sh, s.pump)
    ensures PumpOwns(CloserNext(s, pick).sh, CloserNext(s, pick).pump)
  {
    CloserGoOk(s, pick);
    CloserEmptied(s, pick);
    if s.pump.Offering? || s.pump.Overflowing? {
      assert ConnEvolves(s.sh.conns[s.pump.c], CloserNext(s, pick).sh.conns[s.pump.c]);
    }
  }

  lemma StepGoing(s: State, l: Label, c: ConnId)
    requires Coherent(s) && Enabled(s, l) && Going(s, c) && IsConn(s.sh, c)
    ensures Going(Next(s, l), c)
  {
    var s' := Next(s, l);
    StepCoherent(s, l);
    assert ConnEvolves(s.sh.conns[c], s'.sh.conns[c]);
    if !s.sh.conns[c].closed && !(s.pump.Marking? && s.pump.c == c) {
      var t :| 0 <= t < |s.threads| && Flags(s.threads[t], c);
      if !(l.AppGo? && l.t == t) {
        OthersStill(s, l, t);
        assert Flags(s'.threads[t], c);
      }
    } else if !s.sh.conns[c].closed {
      MarkerStill(s, l);
    }
  }

  lemma OthersStill(s: State, l: Label, t: nat)
    requires Enabled(s, l) && t < |s.threads| && s.threads[t].Flagging? && !(l.AppGo? && l.t == t)
    ensures t < |Next(s, l).threads| && Next(s, l).threads[t] == s.threads[t]
  {
  }

  lemma MarkerStill(s: State, l: Label)
    requires Enabled(s, l) && s.pump.Marking?
    ensures l.PumpGo? || Next(s, l).pump == s.pump
  {
  }

  lemma StillToMark(s: State, l: Label, c: ConnId)
    requires Enabled(s, l) && IsConn(s.sh, c) && c in ToMark(s.closer, s.snap) && (s.closer.NoCloser? <==> !s.sh.closed)
    ensures IsClosed(Next(s, l).sh, c) || c in ToMark(Next(s, l).closer, Next(s, l).snap)
  {
  }

  lemma PumpUnregisters(s: State, c: ConnId)
    requires Coherent(s) && PumpOwns(s.sh, s.pump) && Enabled(s, PumpGo) && s.pump != Crashed
    requires IsConn(s.sh, c) && Registered(s.sh, c)
    ensures Settled(PumpNext(s), c) || DisplacedBy(s, PumpGo, c)
  {
    var s' := PumpNext(s);
    PumpGoOk(s);
    assert ConnEvolves(s.sh.conns[c], s'.sh.conns[c]);
    if s.pump.Overflowing? {
      assert s.sh.conns[s.pump.c].guid == s.sh.conns[c].guid ==> s.pump.c == c && Held(s', c);
    } else if s.pump.Routing? && s.pump.event.Disconnected? {
      assert s.pump.event.guid == s.sh.conns[c].guid ==> Held(s', c);
    } else if !Registers(s.pump, s.sh.conns[c].guid) {
      PumpKeepsEntry(s.sh, s.pump, s.sh.conns[c].guid);
    }
  }

  lemma PumpKeepsEntry(sh: Shared, p: Pump, g: Guid)
    requires TableIds(sh) && PumpIds(sh, p) && !p.Overflowing? && !(p.Routing? && p.event.Disconnected?)
    requires g in sh.connections && !Registers(p, g)
    ensures var sh' := PumpStep(sh, p).0; g in sh'.connections && sh'.connections[g] == sh.connections[g]
  {
  }

  lemma AppUnregisters(s: State, t: nat, ok: bool, c: ConnId)
    requires Coherent(s) && Enabled(s, AppGo(t, ok)) && s.threads[t] != ClosingPeer
    requires IsConn(s.sh, c) && Registered(s.sh, c)
    ensures Settled(AppNext(s, t, ok), c) || PoppedBy(s, AppGo(t, ok), c)
  {
    var s' := AppNext(s, t, ok);
    AppGoOk(s, t, ok);
    assert ConnEvolves(s.sh.conns[c], s'.sh.conns[c]);
    if s.threads[t].Dropping? {
      if s.threads[t].c == c {
        assert Flags(s'.threads[t], c);
      }
    } else {
      AppKeepsEntries(s.sh, t, s.threads[t], ok);
    }
  }

  lemma AppKeepsEntries(sh: Shared, t: nat, a: App, ok: bool)
    requires TableIds(sh) && AppIds(sh, a) && (a.Accepting? && ok ==> sh.acceptQueue != []) && !a.Dropping?
    ensures AppStep(sh, t, a, ok).0.connections == sh.connections
  {
  }

  lemma CloserKeepsTable(s: State, pick: nat, c: ConnId)
    requires Coherent(s) && CloserEnabled(s, pick) && IsConn(s.sh, c) && Registered(s.sh, c)
    ensures var sh' := CloserNext(s, pick).sh; IsConn(sh', c) && Registered(sh', c)
  {
    CloserGoOk(s, pick);
    CloserEmptied(s, pick);
    assert ConnEvolves(s.sh.conns[c], CloserNext(s, pick).sh.conns[c]);
  }

  /** What was registered is in the snapshot, or stays registered. */
  lemma WinSettles(s: State, l: Label, c: ConnId)
    requires ControlOk(s) && Enabled(s, l) && IsConn(s.sh, c) && Registered(s.sh, c) && !l.CloserGo?
    requires (l.PumpGo? ==> s.pump == Crashed) && (l.AppGo? ==> s.threads[l.t] == ClosingPeer)
    ensures Settled(Next(s, l), c)
  {
    assert s.sh.connections[s.sh.conns[c].guid] == c;
    assert c in s.sh.connections.Values;
  }

  /** A connection stops being settled in no other way than by being displaced, or popped for another one. */
  lemma StepSettled(s: State, l: Label, c: ConnId)
    requires ShutdownOk(s) && PumpOwns(s.sh, s.pump) && Enabled(s, l) && IsConn(s.sh, c) && Settled(s, c)
    ensures Settled(Next(s, l), c) || DisplacedBy(s, l, c) || PoppedBy(s, l, c)
  {
    if Going(s, c) {
      StepGoing(s, l, c);
    } else if c in ToMark(s.closer, s.snap) {
      StillToMark(s, l, c);
    } else if l.PumpGo? && s.pump != Crashed {
      PumpUnregisters(s, c);
    } else if l.AppGo? && s.threads[l.t] != ClosingPeer {
      AppUnregisters(s, l.t, l.ok, c);
    } else if l.CloserGo? {
      CloserKeepsTable(s, l.pick, c);
    } else {
      WinSettles(s, l, c);
    }
  }

  lemma NewIsRegistered(s: State, l: Label, c: ConnId)
    requires Coherent(s) && Enabled(s, l) && |s.sh.conns| <= c < |Next(s, l).sh.conns|
    ensures Registered(Next(s, l).sh, c)
  {
    if l.PumpGo? && s.pump != Crashed {
      PumpRegisters(s.sh, s.pump, c);
    } else {
      QuietArrivals(s, l);
    }
  }

  lemma PumpRegisters(sh: Shared, p: Pump, c: ConnId)
    requires TableIds(sh) && PumpIds(sh, p)
    ensures var sh' := PumpStep(sh, p).0; |sh.conns| <= c < |sh'.conns| ==> Registered(sh', c)
  {
  }

  lemma {:induction false} AlwaysSettled(s: State, ls: seq<Label>, c: ConnId)
    requires ShutdownOk(s) && PumpOwns(s.sh, s.pump) && IsRun(s, ls) && IsConn(After(s, ls).sh, c)
    requires IsConn(s.sh, c) ==> Settled(s, c)
    ensures Settled(After(s, ls), c) || LeftDuring(s, ls, c)
    decreases |ls|
  {
    if ls != [] {
      var s1 := Next(s, ls[0]);
      if IsConn(s.sh, c) {
        StepSettled(s, ls[0], c);
      } else if IsConn(s1.sh, c) {
        NewIsRegistered(s, ls[0], c);
      }
      if !DisplacedBy(s, ls[0], c) && !PoppedBy(s, ls[0], c) {
        StepOwns(s, ls[0]);
        StepShutdown(s, ls[0]);
        AlwaysSettled(s1, ls[1..], c);
      }
    }
  }

  /** In every run from the start, when _finish_close is done: a connection that is still open, and that no
      thread is about to flag, was not in the snapshot; and it is in the table, registered after the snapshot,
      or some step of the run took it out of the table by registering another connection of its guid, or by a
      close of another connection of its guid. */
  lemma OpenAfterFinish(s: State, ls: seq<Label>, c: ConnId)
    requires Initial(s) && IsRun(s, ls) && After(s, ls).closer == Finished
    requires IsConn(After(s, ls).sh, c) && !After(s, ls).sh.conns[c].closed
    requires forall t :: 0 <= t < |After(s, ls).threads| ==> !Flags(After(s, ls).threads[t], c)
    ensures c !in After(s, ls).snap.conns
    ensures Registered(After(s, ls).sh, c) || LeftDuring(s, ls, c)
  {
    InitialShutdownOk(s);
    AlwaysShutdownOk(s, ls);
    AlwaysSettled(s, ls, c);
  }

  /** Connection.close pops by guid: its pop takes another connection out of the table if and only if its own
      connection is not registered while one of the same guid is. */
  lemma PopsAnotherIff(s: State, t: nat, ok: bool)
    requires Coherent(s) && Enabled(s, AppGo(t, ok)) && s.threads[t].Dropping?
    ensures var c := s.threads[t].c;
            && IsConn(s.sh, c)
            && ((exists d: ConnId :: PoppedBy(s, AppGo(t, ok), d) && Unregistered(AppNext(s, t, ok).sh, d)) <==>
                  !Registered(s.sh, c) && s.sh.conns[c].guid in s.sh.connections)
  {
    var c := s.threads[t].c;
    var g := s.sh.conns[c].guid;
    if g in s.sh.connections && s.sh.connections[g] != c {
      var d := s.sh.connections[g];
      assert s.sh.conns[d].guid == g;
      assert PoppedBy(s, AppGo(t, ok), d) && Unregistered(AppNext(s, t, ok).sh, d);
    }
  }

  // ---- Left to itself ----

  predicate Closes(a: App, c: ConnId) {
    (a.Testing? || a.Dropping? || a.Flagging? || a.Shutting?) && a.c == c
  }

  predicate PumpAtWork(p: Pump, c: ConnId) {
    (p.Offering? || p.Overflowing? || p.Marking? || p.Sealing?) && p.c == c
  }

  /** c is open, has left the table, and nobody is at work on it. */
  ghost predicate Forsaken(s: State, c: ConnId) {
    && IsConn(s.sh, c) && !s.sh.conns[c].closed && !Registered(s.sh, c)
    && c !in ToMark(s.closer, s.snap) && !PumpAtWork(s.pump, c)
    && (forall t :: 0 <= t < |s.threads| ==> !Closes(s.threads[t], c))
  }

  /** The application itself asks for the close of c, directly or by a connect that has timed out. */
  predicate Asks(s: State, l: Label, c: ConnId) {
    || (l.Begin? && l.call == CallClose(c))
    || (l.AppGo? && l.t < |s.threads| && s.threads[l.t].Reaping? && IsPend(s.sh, s.threads[l.t].p)
        && s.sh.pends[s.threads[l.t].p].connection == Some(c))
  }

  ghost predicate Unasked(s: State, ls: seq<Label>, c: ConnId)
    requires IsRun(s, ls)
    decreases |ls|
  {
    ls == [] || (!Asks(s, ls[0], c) && Unasked(Next(s, ls[0]), ls[1..], c))
  }

  lemma PumpPassesBy(sh: Shared, p: Pump, c: ConnId)
    requires TableOk(sh) && PumpOk(sh, p) && IsConn(sh, c) && !Registered(sh, c) && !PumpAtWork(p, c)
    ensures var (sh', p') := PumpStep(sh, p); IsConn(sh', c) && sh'.conns[c] == sh.conns[c] && !PumpAtWork(p', c)
  {
    if p.Routing? {
      EnterPassesBy(sh, p.event, c);
    }
  }

  lemma EnterPassesBy(sh: Shared, e: Event, c: ConnId)
    requires TableOk(sh) && IsConn(sh, c) && !Registered(sh, c)
    ensures var (sh', p') := Enter(sh, e); IsConn(sh', c) && sh'.conns[c] == sh.conns[c] && !PumpAtWork(p', c)
  {
  }

  lemma AppPassesBy(sh: Shared, t: nat, a: App, ok: bool, c: ConnId)
    requires TableIds(sh) && AppIds(sh, a) && (a.Accepting? && ok ==> sh.acceptQueue != []) && IsConn(sh, c)
    requires !Closes(a, c) && (a.Reaping? ==> sh.pends[a.p].connection != Some(c))
    ensures var (sh', a') := AppStep(sh, t, a, ok); IsConn(sh', c) && sh'.conns[c] == sh.conns[c] && !Closes(a', c)
  {
  }

  lemma CloserPassesBy(s: State, pick: nat, c: ConnId)
    requires ShutdownOk(s) && CloserEnabled(s, pick) && Forsaken(s, c)
    ensures Forsaken(CloserNext(s, pick), c) && CloserNext(s, pick).sh.conns[c] == s.sh.conns[c]
  {
    CloserEmptied(s, pick);
    CloserSpares(s.sh, s.closer, s.snap, PeerReason(s), pick, c);
    CloserKeepsClear(s, pick, c);
  }

  lemma CloserSpares(sh: Shared, k: Closer, snap: Snapshot, why: CloseReason, pick: nat, c: ConnId)
    requires CloserIds(sh, k)
    requires k.MarkConns? && k.conns != {} ==> pick in k.conns
    requires k.ExplainPends? && k.pends != {} ==> pick in k.pends
    requires k.RingPings? && k.pings != {} ==> pick in k.pings
    requires IsConn(sh, c) && c !in ToMark(k, snap) && (k.SealConn? ==> k.c != c)
    ensures var (sh', k') := CloserStep(sh, k, snap, why, pick);
            IsConn(sh', c) && sh'.conns[c] == sh.conns[c] && c !in ToMark(k', snap)
  {
  }

  lemma CloserKeepsClear(s: State, pick: nat, c: ConnId)
    requires WellFormed(s) && CloserEnabled(s, pick) && forall t :: 0 <= t < |s.threads| ==> !Closes(s.threads[t], c)
    ensures var xs := CloserNext(s, pick).threads; forall t :: 0 <= t < |xs| ==> !Closes(xs[t], c)
  {
  }

  /** The snapshot of _begin_close does not hold what is not registered. */
  lemma NotInTable(sh: Shared, c: ConnId)
    requires TableOk(sh) && IsConn(sh, c) && !Registered(sh, c)
    ensures c !in sh.connections.Values
  {
    forall g | g in sh.connections ensures sh.connections[g] != c {
      assert sh.conns[sh.connections[g]].guid == g;
    }
    if c in sh.connections.Values {
      ValueHasKey(sh.connections, c);
      assert false;
    }
  }

  lemma StepForsaken(s: State, l: Label, c: ConnId)
    requires ShutdownOk(s) && Forsaken(s, c) && Enabled(s, l) && !Asks(s, l, c)
    ensures Forsaken(Next(s, l), c) && SameMessages(s.sh.conns[c], Next(s, l).sh.conns[c])
  {
    if l.PumpGo? && s.pump != Crashed {
      PumpGoPassesBy(s, c);
    } else if l.CloserGo? {
      CloserPassesBy(s, l.pick, c);
    } else if l.AppGo? && s.threads[l.t] != ClosingPeer {
      AppGoPassesBy(s, l.t, l.ok, c);
    } else if l.PumpGo? || l.AppGo? {
      NotInTable(s.sh, c);
      WinPassesBy(s, l, c);
    } else {
      LocalPassesBy(s, l, c);
    }
  }

  lemma PumpGoPassesBy(s: State, c: ConnId)
    requires Coherent(s) && Forsaken(s, c) && Enabled(s, PumpGo) && s.pump != Crashed
    ensures Forsaken(PumpNext(s), c) && PumpNext(s).sh.conns[c] == s.sh.conns[c]
  {
    PumpGoOk(s);
    PumpPassesBy(s.sh, s.pump, c);
  }

  lemma AppGoPassesBy(s: State, t: nat, ok: bool, c: ConnId)
    requires Coherent(s) && Forsaken(s, c) && Enabled(s, AppGo(t, ok)) && s.threads[t] != ClosingPeer
    requires !Asks(s, AppGo(t, ok), c)
    ensures Forsaken(AppNext(s, t, ok), c) && AppNext(s, t, ok).sh.conns[c] == s.sh.conns[c]
  {
    AppGoOk(s, t, ok);
    AppPassesBy(s.sh, t, s.threads[t], ok, c);
  }

  lemma WinPassesBy(s: State, l: Label, c: ConnId)
    requires ControlOk(s) && Forsaken(s, c) && Enabled(s, l) && c !in s.sh.connections.Values
    requires (l.PumpGo? && s.pump == Crashed) || (l.AppGo? && s.threads[l.t] == ClosingPeer)
    ensures Forsaken(Next(s, l), c) && Next(s, l).sh.conns == s.sh.conns
  {
  }

  lemma LocalPassesBy(s: State, l: Label, c: ConnId)
    requires Forsaken(s, c) && Enabled(s, l) && !Asks(s, l, c) && (l.PumpReceive? || l.Begin? || l.Recv?)
    ensures Forsaken(Next(s, l), c) && SameMessages(s.sh.conns[c], Next(s, l).sh.conns[c])
  {
    if l.Recv? {
      ReceiveSameMessages(s.sh, l.c, c);
    }
  }

  /** A connection that was displaced, or popped by the close of another one, while nobody was at work on it,
      stays open with its mailbox open and gets no further message, on a live peer and on a closed one,
      until the application itself closes it: a recv beyond its last message never ends. */
  lemma {:induction false} ForsakenStaysOpen(s: State, ls: seq<Label>, c: ConnId)
    requires ShutdownOk(s) && Forsaken(s, c) && IsRun(s, ls) && Unasked(s, ls, c)
    ensures var s' := After(s, ls);
            && IsConn(s'.sh, c) && !s'.sh.conns[c].closed && s'.sh.conns[c].box.exc.None? && !Registered(s'.sh, c)
            && SameMessages(s.sh.conns[c], s'.sh.conns[c])
    decreases |ls|
  {
    if ls != [] {
      StepForsaken(s, ls[0], c);
      StepShutdown(s, ls[0]);
      ForsakenStaysOpen(Next(s, ls[0]), ls[1..], c);
    }
  }

  /** The pump and the closer never ask. */
  lemma {:induction false} SystemUnasked(s: State, ls: seq<Label>, c: ConnId)
    requires IsRun(s, ls) && forall i :: 0 <= i < |ls| ==> SystemStep(ls[i])
    ensures Unasked(s, ls, c)
    decreases |ls|
  {
    if ls != [] {
      assert SystemStep(ls[0]);
      assert forall i :: 0 <= i < |ls[1..]| ==> ls[1..][i] == ls[i + 1];
      SystemUnasked(Next(s, ls[0]), ls[1..], c);
    }
  }
}
