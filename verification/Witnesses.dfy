/** Runs that show why the claims are not stronger. */
module Witnesses {
  import opened RakTypes
  import SyncMailbox
  import opened PeerState
  import opened Protocol
  import opened Coherence
  import opened Shutdown
  import opened Resolution
  import opened Outcomes
  import opened Stranding
  import opened Survivors

  ghost predicate Reaches(s: State, t: State) {
    exists ls :: IsRun(s, ls) && After(s, ls) == t
  }

  lemma Stay(s: State)
    ensures Reaches(s, s)
  {
    assert IsRun(s, []);
  }

  /** One step more. */
  lemma Go(s: State, t: State, l: Label) returns (t': State)
    requires Initial(s) && Reaches(s, t) && (WellFormed(t) ==> Enabled(t, l))
    ensures Enabled(t, l) && t' == Next(t, l) && Reaches(s, t')
  {
    var ls :| IsRun(s, ls) && After(s, ls) == t;
    InitialCoherent(s);
    AlwaysCoherent(s, ls);
    t' := Next(t, l);
    OneStep(t, l);
    RunConcat(s, ls, [l]);
    assert IsRun(s, ls + [l]);
  }

  // ---- A connection that outlives the peer ----

  /** The peer is closed while an incoming connection is being routed. */
  lemma CloseDuringRoute(s: State, a: Address, g: Guid) returns (t: State)
    requires Initial(s) && |s.threads| > 0
    ensures Reaches(s, t)
    ensures t.pump == Routing(IncomingConnection(a, g)) && t.closer == Joining && t.snap == Snapshot({}, {}, {})
    ensures t.sh == BeginClose(s.sh) && !t.byPump
  {
    Stay(s);
    t := Go(s, s, PumpGo);
    t := Go(s, t, PumpReceive(Packet(Some(IncomingConnection(a, g)))));
    t := Go(s, t, Begin(0, CallClosePeer));
    t := Go(s, t, AppGo(0, true));
    NoValues(s.sh.connections);
    NoValues(s.sh.pendingConnects);
    NoValues(s.sh.pendingPings);
  }

  lemma NoValues<T>(m: map<int, T>)
    requires m == map[]
    ensures m.Values == {}
  {
  }

  /** _finish_close with nothing in its snapshot. */
  lemma EmptyFinish(s: State, u: State) returns (t: State)
    requires Initial(s) && Reaches(s, u)
    requires u.pump == Stopped && u.closer == Joining && u.snap == Snapshot({}, {}, {})
    ensures Reaches(s, t) && t.closer == Finished && t.sh == PostToken(u.sh)
  {
    t := EmptySweep(s, u);
    t := Go(s, t, CloserGo(0));
    t := Go(s, t, CloserGo(0));
    t := Go(s, t, CloserGo(0));
  }

  lemma EmptySweep(s: State, u: State) returns (t: State)
    requires Initial(s) && Reaches(s, u)
    requires u.pump == Stopped && u.closer == Joining && u.snap == Snapshot({}, {}, {})
    ensures Reaches(s, t) && t == u.(closer := ExplainPends({}))
  {
    t := Go(s, u, CloserGo(0));
    t := Go(s, t, CloserGo(0));
    t := Go(s, t, CloserGo(0));
  }

  /** Closing the peer does not close every connection: from any initial state there is a run in which a
      connection registered by the route call in flight is still open and registered when _finish_close is
      done. So the one entry that ShutdownBound allows can be there. */
  lemma LateConnectionSurvives(s: State, a: Address, g: Guid) returns (ls: seq<Label>)
    requires Initial(s) && |s.threads| > 0
    ensures IsRun(s, ls) && After(s, ls).closer == Finished
    ensures var sh := After(s, ls).sh; IsConn(sh, 0) && Registered(sh, 0) && !sh.conns[0].closed
  {
    var t := CloseDuringRoute(s, a, g);
    t := Go(s, t, PumpGo);
    t := Go(s, t, PumpGo);
    t := Go(s, t, PumpGo);
    assert t.sh.conns[0].guid == g && t.sh.connections == map[g := 0] && !t.sh.conns[0].closed;
    t := EmptyFinish(s, t);
    ls :| IsRun(s, ls) && After(s, ls) == t;
  }

  /** A connection has just been registered and queued. */
  lemma OneConnection(s: State, a: Address, g: Guid) returns (t: State)
    requires Initial(s)
    ensures Reaches(s, t) && t.pump == AtCheck && t.threads == s.threads && !t.sh.closed && t.closer == NoCloser
    ensures |t.sh.conns| == 1 && t.sh.connections == map[g := 0]
    ensures t.sh.conns[0] == Conn(g, false, SyncMailbox.Box([], None, s.sh.maxQueue), None, 0, [], [], false, 0)
  {
    Stay(s);
    t := Go(s, s, PumpGo);
    t := Go(s, t, PumpReceive(Packet(Some(IncomingConnection(a, g)))));
    t := Go(s, t, PumpGo);
    t := Go(s, t, PumpGo);
  }

  /** A second connection object of the same guid displaces an open one. */
  lemma Displace(s: State, a: Address, g: Guid) returns (t: State)
    requires Initial(s)
    ensures Reaches(s, t) && t.threads == s.threads && t.pump == Enqueueing(1) && !t.sh.closed && t.closer == NoCloser
    ensures |t.sh.conns| == 2 && t.sh.connections == map[g := 1]
    ensures t.sh.conns[0].guid == t.sh.conns[1].guid == g && !t.sh.conns[0].closed && !t.sh.conns[1].closed
  {
    t := OneConnection(s, a, g);
    t := Go(s, t, PumpGo);
    t := Go(s, t, PumpReceive(Packet(Some(IncomingConnection(a, g)))));
    t := Go(s, t, PumpGo);
  }

  /** What is forsaken before Peer.close is still so when _finish_close is done. */
  lemma SurvivesClose(s: State, t: State, c: ConnId) returns (ls: seq<Label>)
    requires Initial(s) && Reaches(s, t) && Forsaken(t, c)
    requires |t.threads| > 0 && t.threads[0] == Idle && t.pump == Enqueueing(1) && !t.sh.closed
    ensures IsRun(s, ls) && After(s, ls).closer == Finished
    ensures var sh := After(s, ls).sh; IsConn(sh, c) && !sh.conns[c].closed && !Registered(sh, c)
  {
    var u := Go(s, t, Begin(0, CallClosePeer));
    var v := Go(s, u, AppGo(0, true));
    ForsakenSoFar(s, t, u, v, c);
    ReachesOk(s, v);
    ls :| IsRun(s, ls) && After(s, ls) == v;
    var more := CanFinish(v);
    SystemUnasked(v, more, c);
    ForsakenStaysOpen(v, more, c);
    RunConcat(s, ls, more);
    ls := ls + more;
  }

  /** A displaced connection outlives the peer as well: from any initial state there is a run that leaves one
      open, and out of the table, when _finish_close is done. */
  lemma DisplacedConnectionSurvives(s: State, a: Address, g: Guid) returns (ls: seq<Label>)
    requires Initial(s) && |s.threads| > 0
    ensures IsRun(s, ls) && After(s, ls).closer == Finished
    ensures var sh := After(s, ls).sh; IsConn(sh, 0) && !sh.conns[0].closed && !Registered(sh, 0)
  {
    var t := Displace(s, a, g);
    assert Forsaken(t, 0);
    ls := SurvivesClose(s, t, 0);
  }

  /** So does the connection that displaced it, if the displaced one is closed first: the close pops the guid,
      whichever object is registered under it. */
  lemma PoppedConnectionSurvives(s: State, a: Address, g: Guid) returns (ls: seq<Label>)
    requires Initial(s) && |s.threads| > 0
    ensures IsRun(s, ls) && After(s, ls).closer == Finished
    ensures var sh := After(s, ls).sh; IsConn(sh, 1) && !sh.conns[1].closed && !Registered(sh, 1)
  {
    var t := Displace(s, a, g);
    t := CloseDisplaced(s, t, g);
    ls := SurvivesClose(s, t, 1);
  }

  lemma CloseDisplaced(s: State, u: State, g: Guid) returns (t: State)
    requires Initial(s) && Reaches(s, u) && u.threads == s.threads && |s.threads| > 0
    requires u.pump == Enqueueing(1) && !u.sh.closed && u.closer == NoCloser
    requires |u.sh.conns| == 2 && u.sh.connections == map[g := 1]
    requires u.sh.conns[0].guid == u.sh.conns[1].guid == g && !u.sh.conns[0].closed && !u.sh.conns[1].closed
    ensures Reaches(s, t) && Forsaken(t, 1)
    ensures |t.threads| > 0 && t.threads[0] == Idle && t.pump == Enqueueing(1) && !t.sh.closed
  {
    t := StartsClosing(s, u, g);
    t := EndsClosing(s, t);
  }

  lemma EndsClosing(s: State, u: State) returns (t: State)
    requires Initial(s) && Reaches(s, u) && |u.threads| > 0 && u.threads[0] == Flagging(0, None)
    requires IsConn(u.sh, 0)
    ensures Reaches(s, t) && t.threads == u.threads[0 := Idle]
    ensures t.pump == u.pump && t.closer == u.closer && t.snap == u.snap
    ensures t.sh == Seal(MarkClosed(u.sh, 0), 0, LocalClose)
  {
    t := Go(s, u, AppGo(0, true));
    t := Go(s, t, AppGo(0, true));
  }

  lemma StartsClosing(s: State, u: State, g: Guid) returns (t: State)
    requires Initial(s) && Reaches(s, u) && u.threads == s.threads && |s.threads| > 0
    requires |u.sh.conns| == 2 && u.sh.connections == map[g := 1]
    requires u.sh.conns[0].guid == u.sh.conns[1].guid == g && !u.sh.conns[0].closed && !u.sh.conns[1].closed
    ensures Reaches(s, t) && t.threads == s.threads[0 := Flagging(0, None)]
    ensures t.pump == u.pump && t.closer == u.closer && t.snap == u.snap && t.sh == Evict(u.sh, g)
  {
    t := Go(s, u, Begin(0, CallClose(0)));
    t := Go(s, t, AppGo(0, true));
    t := Go(s, t, AppGo(0, true));
  }

  lemma ForsakenSoFar(s: State, t: State, u: State, v: State, c: ConnId)
    requires Initial(s) && Reaches(s, t) && Forsaken(t, c)
    requires Enabled(t, Begin(0, CallClosePeer)) && u == Next(t, Begin(0, CallClosePeer))
    requires Enabled(u, AppGo(0, true)) && v == Next(u, AppGo(0, true)) && u.threads[0] == ClosingPeer
    ensures Forsaken(v, c)
  {
    ReachesOk(s, t);
    StepForsaken(t, Begin(0, CallClosePeer), c);
    StepShutdown(t, Begin(0, CallClosePeer));
    StepForsaken(u, AppGo(0, true), c);
  }

  lemma ReachesOk(s: State, t: State)
    requires Initial(s) && Reaches(s, t)
    ensures ShutdownOk(t)
  {
    var ls :| IsRun(s, ls) && After(s, ls) == t;
    InitialShutdownOk(s);
    AlwaysShutdownOk(s, ls);
  }

  // ---- Two connects to one address ----

  /** Without the uniqueness assumption callers do get stranded: from any initial state with two threads
      there is a run in which both connect to the same address and one of them waits for ever. */
  lemma TwoConnectsStrand(s: State, k: Address) returns (ls: seq<Label>)
    requires Initial(s) && |s.threads| > 1
    ensures IsRun(s, ls) && Stranded(After(s, ls), 1)
  {
    var t := TwoStart(s, k);
    ls :| IsRun(s, ls) && After(s, ls) == t;
    InitialOutcomesOk(s);
    AlwaysOutcomesOk(s, ls);
    var more := SecondConnectStrands(t, 1, 0, k);
    RunConcat(s, ls, more);
    ls := ls + more;
  }

  lemma TwoStart(s: State, k: Address) returns (t: State)
    requires Initial(s) && |s.threads| > 1
    ensures Reaches(s, t) && |t.threads| > 1 && t.threads[1] == Starting(k, 1) && t.threads[0] == Starting(k, 0)
    ensures IsPend(t.sh, 1) && t.sh.pends[1].key == k && InTable(t.sh, 1)
  {
    t := TwoBegin(s, k);
    t := Go(s, t, AppGo(0, true));
    t := Go(s, t, AppGo(1, true));
  }

  lemma TwoBegin(s: State, k: Address) returns (t: State)
    requires Initial(s) && |s.threads| > 1
    ensures Reaches(s, t) && t.sh == s.sh && |t.threads| > 1
    ensures t.threads[0] == Connecting(k) && t.threads[1] == Connecting(k)
  {
    Stay(s);
    t := Go(s, s, Begin(0, CallConnect(k)));
    t := Go(s, t, Begin(1, CallConnect(k)));
  }

  // ---- A message behind the close ----

  /** A message has been looked up for connection 0 and not put yet. */
  lemma MessageInFlight(s: State, a: Address, g: Guid, d: Bytes) returns (t: State)
    requires Initial(s)
    ensures Reaches(s, t) && t.pump == Offering(0, d) && t.threads == s.threads && IsConn(t.sh, 0)
    ensures t.sh.conns[0] == Conn(g, false, SyncMailbox.Box([], None, s.sh.maxQueue), None, 0, [d], [], false, 0)
  {
    t := OneConnection(s, a, g);
    t := Go(s, t, PumpGo);
    t := Go(s, t, PumpReceive(Packet(Some(Message(g, d)))));
    t := Go(s, t, PumpGo);
  }

  /** Connection.close up to the flag. */
  lemma CloseStarts(s: State, u: State) returns (t: State)
    requires Initial(s) && Reaches(s, u) && |u.threads| > 0 && u.threads[0] == Idle
    requires IsConn(u.sh, 0) && !u.sh.conns[0].closed
    ensures Reaches(s, t) && t.pump == u.pump && |t.threads| > 0 && t.threads[0] == Flagging(0, None)
    ensures t.sh.conns == u.sh.conns
  {
    t := Go(s, u, Begin(0, CallClose(0)));
    t := Go(s, t, AppGo(0, true));
    t := Go(s, t, AppGo(0, true));
  }

  /** Connection.close from the flag on. */
  lemma CloseEnds(s: State, u: State) returns (t: State)
    requires Initial(s) && Reaches(s, u) && |u.threads| > 0 && u.threads[0] == Flagging(0, None) && IsConn(u.sh, 0)
    ensures Reaches(s, t) && t.pump == u.pump && IsConn(t.sh, 0)
    ensures t.sh.conns[0] == u.sh.conns[0].(closed := true, box := u.sh.conns[0].box.Close(LocalClose))
  {
    t := Go(s, u, AppGo(0, true));
    t := Go(s, t, AppGo(0, true));
  }

  /** A put can land after the close: from any initial state there is a run in which Connection.close
      overtakes a message in flight, so that OneLate's single late message is there. */
  lemma LateMessageLands(s: State, a: Address, g: Guid, d: Bytes) returns (ls: seq<Label>)
    requires Initial(s) && |s.threads| > 0 && (s.sh.maxQueue.Some? ==> s.sh.maxQueue.value > 0)
    ensures IsRun(s, ls)
    ensures var sh := After(s, ls).sh;
            IsConn(sh, 0) && sh.conns[0].late == 1 && sh.conns[0].box.items == [d] && sh.conns[0].box.exc.Some?
  {
    var t := MessageInFlight(s, a, g, d);
    t := CloseStarts(s, t);
    t := CloseEnds(s, t);
    t := Go(s, t, PumpGo);
    ls :| IsRun(s, ls) && After(s, ls) == t;
  }
}
