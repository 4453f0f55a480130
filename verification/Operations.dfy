/** What a call of the API does when nothing else moves meanwhile: the run of its steps from any coherent state,
    and every field it leaves behind. */
module Operations {
  import opened RakTypes
  import opened PeerState
  import opened Protocol
  import opened Coherence

  /** The steps can be taken one after the other from s, and lead to s'. */
  ghost predicate Leads(s: State, ls: seq<Label>, s': State) {
    IsRun(s, ls) && After(s, ls) == s'
  }

  lemma More(s: State, l: Label, ls: seq<Label>, s': State)
    requires Enabled(s, l) && Leads(Next(s, l), ls, s')
    ensures Leads(s, [l] + ls, s')
  {
    assert ([l] + ls)[1..] == ls;
  }

  lemma One(s: State, l: Label)
    requires Enabled(s, l)
    ensures Leads(s, [l], Next(s, l))
  {
    More(s, l, [], Next(s, l));
    assert [l] + [] == [l];
  }

  lemma Two(s: State, l: Label, m: Label)
    requires Coherent(s) && Enabled(s, l) && (Coherent(Next(s, l)) ==> Enabled(Next(s, l), m))
    ensures Coherent(Next(s, l)) && Leads(s, [l, m], Next(Next(s, l), m))
  {
    StepCoherent(s, l);
    One(Next(s, l), m);
    More(s, l, [m], Next(Next(s, l), m));
    assert [l] + [m] == [l, m];
  }

  predicate At(s: State, t: nat, a: App) {
    t < |s.threads| && s.threads[t] == a
  }

  /** s with a new program counter for thread t and a new shared state. */
  function Moved(s: State, t: nat, a: App, sh: Shared): State
    requires t < |s.threads|
  {
    s.(threads := s.threads[t := a], sh := sh)
  }

  // ---- connect ----

  function WithPending(sh: Shared, t: nat, k: Address): Shared {
    sh.(pends := sh.pends + [Pending(k, false, None, None, t, false)],
        pendingConnects := sh.pendingConnects[k := |sh.pends|])
  }

  lemma ConnectRegisters(s: State, t: nat, k: Address)
    requires Coherent(s) && At(s, t, Idle) && !s.sh.closed
    ensures var s2 := Moved(s, t, Starting(k, |s.sh.pends|), WithPending(s.sh, t, k));
            Coherent(s2) && Leads(s, [Begin(t, CallConnect(k)), AppGo(t, true)], s2)
  {
    Two(s, Begin(t, CallConnect(k)), AppGo(t, true));
    StepCoherent(Next(s, Begin(t, CallConnect(k))), AppGo(t, true));
    assert s.threads[t := Connecting(k)][t := Starting(k, |s.sh.pends|)] == s.threads[t := Starting(k, |s.sh.pends|)];
  }

  /** connect on an open peer: a blank pending under the address, over any older one, and the caller waits for
      it. */
  lemma ConnectStarts(s: State, t: nat, k: Address)
    requires Coherent(s) && At(s, t, Idle) && !s.sh.closed
    ensures Leads(s, [Begin(t, CallConnect(k)), AppGo(t, true)] + [AppGo(t, true)],
                  Moved(s, t, Waiting(k, |s.sh.pends|), WithPending(s.sh, t, k)))
  {
    ConnectRegisters(s, t, k);
    var s2 := After(s, [Begin(t, CallConnect(k)), AppGo(t, true)]);
    One(s2, AppGo(t, true));
    RunConcat(s, [Begin(t, CallConnect(k)), AppGo(t, true)], [AppGo(t, true)]);
    assert Next(s2, AppGo(t, true)).threads == s.threads[t := Waiting(k, |s.sh.pends|)];
  }

  /** When RakNet refuses to start the attempt, the call raises and no entry is left under the address. */
  lemma ConnectRefused(s: State, t: nat, k: Address)
    requires Coherent(s) && At(s, t, Idle) && !s.sh.closed
    ensures Leads(s, [Begin(t, CallConnect(k)), AppGo(t, true)] + [AppGo(t, false), AppGo(t, true)],
                  s.(sh := s.sh.(pends := s.sh.pends + [Pending(k, false, None, None, t, false)],
                                 pendingConnects := s.sh.pendingConnects - {k})))
  {
    ConnectRegisters(s, t, k);
    var s2 := After(s, [Begin(t, CallConnect(k)), AppGo(t, true)]);
    ConnectUndone(s2, t, k, |s.sh.pends|);
    RunConcat(s, [Begin(t, CallConnect(k)), AppGo(t, true)], [AppGo(t, false), AppGo(t, true)]);
    assert s2.threads[t := Idle] == s.threads;
    assert s2.sh.pendingConnects - {k} == s.sh.pendingConnects - {k};
  }

  lemma ConnectUndone(s: State, t: nat, k: Address, p: PendId)
    requires Coherent(s) && At(s, t, Starting(k, p))
    ensures Leads(s, [AppGo(t, false), AppGo(t, true)],
                  Moved(s, t, Idle, s.sh.(pendingConnects := s.sh.pendingConnects - {k})))
  {
    Two(s, AppGo(t, false), AppGo(t, true));
    assert s.threads[t := Undoing(k, p)][t := Idle] == s.threads[t := Idle];
  }

  /** A call on a closed peer raises at once, and so does one that finds the peer closed at the second check. */
  lemma ClosedPeerRefuses(s: State, t: nat, k: Address)
    requires Coherent(s) && t < |s.threads| && s.sh.closed
    ensures s.threads[t] == Idle ==>
              && Leads(s, [Begin(t, CallConnect(k))], s) && Leads(s, [Begin(t, CallPing(k))], s)
              && Leads(s, [Begin(t, CallAccept)], s)
              && Leads(s, [Begin(t, CallClosePeer), AppGo(t, true)], s)
    ensures s.threads[t] == Connecting(k) || s.threads[t] == Pinging(k) ==>
              Leads(s, [AppGo(t, true)], s.(threads := s.threads[t := Idle]))
  {
    if s.threads[t] == Idle {
      assert s.threads[t := Idle] == s.threads;
      One(s, Begin(t, CallConnect(k)));
      One(s, Begin(t, CallPing(k)));
      One(s, Begin(t, CallAccept));
      Two(s, Begin(t, CallClosePeer), AppGo(t, true));
      assert s.threads[t := ClosingPeer][t := Idle] == s.threads;
    } else if s.threads[t] == Connecting(k) || s.threads[t] == Pinging(k) {
      One(s, AppGo(t, true));
    }
  }

  /** A connect whose event is set goes on to its outcome and changes nothing. */
  lemma ConnectCollects(s: State, t: nat, k: Address, p: PendId)
    requires Coherent(s) && At(s, t, Waiting(k, p)) && s.sh.pends[p].event
    ensures Leads(s, [AppGo(t, true)], s.(threads := s.threads[t := Collecting(p)]))
  {
    One(s, AppGo(t, true));
  }

  /** A connect that has waited long enough and finds its address in the table takes the entry out and raises
      TimeoutError; if the pump was faster it waits again. */
  lemma ConnectGivesUp(s: State, t: nat, k: Address, p: PendId)
    requires Coherent(s) && At(s, t, Waiting(k, p))
    ensures var calls := [AppGo(t, false), AppGo(t, true)];
            if k in s.sh.pendingConnects then
              Leads(s, calls, Moved(s, t, Idle, s.sh.(pendingConnects := s.sh.pendingConnects - {k},
                                                      pends := s.sh.pends[p := s.sh.pends[p].(timedOut := true)])))
            else Leads(s, calls, s.(threads := s.threads[t := Reaping(p)]))
  {
    Two(s, AppGo(t, false), AppGo(t, true));
    if k !in s.sh.pendingConnects {
      assert s.sh.pendingConnects - {k} == s.sh.pendingConnects;
      assert s.threads[t := Abandoning(k, p)][t := Reaping(p)] == s.threads[t := Reaping(p)];
    } else {
      assert s.threads[t := Abandoning(k, p)][t := Idle] == s.threads[t := Idle];
    }
  }

  /** After its second wait it raises TimeoutError at once if no connection was made, and otherwise closes it. */
  lemma ConnectReaps(s: State, t: nat, p: PendId)
    requires Coherent(s) && At(s, t, Reaping(p)) && s.sh.pends[p].event
    ensures if s.sh.pends[p].connection.Some? then
              Leads(s, [AppGo(t, true)],
                    s.(threads := s.threads[t := Testing(s.sh.pends[p].connection.value, Some(p))]))
            else
              Leads(s, [AppGo(t, true)],
                    Moved(s, t, Idle, s.sh.(pends := s.sh.pends[p := s.sh.pends[p].(timedOut := true)])))
  {
    One(s, AppGo(t, true));
  }

  // ---- Connection.close ----

  function AfterClose(sh: Shared, c: ConnId): Shared
    requires IsConn(sh, c)
  {
    var x := sh.conns[c];
    sh.(connections := sh.connections - {x.guid},
        conns := sh.conns[c := x.(closed := true,
                                  box := if x.box.exc.Some? then x.box else x.box.(exc := Some(LocalClose)))])
  }

  function AfterReap(sh: Shared, reap: Option<PendId>): Shared
    requires reap.Some? ==> IsPend(sh, reap.value)
  {
    if reap.None? then sh
    else sh.(pends := sh.pends[reap.value := sh.pends[reap.value].(timedOut := true)])
  }

  lemma DropAndFlag(s: State, t: nat, c: ConnId, reap: Option<PendId>)
    requires Coherent(s) && At(s, t, Dropping(c, reap))
    ensures var x := s.sh.conns[c];
            var s2 := Moved(s, t, Shutting(c, reap),
                            s.sh.(connections := s.sh.connections - {x.guid},
                                  conns := s.sh.conns[c := x.(closed := true)]));
            Coherent(s2) && Leads(s, [AppGo(t, true), AppGo(t, true)], s2)
  {
    Two(s, AppGo(t, true), AppGo(t, true));
    StepCoherent(Next(s, AppGo(t, true)), AppGo(t, true));
    assert s.threads[t := Flagging(c, reap)][t := Shutting(c, reap)] == s.threads[t := Shutting(c, reap)];
  }

  lemma ShutOne(s: State, t: nat, c: ConnId, reap: Option<PendId>)
    requires Coherent(s) && At(s, t, Shutting(c, reap))
    ensures var x := s.sh.conns[c];
            var box := if x.box.exc.Some? then x.box else x.box.(exc := Some(LocalClose));
            Leads(s, [AppGo(t, true)],
                  Moved(s, t, Idle, AfterReap(s.sh.(conns := s.sh.conns[c := x.(box := box)]), reap)))
  {
    One(s, AppGo(t, true));
  }

  /** A close past its test, on its own or for a timed-out connect: the guid leaves the table, the connection is
      flagged, its mailbox is closed with LocalClose unless it has a reason, and the connect raises. */
  lemma CloseRuns(s: State, t: nat, c: ConnId, reap: Option<PendId>)
    requires Coherent(s) && At(s, t, Dropping(c, reap))
    ensures Leads(s, [AppGo(t, true), AppGo(t, true), AppGo(t, true)],
                  Moved(s, t, Idle, AfterReap(AfterClose(s.sh, c), reap)))
  {
    var go := AppGo(t, true);
    DropAndFlag(s, t, c, reap);
    var s2 := After(s, [go, go]);
    ShutOne(s2, t, c, reap);
    var s3 := After(s2, [go]);
    RunConcat(s, [go, go], [go]);
    assert [go, go] + [go] == [go, go, go];
    assert s3.threads == s.threads[t := Idle];
    assert s3.sh.conns == AfterClose(s.sh, c).conns;
  }

  /** Connection.close tests the flag first: nothing happens on a closed connection. */
  lemma CloseTests(s: State, t: nat, c: ConnId, reap: Option<PendId>)
    requires Coherent(s) && At(s, t, Testing(c, reap))
    ensures if s.sh.conns[c].closed then
              Leads(s, [AppGo(t, true)], Moved(s, t, Idle, AfterReap(s.sh, reap)))
            else Leads(s, [AppGo(t, true)], s.(threads := s.threads[t := Dropping(c, reap)]))
  {
    One(s, AppGo(t, true));
  }

  lemma CloseBegins(s: State, t: nat, c: ConnId)
    requires Coherent(s) && At(s, t, Idle) && IsConn(s.sh, c)
    ensures var s2 := if s.sh.conns[c].closed then s else s.(threads := s.threads[t := Dropping(c, None)]);
            Coherent(s2) && Leads(s, [Begin(t, CallClose(c)), AppGo(t, true)], s2)
  {
    Two(s, Begin(t, CallClose(c)), AppGo(t, true));
    StepCoherent(Next(s, Begin(t, CallClose(c))), AppGo(t, true));
    assert s.threads[t := Testing(c, None)][t := Idle] == s.threads;
    assert s.threads[t := Testing(c, None)][t := Dropping(c, None)] == s.threads[t := Dropping(c, None)];
  }

  /** Connection.close as a whole. */
  lemma CloseConnection(s: State, t: nat, c: ConnId)
    requires Coherent(s) && At(s, t, Idle) && IsConn(s.sh, c)
    ensures var begin := [Begin(t, CallClose(c)), AppGo(t, true)];
            if s.sh.conns[c].closed then Leads(s, begin, s)
            else Leads(s, begin + [AppGo(t, true), AppGo(t, true), AppGo(t, true)], s.(sh := AfterClose(s.sh, c)))
  {
    CloseBegins(s, t, c);
    if !s.sh.conns[c].closed {
      var begin := [Begin(t, CallClose(c)), AppGo(t, true)];
      CloseRuns(After(s, begin), t, c, None);
      RunConcat(s, begin, [AppGo(t, true), AppGo(t, true), AppGo(t, true)]);
      assert s.threads[t := Dropping(c, None)][t := Idle] == s.threads;
    }
  }

  // ---- ping ----

  /** ping on an open peer, as connect; after a failed start or a timeout no entry is left under the address. */
  lemma PingStarts(s: State, t: nat, k: Address)
    requires Coherent(s) && At(s, t, Idle) && !s.sh.closed
    ensures var q := |s.sh.pings|;
            Leads(s, [Begin(t, CallPing(k)), AppGo(t, true)],
                  Moved(s, t, PingStarting(k, q), s.sh.(pings := s.sh.pings + [PendingPing(k, false, None)],
                                                        pendingPings := s.sh.pendingPings[k := q])))
  {
    Two(s, Begin(t, CallPing(k)), AppGo(t, true));
    assert s.threads[t := Pinging(k)][t := PingStarting(k, |s.sh.pings|)]
        == s.threads[t := PingStarting(k, |s.sh.pings|)];
  }

  lemma PingWaits(s: State, t: nat, k: Address, q: PingId)
    requires Coherent(s) && At(s, t, PingStarting(k, q))
    ensures Leads(s, [AppGo(t, true)], s.(threads := s.threads[t := PingWaiting(k, q)]))
  {
    One(s, AppGo(t, true));
  }

  lemma PingGivesUp(s: State, t: nat, k: Address, q: PingId)
    requires Coherent(s) && t < |s.threads|
    requires s.threads[t] == PingStarting(k, q) || s.threads[t] == PingWaiting(k, q)
    ensures Leads(s, [AppGo(t, false), AppGo(t, true)],
                  Moved(s, t, Idle, s.sh.(pendingPings := s.sh.pendingPings - {k})))
  {
    Two(s, AppGo(t, false), AppGo(t, true));
    assert s.threads[t := PingUndoing(k)][t := Idle] == s.threads[t := Idle];
  }

  lemma PingCollects(s: State, t: nat, k: Address, q: PingId)
    requires Coherent(s) && At(s, t, PingWaiting(k, q)) && s.sh.pings[q].event
    ensures Leads(s, [AppGo(t, true)], s.(threads := s.threads[t := PingCollecting(q)]))
  {
    One(s, AppGo(t, true));
  }

  // ---- accept ----

  /** accept on an open peer: the connection at the head is returned; the token is put back and the accept
      refuses; on an empty queue it gives up and takes nothing. */
  lemma AcceptTakes(s: State, t: nat)
    requires Coherent(s) && At(s, t, Idle) && !s.sh.closed
    ensures var begin := Begin(t, CallAccept);
            if s.sh.acceptQueue == [] then Leads(s, [begin, AppGo(t, false)], s)
            else
              var rest := s.sh.acceptQueue[1..];
              match s.sh.acceptQueue[0]
              case Some(c) =>
                Leads(s, [begin, AppGo(t, true)],
                      s.(sh := s.sh.(acceptQueue := rest, accepted := s.sh.accepted + [c])))
              case None =>
                Leads(s, [begin] + [AppGo(t, true), AppGo(t, true)], s.(sh := s.sh.(acceptQueue := rest + [None])))
  {
    var begin := Begin(t, CallAccept);
    var ok := s.sh.acceptQueue != [];
    Two(s, begin, AppGo(t, ok));
    assert s.threads[t := Accepting][t := Idle] == s.threads;
    if ok && s.sh.acceptQueue[0].None? {
      AcceptMeetsToken(Next(s, begin), t);
      assert s.threads[t := Idle] == s.threads;
      More(s, begin, [AppGo(t, true), AppGo(t, true)],
           s.(sh := s.sh.(acceptQueue := s.sh.acceptQueue[1..] + [None])));
    }
  }

  lemma AcceptMeetsToken(s: State, t: nat)
    requires Coherent(s) && At(s, t, Accepting) && s.sh.acceptQueue != [] && s.sh.acceptQueue[0].None?
    ensures Leads(s, [AppGo(t, true), AppGo(t, true)],
                  Moved(s, t, Idle, s.sh.(acceptQueue := s.sh.acceptQueue[1..] + [None])))
  {
    Two(s, AppGo(t, true), AppGo(t, true));
    assert s.threads[t := HoldingToken][t := Idle] == s.threads[t := Idle];
  }

  /** An accept past its check that meets a connection returns it, on a closed peer too. */
  lemma AcceptReturns(s: State, t: nat)
    requires Coherent(s) && At(s, t, Accepting) && s.sh.acceptQueue != [] && s.sh.acceptQueue[0].Some?
    ensures Leads(s, [AppGo(t, true)],
                  Moved(s, t, Idle, s.sh.(acceptQueue := s.sh.acceptQueue[1..],
                                          accepted := s.sh.accepted + [s.sh.acceptQueue[0].value])))
  {
    One(s, AppGo(t, true));
  }

  // ---- Closing the peer ----

  /** Peer.close on an open peer: the tables are emptied into the snapshot, and the caller goes on to join the
      pump. */
  lemma PeerCloseBegins(s: State, t: nat)
    requires Coherent(s) && At(s, t, Idle) && !s.sh.closed
    ensures Leads(s, [Begin(t, CallClosePeer), AppGo(t, true)],
              s.(sh := s.sh.(closed := true, connections := map[], pendingConnects := map[], pendingPings := map[]),
                 snap := Snapshot(s.sh.connections.Values, s.sh.pendingConnects.Values, s.sh.pendingPings.Values),
                 closer := Joining, byPump := false, wins := s.wins + 1,
                 threads := s.threads[t := AwaitingClose]))
  {
    Two(s, Begin(t, CallClosePeer), AppGo(t, true));
    assert s.threads[t := ClosingPeer][t := AwaitingClose] == s.threads[t := AwaitingClose];
  }

  /** A crash at receive: on an open peer the pump closes the peer itself, with nobody to join; on a closed one it
      stops. */
  lemma CrashCloses(s: State)
    requires Coherent(s) && s.pump == AtReceive
    ensures Leads(s, [PumpReceive(Raised), PumpGo],
              if s.sh.closed then s.(pump := Stopped)
              else
                s.(sh := s.sh.(closed := true, connections := map[], pendingConnects := map[],
                               pendingPings := map[]),
                   snap := Snapshot(s.sh.connections.Values, s.sh.pendingConnects.Values, s.sh.pendingPings.Values),
                   pump := Finishing, closer := ShuttingDown, byPump := true, wins := s.wins + 1))
  {
    Two(s, PumpReceive(Raised), PumpGo);
  }

  // ---- recv ----

  /** recv takes the oldest message, on an open connection and on a closed one. */
  lemma RecvTakes(s: State, c: ConnId)
    requires Coherent(s) && IsConn(s.sh, c) && s.sh.conns[c].box.items != []
    ensures var x := s.sh.conns[c];
            Leads(s, [Recv(c)],
                  s.(sh := s.sh.(conns := s.sh.conns[c :=
                       x.(box := x.box.(items := x.box.items[1..]), delivered := x.delivered + [x.box.items[0]])])))
  {
    One(s, Recv(c));
  }
}
