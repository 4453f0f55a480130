/** Why a mailbox is closed: behind every close exception, in every run, there is the step that called for it. */
module Causes {
  import opened RakTypes
  import opened PeerState
  import opened Protocol
  import opened Shutdown

  ghost function Each(m: map<Guid, ConnId>, r: CloseReason): set<(ConnId, CloseReason)> {
    set c | c in m.Values :: (c, r)
  }

  /** The pump takes a connection out of the table for a disconnect, or finds its mailbox at the limit. */
  ghost function PumpCause(sh: Shared, p: Pump): set<(ConnId, CloseReason)>
    requires PumpIds(sh, p)
  {
    if p.Routing? && p.event.Disconnected? && p.event.guid in sh.connections then
      {(sh.connections[p.event.guid], if p.event.graceful then RemoteClose else ConnectionLost)}
    else if p.Offering? && sh.conns[p.c].box.maxsize.Some?
            && sh.conns[p.c].box.maxsize.value <= |sh.conns[p.c].box.items| then {(p.c, QueueOverflow)}
    else {}
  }

  /** The connections that a step gives somebody cause to close, with the exception they are to be closed with. */
  ghost function Cause(s: State, l: Label): set<(ConnId, CloseReason)>
    requires Enabled(s, l)
  {
    if l.PumpGo? then
      if s.pump != Crashed then PumpCause(s.sh, s.pump)
      else if s.sh.closed then {} else Each(s.sh.connections, PumpCrashed)
    else if l.AppGo? && s.threads[l.t] == ClosingPeer then
      if s.sh.closed then {} else Each(s.sh.connections, PeerClosed)
    else if l.AppGo? && s.threads[l.t].Dropping? then {(s.threads[l.t].c, LocalClose)}
    else {}
  }

  ghost function AllCauses(s: State, ls: seq<Label>): set<(ConnId, CloseReason)>
    requires IsRun(s, ls)
    decreases |ls|
  {
    if ls == [] then {} else Cause(s, ls[0]) + AllCauses(Next(s, ls[0]), ls[1..])
  }

  // ---- Every close has its cause ----

  ghost predicate BoxesCaused(sh: Shared, h: set<(ConnId, CloseReason)>) {
    forall c :: 0 <= c < |sh.conns| && sh.conns[c].box.exc.Some? ==> (c, sh.conns[c].box.exc.value) in h
  }

  predicate PumpCaused(p: Pump, h: set<(ConnId, CloseReason)>) {
    && (p.Overflowing? ==> (p.c, QueueOverflow) in h)
    && (p.Marking? || p.Sealing? ==> (p.c, p.why) in h)
  }

  predicate AppCaused(a: App, h: set<(ConnId, CloseReason)>) {
    a.Flagging? || a.Shutting? ==> (a.c, LocalClose) in h
  }

  predicate SnapCaused(s: State, h: set<(ConnId, CloseReason)>) {
    s.sh.closed ==> forall c :: c in s.snap.conns ==> (c, if s.byPump then PumpCrashed else PeerClosed) in h
  }

  ghost predicate Caused(s: State, h: set<(ConnId, CloseReason)>) {
    && BoxesCaused(s.sh, h) && PumpCaused(s.pump, h) && SnapCaused(s, h)
    && (forall t :: 0 <= t < |s.threads| ==> AppCaused(s.threads[t], h))
  }

  /** The mailboxes of b are closed as in a, but for one close with a reason for which there is a cause. */
  ghost predicate Follows(a: Shared, b: Shared, h: set<(ConnId, CloseReason)>) {
    forall c :: 0 <= c < |b.conns| && b.conns[c].box.exc.Some? ==>
      || (c < |a.conns| && b.conns[c].box.exc == a.conns[c].box.exc)
      || (c, b.conns[c].box.exc.value) in h
  }

  lemma PumpFollows(sh: Shared, p: Pump, h: set<(ConnId, CloseReason)>)
    requires TableIds(sh) && PumpIds(sh, p) && PumpCaused(p, h) && PumpCause(sh, p) <= h
    ensures var (sh', p') := PumpStep(sh, p); Follows(sh, sh', h) && PumpCaused(p', h)
  {
    if p.Routing? {
      EnterFollows(sh, p.event, h);
    }
  }

  lemma EnterFollows(sh: Shared, e: Event, h: set<(ConnId, CloseReason)>)
    requires TableIds(sh) && PumpCause(sh, Routing(e)) <= h
    ensures var (sh', p') := Enter(sh, e); Follows(sh, sh', h) && PumpCaused(p', h)
  {
  }

  lemma AppFollows(sh: Shared, t: nat, a: App, ok: bool, h: set<(ConnId, CloseReason)>)
    requires TableIds(sh) && AppIds(sh, a) && (a.Accepting? && ok ==> sh.acceptQueue != [])
    requires AppCaused(a, h) && (a.Dropping? ==> (a.c, LocalClose) in h)
    ensures var (sh', a') := AppStep(sh, t, a, ok); Follows(sh, sh', h) && AppCaused(a', h)
  {
    if !a.Shutting? {
      AppKeepsBoxes(sh, t, a, ok);
    }
  }

  lemma CloserFollows(s: State, pick: nat, h: set<(ConnId, CloseReason)>)
    requires WellFormed(s) && ControlOk(s) && SweepOk(s) && SnapCaused(s, h) && CloserEnabled(s, pick)
    ensures Follows(s.sh, CloserNext(s, pick).sh, h)
  {
    if s.closer.SealConn? {
      assert s.closer.c in ConnsLeft(s.closer, s.snap.conns);
    }
  }

  /** The closer's step for everybody else. */
  lemma CloserAside(s: State, pick: nat)
    requires WellFormed(s) && CloserEnabled(s, pick)
    ensures var s' := CloserNext(s, pick);
            && s'.sh.closed == s.sh.closed && s'.snap == s.snap && s'.byPump == s.byPump
            && (s'.pump == s.pump || s'.pump == Stopped) && |s'.threads| == |s.threads|
            && (forall t :: 0 <= t < |s.threads| ==> s'.threads[t] == s.threads[t] || s'.threads[t] == Idle)
  {
    CloserKeepsFlag(s.sh, s.closer, s.snap, PeerReason(s), pick);
  }

  lemma CloserKeepsFlag(sh: Shared, k: Closer, snap: Snapshot, why: CloseReason, pick: nat)
    requires CloserIds(sh, k)
    requires k.MarkConns? && k.conns != {} ==> pick in k.conns
    requires k.ExplainPends? && k.pends != {} ==> pick in k.pends
    requires k.RingPings? && k.pings != {} ==> pick in k.pings
    ensures CloserStep(sh, k, snap, why, pick).0.closed == sh.closed
  {
  }

  lemma StepPumpCaused(s: State, h: set<(ConnId, CloseReason)>)
    requires ShutdownOk(s) && Caused(s, h) && Enabled(s, PumpGo) && s.pump != Crashed
    ensures Caused(PumpNext(s), h + PumpCause(s.sh, s.pump))
  {
    PumpFollows(s.sh, s.pump, h + PumpCause(s.sh, s.pump));
    PumpStepKind(s.sh, s.pump);
  }

  lemma StepAppCaused(s: State, t: nat, ok: bool, h: set<(ConnId, CloseReason)>)
    requires ShutdownOk(s) && Caused(s, h) && Enabled(s, AppGo(t, ok)) && s.threads[t] != ClosingPeer
    ensures Caused(AppNext(s, t, ok), h + Cause(s, AppGo(t, ok)))
  {
    AppFollows(s.sh, t, s.threads[t], ok, h + Cause(s, AppGo(t, ok)));
    AppTail(s.sh, t, s.threads[t], ok);
  }

  lemma StepCloserCaused(s: State, pick: nat, h: set<(ConnId, CloseReason)>)
    requires ShutdownOk(s) && Caused(s, h) && CloserEnabled(s, pick)
    ensures Caused(CloserNext(s, pick), h)
  {
    CloserFollows(s, pick, h);
    CloserAside(s, pick);
  }

  lemma StepWinCaused(s: State, l: Label, h: set<(ConnId, CloseReason)>)
    requires ShutdownOk(s) && Caused(s, h) && Enabled(s, l)
    requires (l.PumpGo? && s.pump == Crashed) || (l.AppGo? && s.threads[l.t] == ClosingPeer)
    ensures Caused(Next(s, l), h + Cause(s, l))
  {
  }

  lemma StepLocalCaused(s: State, l: Label, h: set<(ConnId, CloseReason)>)
    requires Caused(s, h) && Enabled(s, l) && (l.PumpReceive? || l.Begin? || l.Recv?)
    ensures Caused(Next(s, l), h)
  {
  }

  lemma StepCaused(s: State, l: Label, h: set<(ConnId, CloseReason)>)
    requires ShutdownOk(s) && Caused(s, h) && Enabled(s, l)
    ensures Caused(Next(s, l), h + Cause(s, l))
  {
    if l.PumpGo? && s.pump != Crashed {
      StepPumpCaused(s, h);
    } else if l.CloserGo? {
      StepCloserCaused(s, l.pick, h);
      assert h + Cause(s, l) == h;
    } else if l.AppGo? && s.threads[l.t] != ClosingPeer {
      StepAppCaused(s, l.t, l.ok, h);
    } else if l.PumpGo? || l.AppGo? {
      StepWinCaused(s, l, h);
    } else {
      StepLocalCaused(s, l, h);
      assert h + Cause(s, l) == h;
    }
  }

  lemma {:induction false} AlwaysCaused(s: State, ls: seq<Label>, h: set<(ConnId, CloseReason)>)
    requires ShutdownOk(s) && Caused(s, h) && IsRun(s, ls)
    ensures Caused(After(s, ls), h + AllCauses(s, ls))
    decreases |ls|
  {
    if ls != [] {
      var h' := h + Cause(s, ls[0]);
      StepCaused(s, ls[0], h);
      StepShutdown(s, ls[0]);
      AlwaysCaused(Next(s, ls[0]), ls[1..], h');
      assert h' + AllCauses(Next(s, ls[0]), ls[1..]) == h + AllCauses(s, ls);
    } else {
      assert h + AllCauses(s, ls) == h;
    }
  }

  /** In every run from the start, a mailbox is closed only with an exception some step of the run gave cause for:
      LocalClose for a connection an application thread was closing, RemoteClose or ConnectionLost for one that a
      disconnect took out of the table, QueueOverflow for one whose put met the limit, and PeerClosed or
      PumpCrashed for one that was in the table when a Peer.close, or a crash of the pump, closed the peer. */
  lemma CloseHasCause(s: State, ls: seq<Label>, c: ConnId)
    requires Initial(s) && IsRun(s, ls) && IsConn(After(s, ls).sh, c) && After(s, ls).sh.conns[c].box.exc.Some?
    ensures (c, After(s, ls).sh.conns[c].box.exc.value) in AllCauses(s, ls)
  {
    InitialShutdownOk(s);
    AlwaysCaused(s, ls, {});
    assert {} + AllCauses(s, ls) == AllCauses(s, ls);
  }

  // ---- Who closed the peer, and what it tells the connections ----

  lemma StepKeepsWinner(s: State, l: Label)
    requires ShutdownOk(s) && s.sh.closed && Enabled(s, l)
    ensures Next(s, l).sh.closed && Next(s, l).byPump == s.byPump && Next(s, l).snap == s.snap
  {
    RankFalls(s, l);
    if l.CloserGo? {
      CloserAside(s, l.pick);
    }
  }

  lemma {:induction false} KeepsWinner(s: State, ls: seq<Label>)
    requires ShutdownOk(s) && s.sh.closed && IsRun(s, ls)
    ensures ShutdownOk(After(s, ls)) && After(s, ls).sh.closed
    ensures After(s, ls).byPump == s.byPump && After(s, ls).snap == s.snap
    decreases |ls|
  {
    if ls != [] {
      StepKeepsWinner(s, ls[0]);
      StepShutdown(s, ls[0]);
      KeepsWinner(Next(s, ls[0]), ls[1..]);
    }
  }

  /** c was closed, for the given reason or for one of its own. */
  predicate ClosedFor(sh: Shared, c: ConnId, r: CloseReason) {
    && IsConn(sh, c) && sh.conns[c].closed && sh.conns[c].box.exc.Some?
    && var e := sh.conns[c].box.exc.value;
       e == r || e == LocalClose || e == RemoteClose || e == ConnectionLost || e == QueueOverflow
  }

  /** After a step by which an application's Peer.close closes the peer, in every continuation: no mailbox is ever
      closed with PumpCrashed; and when _finish_close is done, every connection that was in the table is closed,
      with PeerClosed or with a reason of its own. */
  lemma ClosedByCaller(s: State, l: Label, ls: seq<Label>)
    requires ShutdownOk(s) && !s.sh.closed && Enabled(s, l) && Next(s, l).sh.closed && IsRun(Next(s, l), ls)
    requires l.AppGo?
    ensures s.threads[l.t] == ClosingPeer
    ensures var sh' := After(Next(s, l), ls).sh;
            && (forall c :: 0 <= c < |sh'.conns| ==> sh'.conns[c].box.exc != Some(PumpCrashed))
            && (After(Next(s, l), ls).closer == Finished ==>
                  forall g :: g in s.sh.connections ==> ClosedFor(sh', s.sh.connections[g], PeerClosed))
  {
    if s.threads[l.t] != ClosingPeer {
      AppKeepsFlag(s.sh, l.t, s.threads[l.t], l.ok);
    }
    StepShutdown(s, l);
    KeepsWinner(Next(s, l), ls);
    ReasonByWinner(After(Next(s, l), ls));
    TableInSnapshot(s, l);
  }

  /** After a step by which the pump closes the peer, which is then its crash, the same with PeerClosed and
      PumpCrashed exchanged. */
  lemma ClosedByCrash(s: State, l: Label, ls: seq<Label>)
    requires ShutdownOk(s) && !s.sh.closed && Enabled(s, l) && Next(s, l).sh.closed && IsRun(Next(s, l), ls)
    requires !l.AppGo?
    ensures l.PumpGo? && s.pump == Crashed
    ensures var sh' := After(Next(s, l), ls).sh;
            && (forall c :: 0 <= c < |sh'.conns| ==> sh'.conns[c].box.exc != Some(PeerClosed))
            && (After(Next(s, l), ls).closer == Finished ==>
                  forall g :: g in s.sh.connections ==> ClosedFor(sh', s.sh.connections[g], PumpCrashed))
  {
    OnlyTheCrash(s, l);
    StepShutdown(s, l);
    KeepsWinner(Next(s, l), ls);
    ReasonByWinner(After(Next(s, l), ls));
    TableInSnapshot(s, l);
  }

  lemma OnlyTheCrash(s: State, l: Label)
    requires Enabled(s, l) && !s.sh.closed && Next(s, l).sh.closed && !l.AppGo?
    ensures l.PumpGo? && s.pump == Crashed
  {
    if l.CloserGo? {
      CloserKeepsFlag(s.sh, s.closer, s.snap, PeerReason(s), l.pick);
    } else if l.PumpGo? && s.pump != Crashed {
      PumpStepKind(s.sh, s.pump);
    }
  }

  lemma TableInSnapshot(s: State, l: Label)
    requires Enabled(s, l) && !s.sh.closed
    requires (l.PumpGo? && s.pump == Crashed) || (l.AppGo? && s.threads[l.t] == ClosingPeer)
    ensures Next(s, l).byPump <==> l.PumpGo?
    ensures forall g :: g in s.sh.connections ==> s.sh.connections[g] in Next(s, l).snap.conns
  {
  }

  lemma ReasonByWinner(s: State)
    requires ShutdownOk(s)
    ensures forall c :: 0 <= c < |s.sh.conns| && s.sh.conns[c].box.exc.Some? ==>
              s.sh.conns[c].box.exc.value != (if s.byPump then PeerClosed else PumpCrashed)
    ensures s.closer == Finished ==>
              forall c :: c in s.snap.conns ==> ClosedFor(s.sh, c, if s.byPump then PumpCrashed else PeerClosed)
  {
  }
}
