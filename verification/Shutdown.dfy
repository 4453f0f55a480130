/** Closing the peer: one winner, a bounded tail of pump activity, a complete sweep of the snapshot, and
    termination. */
module Shutdown {
  import opened RakTypes
  import opened PeerState
  import opened Protocol
  import opened Coherence

  predicate AtMostOne<T>(m: map<int, T>) {
    forall g, h :: g in m && h in m ==> g == h
  }

  /** The route call in flight, if any, may still register one connection. */
  predicate CanRegister(p: Pump) {
    p.AtReceive? || p.Routing? || p.Establishing?
  }

  function PendingRoutes(p: Pump): nat {
    if p.AtReceive? || InRoute(p) then 1 else 0
  }

  /** The tables after _begin_close. */
  ghost predicate TailOk(s: State) {
    if s.sh.closed then
      && s.sh.pendingConnects == map[] && s.sh.pendingPings == map[]
      && AtMostOne(s.sh.connections) && (CanRegister(s.pump) ==> s.sh.connections == map[])
      && s.lateRoutes + PendingRoutes(s.pump) <= 1
    else s.lateRoutes == 0
  }

  predicate Active(k: Closer) {
    !k.NoCloser? && !k.Finished?
  }

  /** Who the closer is, and where the pump is meanwhile. */
  ghost predicate RolesOk(s: State) {
    && (s.sh.closed <==> !s.closer.NoCloser?)
    && (s.byPump && Active(s.closer) ==> s.pump == Finishing)
    && (s.pump == Finishing ==> s.byPump && Active(s.closer))
    && (s.closer == Joining ==> !s.byPump)
    && (s.sh.closed && !s.byPump && s.closer != Joining ==> s.pump == Stopped)
    && (s.closer == Finished ==> s.pump == Stopped)
    && (s.pump == Stopped ==> s.sh.closed)
    && s.wins == (if s.sh.closed then 1 else 0)
    && s.finishes == (if s.closer == Finished then 1 else 0)
  }

  /** At most one thread waits inside Peer.close, and only while it is the closer. */
  ghost predicate WinnerOk(s: State) {
    && (forall t :: 0 <= t < |s.threads| && s.threads[t] == AwaitingClose ==> Active(s.closer) && !s.byPump)
    && (forall t, u :: 0 <= t < u < |s.threads| && s.threads[t] == AwaitingClose ==> s.threads[u] != AwaitingClose)
  }

  ghost predicate ControlOk(s: State) {
    TailOk(s) && RolesOk(s) && WinnerOk(s)
  }

  // ---- The sweep over the snapshot ----

  function ConnsLeft(k: Closer, all: set<ConnId>): set<ConnId> {
    match k
    case NoCloser => all
    case Joining => all
    case ShuttingDown => all
    case MarkConns(cs) => cs
    case SealConn(c, cs) => cs + {c}
    case _ => {}
  }

  function PendsLeft(k: Closer, all: set<PendId>): set<PendId> {
    match k
    case ExplainPends(ps) => ps
    case SignalPend(p, ps) => ps + {p}
    case RingPings(_) => {}
    case Posting => {}
    case Finished => {}
    case _ => all
  }

  function PingsLeft(k: Closer, all: set<PingId>): set<PingId> {
    match k
    case RingPings(qs) => qs
    case Posting => {}
    case Finished => {}
    case _ => all
  }

  /** Everything in the snapshot that the closer has passed is closed or signalled. */
  ghost predicate SweepOk(s: State) {
    && SetIds(s.sh, s.snap.conns, s.snap.pends, s.snap.pings)
    && ConnsLeft(s.closer, s.snap.conns) <= s.snap.conns
    && PendsLeft(s.closer, s.snap.pends) <= s.snap.pends
    && PingsLeft(s.closer, s.snap.pings) <= s.snap.pings
    && (forall c :: c in s.snap.conns && c !in ConnsLeft(s.closer, s.snap.conns) ==> s.sh.conns[c].box.exc.Some?)
    && (forall p :: p in s.snap.pends && p !in PendsLeft(s.closer, s.snap.pends) ==> s.sh.pends[p].event)
    && (forall q :: q in s.snap.pings && q !in PingsLeft(s.closer, s.snap.pings) ==> s.sh.pings[q].event)
  }

  /** Only the closer hands out the two peer-wide reasons, its own, and only inside the snapshot. */
  ghost predicate ReasonsOk(s: State) {
    && (s.pump.Marking? || s.pump.Sealing? ==> !s.pump.why.FromPeer())
    && (forall c :: 0 <= c < |s.sh.conns| && s.sh.conns[c].box.exc.Some? && s.sh.conns[c].box.exc.value.FromPeer()
          ==> s.sh.closed && c in s.snap.conns && s.sh.conns[c].box.exc.value == PeerReason(s))
  }

  // ---- Control ----

  lemma StepControl(s: State, l: Label)
    requires Coherent(s) && ControlOk(s) && Enabled(s, l)
    ensures ControlOk(Next(s, l))
  {
    if l.PumpGo? {
      PumpControl(s);
    } else if l.CloserGo? {
      CloserControl(s, l.pick);
    } else if l.AppGo? {
      AppControl(s, l.t, l.ok);
    } else {
      LocalControl(s, l);
    }
  }

  lemma LocalControl(s: State, l: Label)
    requires ControlOk(s) && Enabled(s, l) && (l.PumpReceive? || l.Begin? || l.Recv?)
    ensures ControlOk(Next(s, l))
  {
    if l.Begin? {
      BeginControl(s, l.t, l.call);
    } else if l.PumpReceive? {
      ReceivedControl(s, l.r);
    }
  }

  lemma BeginControl(s: State, t: nat, call: Call)
    requires ControlOk(s) && Enabled(s, Begin(t, call))
    ensures ControlOk(BeginNext(s, t, call))
  {
    assert BeginNext(s, t, call).threads[t] != AwaitingClose;
  }

  lemma ReceivedControl(s: State, r: Received)
    requires ControlOk(s) && s.pump.AtReceive?
    ensures ControlOk(PumpReceived(s, r))
  {
  }

  /** The tail of a closed peer, one pump step on. */
  lemma PumpTail(sh: Shared, p: Pump)
    requires TableIds(sh) && PumpIds(sh, p) && sh.closed
    requires sh.pendingConnects == map[] && sh.pendingPings == map[]
    requires AtMostOne(sh.connections) && (CanRegister(p) ==> sh.connections == map[])
    ensures var (sh', p') := PumpStep(sh, p);
            && sh'.pendingConnects == map[] && sh'.pendingPings == map[]
            && AtMostOne(sh'.connections) && (CanRegister(p') ==> sh'.connections == map[])
            && PendingRoutes(p') + (if InRoute(p) && !InRoute(p') then 1 else 0) <= PendingRoutes(p)
  {
  }

  lemma PumpStepKind(sh: Shared, p: Pump)
    requires TableIds(sh) && PumpIds(sh, p) && p != Crashed && p != Finishing && p != Stopped
    ensures var (sh', p') := PumpStep(sh, p);
            && sh'.closed == sh.closed && p' != Finishing && (p' == Stopped ==> sh.closed)
  {
  }

  lemma PumpControl(s: State)
    requires Coherent(s) && ControlOk(s) && Enabled(s, PumpGo)
    ensures ControlOk(PumpNext(s))
  {
    if s.pump != Crashed {
      PumpStepKind(s.sh, s.pump);
      if s.sh.closed {
        PumpTail(s.sh, s.pump);
      }
      assert WinnerOk(PumpNext(s));
    }
  }

  lemma CloserControl(s: State, pick: nat)
    requires Coherent(s) && ControlOk(s) && CloserEnabled(s, pick)
    ensures ControlOk(CloserNext(s, pick))
  {
  }

  lemma AppTail(sh: Shared, t: nat, a: App, ok: bool)
    requires TableIds(sh) && AppIds(sh, a) && (a.Accepting? && ok ==> sh.acceptQueue != []) && a != AwaitingClose
    ensures var (sh', a') := AppStep(sh, t, a, ok);
            && sh'.closed == sh.closed && a' != AwaitingClose
            && (forall g :: g in sh'.connections ==> g in sh.connections)
            && (sh.closed && sh.pendingConnects == map[] ==> sh'.pendingConnects == map[])
            && (sh.closed && sh.pendingPings == map[] ==> sh'.pendingPings == map[])
  {
  }

  lemma AppControl(s: State, t: nat, ok: bool)
    requires Coherent(s) && ControlOk(s) && AppEnabled(s, t, ok)
    ensures ControlOk(AppNext(s, t, ok))
  {
    if s.threads[t] == ClosingPeer {
      AppWins(s, t, ok);
    } else {
      AppTail(s.sh, t, s.threads[t], ok);
      assert TailOk(AppNext(s, t, ok)) && RolesOk(AppNext(s, t, ok));
    }
  }

  lemma AppWins(s: State, t: nat, ok: bool)
    requires ControlOk(s) && Enabled(s, AppGo(t, ok)) && s.threads[t] == ClosingPeer
    ensures ControlOk(AppNext(s, t, ok))
  {
  }

  // ---- The sweep ----

  /** What the closer has done stays done. */
  lemma SweepFrame(s: State, s': State)
    requires SweepOk(s) && Evolves(s.sh, s'.sh) && s'.closer == s.closer && s'.snap == s.snap
    ensures SweepOk(s')
  {
    forall c | c in s.snap.conns && c !in ConnsLeft(s.closer, s.snap.conns)
      ensures s'.sh.conns[c].box.exc.Some?
    {
      assert ConnEvolves(s.sh.conns[c], s'.sh.conns[c]);
    }
    forall p | p in s.snap.pends && p !in PendsLeft(s.closer, s.snap.pends)
      ensures s'.sh.pends[p].event
    {
      assert PendEvolves(s.sh.pends[p], s'.sh.pends[p]);
    }
    forall q | q in s.snap.pings && q !in PingsLeft(s.closer, s.snap.pings)
      ensures s'.sh.pings[q].event
    {
      assert PingEvolves(s.sh.pings[q], s'.sh.pings[q]);
    }
  }

  lemma ConnSweeps(s: State, pick: nat)
    requires Coherent(s) && SweepOk(s) && CloserEnabled(s, pick) && (s.closer.MarkConns? || s.closer.SealConn?)
    ensures SweepOk(CloserNext(s, pick))
  {
  }

  lemma PendSweeps(s: State, pick: nat)
    requires Coherent(s) && SweepOk(s) && CloserEnabled(s, pick) && (s.closer.ExplainPends? || s.closer.SignalPend?)
    ensures SweepOk(CloserNext(s, pick))
  {
  }

  lemma CloserSweeps(s: State, pick: nat)
    requires Coherent(s) && SweepOk(s) && CloserEnabled(s, pick)
    ensures SweepOk(CloserNext(s, pick))
  {
    if s.closer.MarkConns? || s.closer.SealConn? {
      ConnSweeps(s, pick);
    } else if s.closer.ExplainPends? || s.closer.SignalPend? {
      PendSweeps(s, pick);
    }
  }

  lemma StepSweeps(s: State, l: Label)
    requires Coherent(s) && ControlOk(s) && SweepOk(s) && Enabled(s, l)
    ensures SweepOk(Next(s, l))
  {
    var s' := Next(s, l);
    if l.CloserGo? {
      CloserSweeps(s, l.pick);
    } else {
      OtherSteps(s, l);
      if s'.closer == s.closer {
        SweepFrame(s, s');
      }
    }
  }

  /** A step of anyone else either leaves the closer alone or wins _begin_close. */
  lemma OtherSteps(s: State, l: Label)
    requires Coherent(s) && ControlOk(s) && Enabled(s, l) && !l.CloserGo?
    ensures var s' := Next(s, l);
            && Evolves(s.sh, s'.sh) && SetIds(s'.sh, s'.snap.conns, s'.snap.pends, s'.snap.pings)
            && (if s'.closer == s.closer then s'.snap == s.snap else s'.closer == Joining || s'.closer == ShuttingDown)
  {
    StepCoherent(s, l);
  }

  // ---- The reasons ----

  /** No mailbox is closed with a peer-wide reason between a and b. */
  ghost predicate NoPeerReason(a: Shared, b: Shared) {
    forall c :: 0 <= c < |b.conns| && b.conns[c].box.exc.Some? && b.conns[c].box.exc.value.FromPeer()
      ==> c < |a.conns| && a.conns[c].box.exc == b.conns[c].box.exc
  }

  lemma PumpReasons(sh: Shared, p: Pump)
    requires TableIds(sh) && PumpIds(sh, p) && (p.Marking? || p.Sealing? ==> !p.why.FromPeer())
    ensures var (sh', p') := PumpStep(sh, p);
            NoPeerReason(sh, sh') && (p'.Marking? || p'.Sealing? ==> !p'.why.FromPeer())
  {
    if p.Routing? {
      EnterReasons(sh, p.event);
    }
  }

  lemma EnterReasons(sh: Shared, e: Event)
    requires TableIds(sh)
    ensures var (sh', p') := Enter(sh, e);
            NoPeerReason(sh, sh') && (p'.Marking? || p'.Sealing? ==> !p'.why.FromPeer())
  {
  }

  lemma AppReasons(sh: Shared, t: nat, a: App, ok: bool)
    requires TableIds(sh) && AppIds(sh, a) && (a.Accepting? && ok ==> sh.acceptQueue != [])
    ensures NoPeerReason(sh, AppStep(sh, t, a, ok).0)
  {
    if !a.Shutting? {
      AppKeepsBoxes(sh, t, a, ok);
    }
  }

  lemma AppKeepsBoxes(sh: Shared, t: nat, a: App, ok: bool)
    requires TableIds(sh) && AppIds(sh, a) && (a.Accepting? && ok ==> sh.acceptQueue != []) && !a.Shutting?
    ensures var sh' := AppStep(sh, t, a, ok).0;
            |sh'.conns| == |sh.conns| && forall c :: 0 <= c < |sh.conns| ==> sh'.conns[c].box == sh.conns[c].box
  {
  }

  lemma StepReasons(s: State, l: Label)
    requires Coherent(s) && ControlOk(s) && SweepOk(s) && ReasonsOk(s) && Enabled(s, l)
    ensures ReasonsOk(Next(s, l))
  {
    if l.PumpGo? {
      if s.pump != Crashed {
        PumpReasons(s.sh, s.pump);
      }
    } else if l.CloserGo? {
      CloserReasons(s, l.pick);
    } else if l.AppGo? {
      AppGoReasons(s, l.t, l.ok);
    } else {
      LocalReasons(s, l);
    }
  }

  lemma AppGoReasons(s: State, t: nat, ok: bool)
    requires ControlOk(s) && ReasonsOk(s) && Enabled(s, AppGo(t, ok))
    ensures ReasonsOk(AppNext(s, t, ok))
  {
    if s.threads[t] != ClosingPeer {
      AppTail(s.sh, t, s.threads[t], ok);
      AppReasons(s.sh, t, s.threads[t], ok);
    }
  }

  lemma LocalReasons(s: State, l: Label)
    requires ReasonsOk(s) && Enabled(s, l) && (l.PumpReceive? || l.Begin? || l.Recv?)
    ensures ReasonsOk(Next(s, l))
  {
  }

  lemma CloserReasons(s: State, pick: nat)
    requires Coherent(s) && ControlOk(s) && SweepOk(s) && ReasonsOk(s) && CloserEnabled(s, pick)
    ensures ReasonsOk(CloserNext(s, pick))
  {
    if s.closer.SealConn? {
      assert s.closer.c in ConnsLeft(s.closer, s.snap.conns);
    }
  }

  // ---- Over runs ----

  ghost predicate ShutdownOk(s: State) {
    Coherent(s) && ControlOk(s) && SweepOk(s) && ReasonsOk(s)
  }

  lemma StepShutdown(s: State, l: Label)
    requires ShutdownOk(s) && Enabled(s, l)
    ensures ShutdownOk(Next(s, l))
  {
    StepCoherent(s, l);
    StepControl(s, l);
    StepSweeps(s, l);
    StepReasons(s, l);
  }

  lemma {:induction false} AlwaysShutdownOk(s: State, ls: seq<Label>)
    requires ShutdownOk(s) && IsRun(s, ls)
    ensures ShutdownOk(After(s, ls))
    decreases |ls|
  {
    if ls != [] {
      StepShutdown(s, ls[0]);
      AlwaysShutdownOk(Next(s, ls[0]), ls[1..]);
    }
  }

  lemma InitialShutdownOk(s: State)
    requires Initial(s)
    ensures ShutdownOk(s)
  {
    InitialCoherent(s);
  }

  /** In every run from the start, with any number of Peer.close calls and a pump crash: _begin_close is
      won exactly once if the peer is closed at all, _finish_close completes at most once, and only one
      thread is ever inside it. */
  lemma ExactlyOneCloser(s: State, ls: seq<Label>)
    requires Initial(s) && IsRun(s, ls)
    ensures var s' := After(s, ls);
            && s'.wins == (if s'.sh.closed then 1 else 0)
            && s'.finishes == (if s'.closer == Finished then 1 else 0)
            && (forall t, u :: 0 <= t < u < |s'.threads| && s'.threads[t] == AwaitingClose ==>
                  s'.threads[u] != AwaitingClose)
            && (s'.pump == Finishing ==> forall t :: 0 <= t < |s'.threads| ==> s'.threads[t] != AwaitingClose)
  {
    InitialShutdownOk(s);
    AlwaysShutdownOk(s, ls);
  }

  /** Once the peer is closed: at most one more route call completes, the pending tables are empty and
      the connection table holds at most one entry. */
  lemma ShutdownBound(s: State, ls: seq<Label>)
    requires Initial(s) && IsRun(s, ls) && After(s, ls).sh.closed
    ensures var s' := After(s, ls);
            && s'.lateRoutes <= 1
            && s'.sh.pendingConnects == map[] && s'.sh.pendingPings == map[]
            && AtMostOne(s'.sh.connections)
            && (s'.closer == Finished ==> s'.pump == Stopped)
  {
    InitialShutdownOk(s);
    AlwaysShutdownOk(s, ls);
  }

  ghost function Receives(ls: seq<Label>): nat {
    if ls == [] then 0 else (if ls[0].PumpReceive? then 1 else 0) + Receives(ls[1..])
  }

  lemma StepReceives(s: State, l: Label)
    requires ShutdownOk(s) && s.sh.closed && Enabled(s, l)
    ensures Next(s, l).pump.AtReceive? ==> s.pump.AtReceive? && !l.PumpReceive?
  {
    if l.PumpGo? && s.pump != Crashed {
      PumpDrains(s.sh, s.pump);
    }
  }

  lemma PumpDrains(sh: Shared, p: Pump)
    requires TableIds(sh) && PumpIds(sh, p) && sh.closed
    requires !p.AtReceive?
    ensures !PumpStep(sh, p).1.AtReceive?
  {
  }

  /** Once the peer is closed, the pump receives at most once more in any continuation, and only if it is at
      receive already. */
  lemma {:induction false} ReceivesBound(s: State, ls: seq<Label>)
    requires ShutdownOk(s) && s.sh.closed && IsRun(s, ls)
    ensures Receives(ls) <= if s.pump.AtReceive? then 1 else 0
    decreases |ls|
  {
    if ls != [] {
      StepReceives(s, ls[0]);
      RankFalls(s, ls[0]);
      StepShutdown(s, ls[0]);
      ReceivesBound(Next(s, ls[0]), ls[1..]);
    }
  }

  /** When _finish_close is done, everything in its snapshot has been dealt with: connections are closed
      with their mailboxes closed, for the closer's reason or for one that a close of that connection
      put in first; every pending connect and ping has been signalled. Nothing outside the snapshot was
      closed for a peer-wide reason. */
  lemma SweepComplete(s: State, ls: seq<Label>)
    requires Initial(s) && IsRun(s, ls) && After(s, ls).closer == Finished
    ensures var s' := After(s, ls);
            && (forall c :: c in s'.snap.conns ==>
                  && IsClosed(s'.sh, c) && s'.sh.conns[c].box.exc.Some?
                  && var r := s'.sh.conns[c].box.exc.value;
                     || r == (if s'.byPump then PumpCrashed else PeerClosed)
                     || r == LocalClose || r == RemoteClose || r == ConnectionLost || r == QueueOverflow)
            && (forall p :: p in s'.snap.pends ==> IsPend(s'.sh, p) && s'.sh.pends[p].event)
            && (forall q :: q in s'.snap.pings ==> IsPing(s'.sh, q) && s'.sh.pings[q].event)
            && (forall c :: 0 <= c < |s'.sh.conns| && c !in s'.snap.conns ==>
                  s'.sh.conns[c].box.exc != Some(PeerClosed) && s'.sh.conns[c].box.exc != Some(PumpCrashed))
  {
    InitialShutdownOk(s);
    AlwaysShutdownOk(s, ls);
  }

  // ---- Termination ----

  /** The steps the pump has left on a closed peer, at most. */
  function PumpRank(p: Pump): nat {
    match p
    case AtReceive => 7
    case Routing(_) => 6
    case Offering(_, _) => 5
    case Overflowing(_) => 4
    case Establishing(_, _) => 4
    case Attaching(_, _) => 3
    case Explaining(_, _) => 3
    case Marking(_, _) => 3
    case Ponging(_, _) => 3
    case Enqueueing(_) => 2
    case Signalling(_) => 2
    case Sealing(_, _) => 2
    case RingingPing(_) => 2
    case AtCheck => 1
    case Crashed => 1
    case Finishing => 0
    case Stopped => 0
  }

  /** The steps the closer has left. */
  function CloserRank(k: Closer, snap: Snapshot): nat {
    match k
    case NoCloser => 0
    case Joining => 2 * |snap.conns| + 2 * |snap.pends| + |snap.pings| + 6
    case ShuttingDown => 2 * |snap.conns| + 2 * |snap.pends| + |snap.pings| + 5
    case MarkConns(cs) => 2 * |cs| + 2 * |snap.pends| + |snap.pings| + 4
    case SealConn(_, cs) => 2 * |cs| + 2 * |snap.pends| + |snap.pings| + 5
    case ExplainPends(ps) => 2 * |ps| + |snap.pings| + 3
    case SignalPend(_, ps) => 2 * |ps| + |snap.pings| + 4
    case RingPings(qs) => |qs| + 2
    case Posting => 1
    case Finished => 0
  }

  function Rank(s: State): nat {
    PumpRank(s.pump) + CloserRank(s.closer, s.snap)
  }

  /** A step of the pump or the closer. */
  predicate SystemStep(l: Label) {
    l.PumpGo? || l.PumpReceive? || l.CloserGo?
  }

  /** On a closed peer every pump or closer step uses up rank, and no caller can add any. */
  lemma RankFalls(s: State, l: Label)
    requires ShutdownOk(s) && s.sh.closed && Enabled(s, l)
    ensures Next(s, l).sh.closed
    ensures if SystemStep(l) then Rank(Next(s, l)) < Rank(s) else Rank(Next(s, l)) == Rank(s)
  {
    if l.CloserGo? {
      CloserRankFalls(s, l.pick);
    } else if l.PumpGo? && s.pump != Crashed {
      PumpRankFalls(s.sh, s.pump);
    } else {
      OthersKeepRank(s, l);
    }
  }

  lemma PumpRankFalls(sh: Shared, p: Pump)
    requires TableIds(sh) && PumpIds(sh, p) && sh.closed
    requires !p.AtReceive? && !p.Crashed? && !p.Finishing? && !p.Stopped?
    ensures var (sh', p') := PumpStep(sh, p); sh'.closed && PumpRank(p') < PumpRank(p)
  {
  }

  lemma OthersKeepRank(s: State, l: Label)
    requires WellFormed(s) && s.sh.closed && Enabled(s, l) && !l.CloserGo? && (l.PumpGo? ==> s.pump == Crashed)
    ensures var s' := Next(s, l);
            && s'.sh.closed && s'.closer == s.closer && s'.snap == s.snap
            && (if SystemStep(l) then PumpRank(s'.pump) < PumpRank(s.pump) else s'.pump == s.pump)
  {
    if l.AppGo? && s.threads[l.t] != ClosingPeer {
      AppKeepsFlag(s.sh, l.t, s.threads[l.t], l.ok);
    }
  }

  lemma AppKeepsFlag(sh: Shared, t: nat, a: App, ok: bool)
    requires TableIds(sh) && AppIds(sh, a) && (a.Accepting? && ok ==> sh.acceptQueue != [])
    ensures AppStep(sh, t, a, ok).0.closed == sh.closed
  {
  }

  lemma PickOne<T>(xs: set<T>, x: T)
    requires x in xs
    ensures |xs - {x}| == |xs| - 1
  {
  }

  lemma ConnRankFalls(s: State, pick: nat)
    requires WellFormed(s) && CloserEnabled(s, pick) && (s.closer.MarkConns? || s.closer.SealConn?)
    ensures var s' := CloserNext(s, pick);
            && CloserRank(s'.closer, s'.snap) < CloserRank(s.closer, s.snap)
            && PumpRank(s'.pump) <= PumpRank(s.pump) && s'.sh.closed == s.sh.closed
  {
    if s.closer.MarkConns? && s.closer.conns != {} {
      PickOne(s.closer.conns, pick);
    }
  }

  lemma PendRankFalls(s: State, pick: nat)
    requires WellFormed(s) && CloserEnabled(s, pick) && (s.closer.ExplainPends? || s.closer.SignalPend?)
    ensures var s' := CloserNext(s, pick);
            && CloserRank(s'.closer, s'.snap) < CloserRank(s.closer, s.snap)
            && PumpRank(s'.pump) <= PumpRank(s.pump) && s'.sh.closed == s.sh.closed
  {
    if s.closer.ExplainPends? && s.closer.pends != {} {
      PickOne(s.closer.pends, pick);
      assert CloserNext(s, pick).closer == SignalPend(pick, s.closer.pends - {pick});
    } else if s.closer.SignalPend? {
      assert CloserNext(s, pick).closer == ExplainPends(s.closer.pends);
    } else {
      assert CloserNext(s, pick).closer == RingPings(s.snap.pings);
    }
  }

  lemma PingRankFalls(s: State, pick: nat)
    requires WellFormed(s) && CloserEnabled(s, pick) && s.closer.RingPings?
    ensures var s' := CloserNext(s, pick);
            && CloserRank(s'.closer, s'.snap) < CloserRank(s.closer, s.snap)
            && PumpRank(s'.pump) <= PumpRank(s.pump) && s'.sh.closed == s.sh.closed
  {
    if s.closer.pings != {} {
      PickOne(s.closer.pings, pick);
    }
  }

  lemma CloserRankFalls(s: State, pick: nat)
    requires WellFormed(s) && CloserEnabled(s, pick)
    ensures var s' := CloserNext(s, pick);
            && CloserRank(s'.closer, s'.snap) < CloserRank(s.closer, s.snap)
            && PumpRank(s'.pump) <= PumpRank(s.pump) && s'.sh.closed == s.sh.closed
  {
    if s.closer.MarkConns? || s.closer.SealConn? {
      ConnRankFalls(s, pick);
    } else if s.closer.ExplainPends? || s.closer.SignalPend? {
      PendRankFalls(s, pick);
    } else if s.closer.RingPings? {
      PingRankFalls(s, pick);
    }
  }

  /** Until _finish_close has posted its token, the pump or the closer can move. */
  lemma SystemCanMove(s: State) returns (l: Label)
    requires ShutdownOk(s) && s.sh.closed && s.closer != Finished
    ensures SystemStep(l) && Enabled(s, l)
  {
    if s.closer == Joining && s.pump != Stopped {
      l := if s.pump.AtReceive? then PumpReceive(Nothing) else PumpGo;
    } else {
      var pick: nat := 0;
      if s.closer.MarkConns? && s.closer.conns != {} {
        pick :| pick in s.closer.conns;
      } else if s.closer.ExplainPends? && s.closer.pends != {} {
        pick :| pick in s.closer.pends;
      } else if s.closer.RingPings? && s.closer.pings != {} {
        pick :| pick in s.closer.pings;
      }
      l := CloserGo(pick);
    }
  }

  ghost function SystemSteps(ls: seq<Label>): nat {
    if ls == [] then 0 else (if SystemStep(ls[0]) then 1 else 0) + SystemSteps(ls[1..])
  }

  /** Shutdown terminates on both paths: from a closed peer, in any interleaving with the callers, the
      pump and the closer make at most Rank(s) steps, and while there are steps left to make before the
      token is posted one of them is enabled. */
  lemma {:induction false} ShutdownTerminates(s: State, ls: seq<Label>)
    requires ShutdownOk(s) && s.sh.closed && IsRun(s, ls)
    ensures var s' := After(s, ls);
            && SystemSteps(ls) + Rank(s') <= Rank(s)
            && (s'.closer == Finished || exists l :: SystemStep(l) && Enabled(s', l))
    decreases |ls|
  {
    if ls == [] {
      if s.closer != Finished {
        var l := SystemCanMove(s);
      }
    } else {
      RankFalls(s, ls[0]);
      StepShutdown(s, ls[0]);
      ShutdownTerminates(Next(s, ls[0]), ls[1..]);
    }
  }
}
