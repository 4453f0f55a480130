/** The peer as a transition system: one pump thread, any number of caller threads and the closer. A
    label is one atomic step of one thread: a region under the peer's lock, a mailbox or queue
    operation, or a single write outside any lock. RakNet chooses what receive returns. */
module Protocol {
  import opened RakTypes
  import opened PeerState

  /** What the pump does next. */
  datatype Pump =
    | AtCheck                                   // while not self._closed
    | AtReceive
    | Routing(event: Event)                     // a sink callback is entered
    | Enqueueing(c: ConnId)
    | Establishing(p: PendId, g: Guid)
    | Attaching(p: PendId, c: ConnId)
    | Explaining(p: PendId, failure: ConnectFailure)
    | Signalling(p: PendId)
    | Offering(c: ConnId, data: Bytes)
    | Overflowing(c: ConnId)
    | Marking(c: ConnId, why: CloseReason)
    | Sealing(c: ConnId, why: CloseReason)
    | Ponging(q: PingId, pong: Pong)
    | RingingPing(q: PingId)
    | Crashed                                   // an exception reached _pump_loop
    | Finishing                                 // the pump itself runs _finish_close
    | Stopped

  /** What the winner of _begin_close does next. */
  datatype Closer =
    | NoCloser
    | Joining                                   // self._pump.join()
    | ShuttingDown                              // self._raw.shutdown(...)
    | MarkConns(conns: set<ConnId>)
    | SealConn(c: ConnId, conns: set<ConnId>)
    | ExplainPends(pends: set<PendId>)
    | SignalPend(p: PendId, pends: set<PendId>)
    | RingPings(pings: set<PingId>)
    | Posting
    | Finished

  /** What an application thread does next. */
  datatype App =
    | Idle
    | Connecting(k: Address)
    | Starting(k: Address, p: PendId)           // self._raw.connect(...)
    | Undoing(k: Address, p: PendId)
    | Waiting(k: Address, p: PendId)            // pending.event.wait(timeout)
    | Abandoning(k: Address, p: PendId)
    | Reaping(p: PendId)                        // pending.event.wait()
    | Collecting(p: PendId)                     // _finish_connect
    | Testing(c: ConnId, reap: Option<PendId>)  // Connection.close; reap: on behalf of a timed-out connect
    | Dropping(c: ConnId, reap: Option<PendId>)
    | Flagging(c: ConnId, reap: Option<PendId>)
    | Shutting(c: ConnId, reap: Option<PendId>)
    | Pinging(k: Address)
    | PingStarting(k: Address, q: PingId)
    | PingUndoing(k: Address)
    | PingWaiting(k: Address, q: PingId)
    | PingCollecting(q: PingId)                 // _finish_ping
    | Accepting
    | HoldingToken                              // accept took None and has not put it back yet
    | ClosingPeer
    | AwaitingClose                             // won _begin_close

  datatype Snapshot = Snapshot(conns: set<ConnId>, pends: set<PendId>, pings: set<PingId>)

  datatype State = State(
    sh: Shared,
    pump: Pump,
    closer: Closer,
    byPump: bool,               // the closer is the pump, through _fail
    snap: Snapshot,             // what _begin_close returned
    threads: seq<App>,
    // history
    lateRoutes: nat,            // route calls completed after _begin_close
    wins: nat,                  // calls of _begin_close that returned a snapshot
    finishes: nat)              // calls of _finish_close that ran to the end

  datatype Received = Nothing | Raised | Packet(event: Option<Event>)

  datatype Call = CallConnect(k: Address) | CallPing(k: Address) | CallAccept | CallClose(c: ConnId) | CallClosePeer

  datatype Label =
    | PumpGo
    | PumpReceive(r: Received)
    | CloserGo(pick: nat)
    | Begin(t: nat, call: Call)
    | AppGo(t: nat, ok: bool)   // ok is false when a timed wait gives up or a raw call fails
    | Recv(c: ConnId)

  predicate Initial(s: State) {
    && s.sh == Fresh(s.sh.maxQueue)
    && s.pump == AtCheck && s.closer == NoCloser && !s.byPump && s.snap == Snapshot({}, {}, {})
    && (forall t :: 0 <= t < |s.threads| ==> s.threads[t] == Idle)
    && s.lateRoutes == s.wins == s.finishes == 0
  }

  // ---- Identifiers held by program counters exist ----

  predicate PumpIds(sh: Shared, p: Pump) {
    match p
    case Enqueueing(c) => IsConn(sh, c)
    case Establishing(q, _) => IsPend(sh, q)
    case Attaching(q, c) => IsPend(sh, q) && IsConn(sh, c)
    case Explaining(q, _) => IsPend(sh, q)
    case Signalling(q) => IsPend(sh, q)
    case Offering(c, _) => IsConn(sh, c)
    case Overflowing(c) => IsConn(sh, c)
    case Marking(c, _) => IsConn(sh, c)
    case Sealing(c, _) => IsConn(sh, c)
    case Ponging(q, _) => IsPing(sh, q)
    case RingingPing(q) => IsPing(sh, q)
    case _ => true
  }

  predicate SetIds(sh: Shared, conns: set<ConnId>, pends: set<PendId>, pings: set<PingId>) {
    && (forall c :: c in conns ==> IsConn(sh, c))
    && (forall p :: p in pends ==> IsPend(sh, p))
    && (forall q :: q in pings ==> IsPing(sh, q))
  }

  predicate CloserIds(sh: Shared, k: Closer) {
    match k
    case MarkConns(cs) => SetIds(sh, cs, {}, {})
    case SealConn(c, cs) => IsConn(sh, c) && SetIds(sh, cs, {}, {})
    case ExplainPends(ps) => SetIds(sh, {}, ps, {})
    case SignalPend(p, ps) => IsPend(sh, p) && SetIds(sh, {}, ps, {})
    case RingPings(qs) => SetIds(sh, {}, {}, qs)
    case _ => true
  }

  predicate ReapIds(sh: Shared, c: ConnId, reap: Option<PendId>) {
    IsConn(sh, c) && (reap.Some? ==> IsPend(sh, reap.value))
  }

  predicate AppIds(sh: Shared, a: App) {
    match a
    case Starting(_, p) => IsPend(sh, p)
    case Undoing(_, p) => IsPend(sh, p)
    case Waiting(_, p) => IsPend(sh, p)
    case Abandoning(_, p) => IsPend(sh, p)
    case Reaping(p) => IsPend(sh, p) && (sh.pends[p].connection.Some? ==> IsConn(sh, sh.pends[p].connection.value))
    case Collecting(p) => IsPend(sh, p)
    case Testing(c, reap) => ReapIds(sh, c, reap)
    case Dropping(c, reap) => ReapIds(sh, c, reap)
    case Flagging(c, reap) => ReapIds(sh, c, reap)
    case Shutting(c, reap) => ReapIds(sh, c, reap)
    case PingStarting(_, q) => IsPing(sh, q)
    case PingWaiting(_, q) => IsPing(sh, q)
    case PingCollecting(q) => IsPing(sh, q)
    case _ => true
  }

  predicate WellFormed(s: State) {
    && TableIds(s.sh) && PumpIds(s.sh, s.pump) && CloserIds(s.sh, s.closer)
    && SetIds(s.sh, s.snap.conns, s.snap.pends, s.snap.pings)
    && (forall t :: 0 <= t < |s.threads| ==> AppIds(s.sh, s.threads[t]))
  }

  // ---- The pump ----

  /** The first atomic step of a sink callback: the new shared state and where the pump goes. */
  function Enter(sh: Shared, e: Event): (Shared, Pump)
    requires TableIds(sh)
  {
    match e
    case IncomingConnection(_, g) => (Register(sh, g, None), Enqueueing(|sh.conns|))
    case ConnectSucceeded(k, g) =>
      (PopPending(sh, k), if k in sh.pendingConnects then Establishing(sh.pendingConnects[k], g) else AtCheck)
    case ConnectFailed(k, f) =>
      (PopPending(sh, k), if k in sh.pendingConnects then Explaining(sh.pendingConnects[k], f) else AtCheck)
    case Message(g, d) =>
      (LookUp(sh, g, d), if g in sh.connections then Offering(sh.connections[g], d) else AtCheck)
    case Disconnected(g, graceful) =>
      (Evict(sh, g),
       if g in sh.connections then Marking(sh.connections[g], if graceful then RemoteClose else ConnectionLost)
       else AtCheck)
    case PongReceived(k, g, d) =>
      (PopPing(sh, k), if k in sh.pendingPings then Ponging(sh.pendingPings[k], Pong(k, g, d)) else AtCheck)
  }

  /** One deterministic pump step that touches no other thread's program counter. */
  function PumpStep(sh: Shared, p: Pump): (Shared, Pump)
    requires TableIds(sh) && PumpIds(sh, p)
  {
    match p
    case AtCheck => (sh, if sh.closed then Stopped else AtReceive)
    case Routing(e) => Enter(sh, e)
    case Enqueueing(c) => (Enqueue(sh, c), AtCheck)
    case Establishing(q, g) => (Register(sh, g, Some(q)), Attaching(q, |sh.conns|))
    case Attaching(q, c) => (Attach(sh, q, c), Signalling(q))
    case Explaining(q, f) => (Explain(sh, q, f), Signalling(q))
    case Signalling(q) => (Signal(sh, q), AtCheck)
    case Offering(c, d) => (Offer(sh, c, d), if sh.conns[c].box.Full() then Overflowing(c) else AtCheck)
    case Overflowing(c) => (Evict(sh, sh.conns[c].guid), Marking(c, QueueOverflow))
    case Marking(c, why) => (MarkClosed(sh, c), Sealing(c, why))
    case Sealing(c, why) => (Seal(sh, c, why), AtCheck)
    case Ponging(q, pong) => (AttachPong(sh, q, pong), RingingPing(q))
    case RingingPing(q) => (Ring(sh, q), AtCheck)
    case _ => (sh, p)
  }

  /** A route call is in progress. */
  predicate InRoute(p: Pump) {
    !p.AtCheck? && !p.AtReceive? && !p.Crashed? && !p.Finishing? && !p.Stopped?
  }

  function PumpNext(s: State): State
    requires WellFormed(s)
  {
    if s.pump == Crashed then
      if s.sh.closed then s.(pump := Stopped)
      else WinClose(s, true).(pump := Finishing, closer := ShuttingDown)
    else
      var (sh', pump') := PumpStep(s.sh, s.pump);
      s.(sh := sh', pump := pump',
         lateRoutes := if InRoute(s.pump) && !InRoute(pump') && s.sh.closed then s.lateRoutes + 1 else s.lateRoutes)
  }

  function PumpReceived(s: State, r: Received): State {
    match r
    case Nothing => s.(pump := AtCheck)
    case Raised => s.(pump := Crashed)
    case Packet(None) => s.(pump := AtCheck, lateRoutes := if s.sh.closed then s.lateRoutes + 1 else s.lateRoutes)
    case Packet(Some(e)) => s.(pump := Routing(e))
  }

  // ---- The closer ----

  /** _begin_close on an open peer: the snapshot and the cleared tables. */
  function WinClose(s: State, byPump: bool): State {
    s.(sh := BeginClose(s.sh), byPump := byPump, wins := s.wins + 1,
       snap := Snapshot(s.sh.connections.Values, s.sh.pendingConnects.Values, s.sh.pendingPings.Values))
  }

  function PeerReason(s: State): CloseReason {
    if s.byPump then PumpCrashed else PeerClosed
  }

  /** Whether the closer has a next step, taking the given element of its loop. */
  predicate CloserEnabled(s: State, pick: nat) {
    match s.closer
    case NoCloser => false
    case Finished => false
    case Joining => s.pump == Stopped
    case MarkConns(cs) => cs != {} ==> pick in cs
    case ExplainPends(ps) => ps != {} ==> pick in ps
    case RingPings(qs) => qs != {} ==> pick in qs
    case _ => true
  }

  /** One step of the closer: the new shared state and where the closer goes. */
  function CloserStep(sh: Shared, k: Closer, snap: Snapshot, why: CloseReason, pick: nat): (Shared, Closer)
    requires CloserIds(sh, k)
    requires k.MarkConns? && k.conns != {} ==> pick in k.conns
    requires k.ExplainPends? && k.pends != {} ==> pick in k.pends
    requires k.RingPings? && k.pings != {} ==> pick in k.pings
  {
    match k
    case Joining => (sh, ShuttingDown)
    case ShuttingDown => (sh, MarkConns(snap.conns))
    case MarkConns(cs) =>
      if cs == {} then (sh, ExplainPends(snap.pends)) else (MarkClosed(sh, pick), SealConn(pick, cs - {pick}))
    case SealConn(c, cs) => (Seal(sh, c, why), MarkConns(cs))
    case ExplainPends(ps) =>
      if ps == {} then (sh, RingPings(snap.pings))
      else (Explain(sh, pick, AttemptFailed), SignalPend(pick, ps - {pick}))
    case SignalPend(p, ps) => (Signal(sh, p), ExplainPends(ps))
    case RingPings(qs) => if qs == {} then (sh, Posting) else (Ring(sh, pick), RingPings(qs - {pick}))
    case Posting => (PostToken(sh), Finished)
    case NoCloser => (sh, NoCloser)
    case Finished => (sh, Finished)
  }

  function CloserNext(s: State, pick: nat): State
    requires WellFormed(s) && CloserEnabled(s, pick)
  {
    var (sh', k') := CloserStep(s.sh, s.closer, s.snap, PeerReason(s), pick);
    var s' := s.(sh := sh', closer := k');
    if k' == Finished then Return(s') else s'
  }

  /** _finish_close is over: the thread that ran it goes on. */
  function Return(s: State): State {
    s.(finishes := s.finishes + 1,
       pump := if s.pump == Finishing then Stopped else s.pump,
       threads := seq(|s.threads|, t requires 0 <= t < |s.threads| =>
         if s.threads[t] == AwaitingClose then Idle else s.threads[t]))
  }

  // ---- Application threads ----

  function BeginNext(s: State, t: nat, call: Call): State
    requires t < |s.threads|
  {
    s.(threads := s.threads[t :=
      match call
      case CallConnect(k) => if s.sh.closed then Idle else Connecting(k)
      case CallPing(k) => if s.sh.closed then Idle else Pinging(k)
      case CallAccept => if s.sh.closed then Idle else Accepting
      case CallClose(c) => Testing(c, None)
      case CallClosePeer => ClosingPeer])
  }

  predicate AppEnabled(s: State, t: nat, ok: bool) {
    && t < |s.threads|
    && match s.threads[t]
       case Idle => false
       case AwaitingClose => false
       case Waiting(_, p) => ok ==> IsPend(s.sh, p) && s.sh.pends[p].event
       case Reaping(p) => IsPend(s.sh, p) && s.sh.pends[p].event
       case PingWaiting(_, q) => ok ==> IsPing(s.sh, q) && s.sh.pings[q].event
       case Accepting => ok ==> s.sh.acceptQueue != []
       case _ => true
  }

  /** A timed-out connect raises TimeoutError once the connection it reaps is closed. */
  function Reaped(sh: Shared, reap: Option<PendId>): Shared
    requires reap.Some? ==> IsPend(sh, reap.value)
  {
    if reap.Some? then TimeOut(sh, reap.value) else sh
  }

  /** One step of a thread: the new shared state and program counter. */
  function AppStep(sh: Shared, t: nat, a: App, ok: bool): (Shared, App)
    requires TableIds(sh) && AppIds(sh, a)
    requires a.Accepting? && ok ==> sh.acceptQueue != []
  {
    match a
    case Connecting(k) => if sh.closed then (sh, Idle) else (AddPending(sh, k, t), Starting(k, |sh.pends|))
    case Starting(k, p) => (sh, if ok then Waiting(k, p) else Undoing(k, p))
    case Undoing(k, p) => (PopPending(sh, k), Idle)
    case Waiting(k, p) => (sh, if ok then Collecting(p) else Abandoning(k, p))
    case Abandoning(k, p) =>
      if k in sh.pendingConnects then (TimeOut(PopPending(sh, k), p), Idle) else (PopPending(sh, k), Reaping(p))
    case Reaping(p) =>
      if sh.pends[p].connection.Some? then (sh, Testing(sh.pends[p].connection.value, Some(p)))
      else (TimeOut(sh, p), Idle)
    case Collecting(p) => (sh, Idle)
    case Testing(c, reap) => if sh.conns[c].closed then (Reaped(sh, reap), Idle) else (sh, Dropping(c, reap))
    case Dropping(c, reap) => (Evict(sh, sh.conns[c].guid), Flagging(c, reap))
    case Flagging(c, reap) => (MarkClosed(sh, c), Shutting(c, reap))
    case Shutting(c, reap) => (Reaped(Seal(sh, c, LocalClose), reap), Idle)
    case Pinging(k) => if sh.closed then (sh, Idle) else (AddPing(sh, k), PingStarting(k, |sh.pings|))
    case PingStarting(k, q) => (sh, if ok then PingWaiting(k, q) else PingUndoing(k))
    case PingUndoing(k) => (PopPing(sh, k), Idle)
    case PingWaiting(k, q) => (sh, if ok then PingCollecting(q) else PingUndoing(k))
    case PingCollecting(q) => (sh, Idle)
    case Accepting =>
      if ok then (Dequeue(sh), if sh.acceptQueue[0].Some? then Idle else HoldingToken) else (sh, Idle)
    case HoldingToken => (PostToken(sh), Idle)
    case _ => (sh, a)
  }

  function AppNext(s: State, t: nat, ok: bool): State
    requires WellFormed(s) && AppEnabled(s, t, ok)
  {
    if s.threads[t] == ClosingPeer then
      if s.sh.closed then s.(threads := s.threads[t := Idle])
      else WinClose(s, false).(closer := Joining, threads := s.threads[t := AwaitingClose])
    else
      var (sh', a') := AppStep(s.sh, t, s.threads[t], ok);
      s.(sh := sh', threads := s.threads[t := a'])
  }

  // ---- Steps and runs ----

  predicate Enabled(s: State, l: Label) {
    && WellFormed(s)
    && match l
       case PumpGo => !s.pump.AtReceive? && !s.pump.Finishing? && !s.pump.Stopped?
       case PumpReceive(_) => s.pump.AtReceive?
       case CloserGo(pick) => CloserEnabled(s, pick)
       case Begin(t, call) =>
         t < |s.threads| && s.threads[t] == Idle && (call.CallClose? ==> IsConn(s.sh, call.c))
       case AppGo(t, ok) => AppEnabled(s, t, ok)
       case Recv(c) => IsConn(s.sh, c) && s.sh.conns[c].box.items != []
  }

  function Next(s: State, l: Label): State
    requires Enabled(s, l)
  {
    match l
    case PumpGo => PumpNext(s)
    case PumpReceive(r) => PumpReceived(s, r)
    case CloserGo(pick) => CloserNext(s, pick)
    case Begin(t, call) => BeginNext(s, t, call)
    case AppGo(t, ok) => AppNext(s, t, ok)
    case Recv(c) => s.(sh := Receive(s.sh, c))
  }

  ghost predicate IsRun(s: State, ls: seq<Label>)
    decreases |ls|
  {
    ls == [] || (Enabled(s, ls[0]) && IsRun(Next(s, ls[0]), ls[1..]))
  }

  ghost function After(s: State, ls: seq<Label>): State
    requires IsRun(s, ls)
    decreases |ls|
  {
    if ls == [] then s else After(Next(s, ls[0]), ls[1..])
  }

  lemma {:induction false} RunConcat(s: State, a: seq<Label>, b: seq<Label>)
    requires IsRun(s, a) && IsRun(After(s, a), b)
    ensures IsRun(s, a + b) && After(s, a + b) == After(After(s, a), b)
    decreases |a|
  {
    if a == [] {
      assert a + b == b;
    } else {
      var c := a + b;
      assert c[0] == a[0] && c[1..] == a[1..] + b;
      RunConcat(Next(s, a[0]), a[1..], b);
    }
  }
}
