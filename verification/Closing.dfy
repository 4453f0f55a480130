/** _finish_close when nobody interrupts it: in whatever order the closer walks its lists, it leaves what the
    loops over the lists leave. */
module Closing {
  import opened RakTypes
  import opened PeerState
  import opened Protocol
  import opened Shutdown
  import opened Sweep

  /** c, when the closer is at k: untouched, flagged, or flagged and closed. */
  function ConnNow(a: Shared, k: Closer, snap: Snapshot, why: CloseReason, c: ConnId): Conn
    requires c < |a.conns|
  {
    if k.SealConn? && c == k.c then a.conns[c].(closed := true)
    else if c !in snap.conns || c in ConnsLeft(k, snap.conns) then a.conns[c]
    else a.conns[c].(closed := true, box := a.conns[c].box.Close(why))
  }

  function PendNow(a: Shared, k: Closer, snap: Snapshot, p: PendId): Pending
    requires p < |a.pends|
  {
    if k.SignalPend? && p == k.p then a.pends[p].(reason := Some(AttemptFailed))
    else if p !in snap.pends || p in PendsLeft(k, snap.pends) then a.pends[p]
    else a.pends[p].(reason := Some(AttemptFailed), event := true)
  }

  function PingNow(a: Shared, k: Closer, snap: Snapshot, q: PingId): PendingPing
    requires q < |a.pings|
  {
    if q !in snap.pings || q in PingsLeft(k, snap.pings) then a.pings[q] else a.pings[q].(event := true)
  }

  /** The loop variables: no element is left to do twice, and none is from outside the snapshot. */
  predicate LoopOk(k: Closer, snap: Snapshot) {
    && ConnsLeft(k, snap.conns) <= snap.conns && PendsLeft(k, snap.pends) <= snap.pends
    && PingsLeft(k, snap.pings) <= snap.pings
    && (k.SealConn? ==> k.c !in k.conns) && (k.SignalPend? ==> k.p !in k.pends)
  }

  /** What the closer has made of the shared state that it found open. */
  ghost predicate PartlySwept(a: Shared, sh: Shared, k: Closer, snap: Snapshot, why: CloseReason) {
    && LoopOk(k, snap) && CloserIds(sh, k)
    && sh == a.(closed := true, connections := map[], pendingConnects := map[], pendingPings := map[],
                conns := sh.conns, pends := sh.pends, pings := sh.pings,
                acceptQueue := if k.Finished? then a.acceptQueue + [None] else a.acceptQueue)
    && |sh.conns| == |a.conns| && |sh.pends| == |a.pends| && |sh.pings| == |a.pings|
    && (forall c :: 0 <= c < |a.conns| ==> sh.conns[c] == ConnNow(a, k, snap, why, c))
    && (forall p :: 0 <= p < |a.pends| ==> sh.pends[p] == PendNow(a, k, snap, p))
    && (forall q :: 0 <= q < |a.pings| ==> sh.pings[q] == PingNow(a, k, snap, q))
  }

  lemma MarkLoop(a: Shared, sh: Shared, k: Closer, snap: Snapshot, why: CloseReason, pick: nat)
    requires PartlySwept(a, sh, k, snap, why) && k.MarkConns?
    requires pick in k.conns
    ensures var (sh', k') := CloserStep(sh, k, snap, why, pick); PartlySwept(a, sh', k', snap, why)
  {
  }

  lemma MarkDone(a: Shared, sh: Shared, snap: Snapshot, why: CloseReason)
    requires PartlySwept(a, sh, MarkConns({}), snap, why) && SetIds(sh, snap.conns, snap.pends, snap.pings)
    ensures PartlySwept(a, sh, ExplainPends(snap.pends), snap, why)
  {
  }

  lemma SealLoop(a: Shared, sh: Shared, k: Closer, snap: Snapshot, why: CloseReason, pick: nat)
    requires PartlySwept(a, sh, k, snap, why) && k.SealConn?
    ensures var (sh', k') := CloserStep(sh, k, snap, why, pick); PartlySwept(a, sh', k', snap, why)
  {
  }

  lemma PendLoop(a: Shared, sh: Shared, k: Closer, snap: Snapshot, why: CloseReason, pick: nat)
    requires PartlySwept(a, sh, k, snap, why) && (k.ExplainPends? || k.SignalPend?)
    requires k.ExplainPends? && k.pends != {} ==> pick in k.pends
    requires SetIds(sh, snap.conns, snap.pends, snap.pings)
    ensures var (sh', k') := CloserStep(sh, k, snap, why, pick); PartlySwept(a, sh', k', snap, why)
  {
  }

  lemma PingLoop(a: Shared, sh: Shared, k: Closer, snap: Snapshot, why: CloseReason, pick: nat)
    requires PartlySwept(a, sh, k, snap, why) && (k.RingPings? || k.Posting? || k.ShuttingDown?)
    requires k.RingPings? && k.pings != {} ==> pick in k.pings
    requires SetIds(sh, snap.conns, snap.pends, snap.pings)
    ensures var (sh', k') := CloserStep(sh, k, snap, why, pick); PartlySwept(a, sh', k', snap, why)
  {
  }

  predicate OnlyCloser(ls: seq<Label>) {
    forall i :: 0 <= i < |ls| ==> ls[i].CloserGo?
  }

  lemma CloserNextSweeps(a: Shared, s: State, pick: nat)
    requires WellFormed(s) && CloserEnabled(s, pick) && s.closer != Joining
    requires PartlySwept(a, s.sh, s.closer, s.snap, PeerReason(s))
    ensures var s' := CloserNext(s, pick);
            && s'.snap == s.snap && s'.byPump == s.byPump && s'.closer != Joining
            && PartlySwept(a, s'.sh, s'.closer, s'.snap, PeerReason(s'))
  {
    if s.closer == MarkConns({}) {
      MarkDone(a, s.sh, s.snap, PeerReason(s));
    } else if s.closer.MarkConns? {
      MarkLoop(a, s.sh, s.closer, s.snap, PeerReason(s), pick);
    } else if s.closer.SealConn? {
      SealLoop(a, s.sh, s.closer, s.snap, PeerReason(s), pick);
    } else if s.closer.ExplainPends? || s.closer.SignalPend? {
      PendLoop(a, s.sh, s.closer, s.snap, PeerReason(s), pick);
    } else {
      PingLoop(a, s.sh, s.closer, s.snap, PeerReason(s), pick);
    }
  }

  lemma {:induction false} CloserRunSweeps(a: Shared, s: State, ls: seq<Label>)
    requires IsRun(s, ls) && OnlyCloser(ls) && s.closer != Joining
    requires PartlySwept(a, s.sh, s.closer, s.snap, PeerReason(s))
    ensures var s' := After(s, ls);
            s'.snap == s.snap && PartlySwept(a, s'.sh, s'.closer, s'.snap, PeerReason(s))
    decreases |ls|
  {
    if ls != [] {
      assert ls[0].CloserGo?;
      assert forall i :: 0 <= i < |ls[1..]| ==> ls[1..][i] == ls[i + 1];
      CloserNextSweeps(a, s, ls[0].pick);
      CloserRunSweeps(a, Next(s, ls[0]), ls[1..]);
    }
  }

  /** s is a state in which a peer with the shared state a has just been closed, and the closer is about to
      shut RakNet down. */
  predicate JustClosed(a: Shared, s: State) {
    && s.sh == a.(closed := true, connections := map[], pendingConnects := map[], pendingPings := map[])
    && s.snap == Snapshot(a.connections.Values, a.pendingConnects.Values, a.pendingPings.Values)
    && s.closer == ShuttingDown
  }

  /** Whatever elements the closer picks, once it is done exactly the objects that were in the tables have been
      closed with PeerClosed, or after a crash with PumpCrashed, failed, or signalled; the tables are empty, one
      token is posted, and nothing else has changed. */
  lemma FinishCloseSweeps(a: Shared, s: State, ls: seq<Label>)
    requires JustClosed(a, s) && IsRun(s, ls) && OnlyCloser(ls) && After(s, ls).closer == Finished
    ensures Swept(a, After(s, ls).sh, if s.byPump then PumpCrashed else PeerClosed)
  {
    CloserRunSweeps(a, s, ls);
  }
}
