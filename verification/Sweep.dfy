/** The loops of _finish_close over the lists of a snapshot, as folds. */
module Sweep {
  import opened RakTypes
  import opened PeerState

  function SweepConns(sh: Shared, cs: seq<ConnId>, why: CloseReason): (r: Shared)
    requires forall i :: 0 <= i < |cs| ==> cs[i] < |sh.conns|
    ensures |r.conns| == |sh.conns| && r.pends == sh.pends && r.pings == sh.pings
  {
    if cs == [] then sh
    else
      var sh' := SweepConns(sh, cs[..|cs| - 1], why);
      Seal(MarkClosed(sh', cs[|cs| - 1]), cs[|cs| - 1], why)
  }

  function SweepPends(sh: Shared, ps: seq<PendId>): (r: Shared)
    requires forall i :: 0 <= i < |ps| ==> ps[i] < |sh.pends|
    ensures |r.pends| == |sh.pends| && r.conns == sh.conns && r.pings == sh.pings
  {
    if ps == [] then sh
    else
      var sh' := SweepPends(sh, ps[..|ps| - 1]);
      Signal(Explain(sh', ps[|ps| - 1], AttemptFailed), ps[|ps| - 1])
  }

  function SweepPings(sh: Shared, qs: seq<PingId>): (r: Shared)
    requires forall i :: 0 <= i < |qs| ==> qs[i] < |sh.pings|
    ensures |r.pings| == |sh.pings| && r.conns == sh.conns && r.pends == sh.pends
  {
    if qs == [] then sh else Ring(SweepPings(sh, qs[..|qs| - 1]), qs[|qs| - 1])
  }

  lemma NextConn(sh: Shared, cs: seq<ConnId>, i: nat, why: CloseReason)
    requires i < |cs| && forall j :: 0 <= j < |cs| ==> cs[j] < |sh.conns|
    ensures SweepConns(sh, cs[..i + 1], why) == Seal(MarkClosed(SweepConns(sh, cs[..i], why), cs[i]), cs[i], why)
  {
    assert cs[..i + 1][..i] == cs[..i];
  }

  lemma NextPend(sh: Shared, ps: seq<PendId>, i: nat)
    requires i < |ps| && forall j :: 0 <= j < |ps| ==> ps[j] < |sh.pends|
    ensures SweepPends(sh, ps[..i + 1]) == Signal(Explain(SweepPends(sh, ps[..i]), ps[i], AttemptFailed), ps[i])
  {
    assert ps[..i + 1][..i] == ps[..i];
  }

  lemma NextPing(sh: Shared, qs: seq<PingId>, i: nat)
    requires i < |qs| && forall j :: 0 <= j < |qs| ==> qs[j] < |sh.pings|
    ensures SweepPings(sh, qs[..i + 1]) == Ring(SweepPings(sh, qs[..i]), qs[i])
  {
    assert qs[..i + 1][..i] == qs[..i];
  }

  // ---- What the loops leave behind, whatever the order of the lists ----

  lemma {:induction false} ConnsSwept(sh: Shared, cs: seq<ConnId>, why: CloseReason)
    requires forall i :: 0 <= i < |cs| ==> cs[i] < |sh.conns|
    ensures SweepConns(sh, cs, why) == sh.(conns := SweepConns(sh, cs, why).conns)
    ensures forall c :: 0 <= c < |sh.conns| ==>
              SweepConns(sh, cs, why).conns[c] ==
              (if c in cs then sh.conns[c].(closed := true, box := sh.conns[c].box.Close(why)) else sh.conns[c])
  {
    if cs != [] {
      ConnsSwept(sh, cs[..|cs| - 1], why);
      assert forall c :: c in cs <==> c in cs[..|cs| - 1] || c == cs[|cs| - 1];
    }
  }

  lemma {:induction false} PendsSwept(sh: Shared, ps: seq<PendId>)
    requires forall i :: 0 <= i < |ps| ==> ps[i] < |sh.pends|
    ensures SweepPends(sh, ps) == sh.(pends := SweepPends(sh, ps).pends)
    ensures forall p :: 0 <= p < |sh.pends| ==>
              SweepPends(sh, ps).pends[p] ==
              (if p in ps then sh.pends[p].(reason := Some(AttemptFailed), event := true) else sh.pends[p])
  {
    if ps != [] {
      PendsSwept(sh, ps[..|ps| - 1]);
      assert forall p :: p in ps <==> p in ps[..|ps| - 1] || p == ps[|ps| - 1];
    }
  }

  lemma {:induction false} PingsSwept(sh: Shared, qs: seq<PingId>)
    requires forall i :: 0 <= i < |qs| ==> qs[i] < |sh.pings|
    ensures SweepPings(sh, qs) == sh.(pings := SweepPings(sh, qs).pings)
    ensures forall q :: 0 <= q < |sh.pings| ==>
              SweepPings(sh, qs).pings[q] == (if q in qs then sh.pings[q].(event := true) else sh.pings[q])
  {
    if qs != [] {
      PingsSwept(sh, qs[..|qs| - 1]);
      assert forall q :: q in qs <==> q in qs[..|qs| - 1] || q == qs[|qs| - 1];
    }
  }

  /** The peer is closed, its tables are empty, the token is posted, exactly the objects that were in a
      table are closed or signalled, and nothing else changed. */
  ghost predicate Swept(a: Shared, b: Shared, why: CloseReason) {
    && b == a.(closed := true, connections := map[], pendingConnects := map[], pendingPings := map[],
               conns := b.conns, pends := b.pends, pings := b.pings, acceptQueue := a.acceptQueue + [None])
    && |b.conns| == |a.conns| && |b.pends| == |a.pends| && |b.pings| == |a.pings|
    && (forall c :: 0 <= c < |a.conns| ==>
          b.conns[c] == (if c in a.connections.Values
                         then a.conns[c].(closed := true, box := a.conns[c].box.Close(why)) else a.conns[c]))
    && (forall p :: 0 <= p < |a.pends| ==>
          b.pends[p] == (if p in a.pendingConnects.Values
                         then a.pends[p].(reason := Some(AttemptFailed), event := true) else a.pends[p]))
    && (forall q :: 0 <= q < |a.pings| ==>
          b.pings[q] == (if q in a.pendingPings.Values then a.pings[q].(event := true) else a.pings[q]))
  }

  function SweepAll(sh: Shared, cs: seq<ConnId>, ps: seq<PendId>, qs: seq<PingId>, why: CloseReason): Shared
    requires forall i :: 0 <= i < |cs| ==> cs[i] < |sh.conns|
    requires forall i :: 0 <= i < |ps| ==> ps[i] < |sh.pends|
    requires forall i :: 0 <= i < |qs| ==> qs[i] < |sh.pings|
  {
    PostToken(SweepPings(SweepPends(SweepConns(BeginClose(sh), cs, why), ps), qs))
  }

  lemma SweepIsSwept(sh: Shared, cs: seq<ConnId>, ps: seq<PendId>, qs: seq<PingId>, why: CloseReason)
    requires forall i :: 0 <= i < |cs| ==> cs[i] < |sh.conns|
    requires forall i :: 0 <= i < |ps| ==> ps[i] < |sh.pends|
    requires forall i :: 0 <= i < |qs| ==> qs[i] < |sh.pings|
    requires forall c :: c in cs <==> c in sh.connections.Values
    requires forall p :: p in ps <==> p in sh.pendingConnects.Values
    requires forall q :: q in qs <==> q in sh.pendingPings.Values
    ensures Swept(sh, SweepAll(sh, cs, ps, qs, why), why)
  {
    var s1 := SweepConns(BeginClose(sh), cs, why);
    var s2 := SweepPends(s1, ps);
    ConnsSwept(BeginClose(sh), cs, why);
    PendsSwept(s1, ps);
    PingsSwept(s2, qs);
  }
}
