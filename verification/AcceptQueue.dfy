/** The accept queue of the sync API: incoming connections in order, and one close token that every
    accept which meets it puts back. */
module AcceptQueue {
  import opened RakTypes
  import opened PeerState
  import opened Protocol
  import opened Coherence
  import opened Shutdown

  /** The incoming connections among the first objects created, in order of creation. */
  function Incoming(conns: seq<Conn>): seq<ConnId> {
    if conns == [] then []
    else Incoming(conns[..|conns| - 1]) + (if conns[|conns| - 1].origin.None? then [|conns| - 1] else [])
  }

  function Somes(cs: seq<ConnId>): seq<Option<ConnId>> {
    seq(|cs|, i requires 0 <= i < |cs| => Some(cs[i]))
  }

  predicate Holding(s: State, t: nat) {
    t < |s.threads| && s.threads[t] == HoldingToken
  }

  predicate SomeHolder(s: State) {
    exists t: nat :: t < |s.threads| && Holding(s, t)
  }

  function OnItsWay(p: Pump): seq<ConnId> {
    if p.Enqueueing? then [p.c] else []
  }

  /** Every incoming connection was put on the queue in order, or is about to be. */
  ghost predicate ArrivalsOk(sh: Shared, p: Pump) {
    sh.arrived + OnItsWay(p) == Incoming(sh.conns)
  }

  /** The connections not accepted yet, and the token once it is posted. */
  function Unaccepted(s: State): seq<Option<ConnId>>
    requires |s.sh.accepted| <= |s.sh.arrived|
  {
    Somes(s.sh.arrived[|s.sh.accepted|..]) + (if s.closer == Finished then [None] else [])
  }

  /** The queue is the connections not accepted yet followed by the token, which is in exactly one
      place once _finish_close has posted it. */
  ghost predicate QueueOk(s: State) {
    && s.sh.accepted <= s.sh.arrived
    && (SomeHolder(s) ==> s.closer == Finished && s.sh.acceptQueue == [] && s.sh.accepted == s.sh.arrived)
    && (!SomeHolder(s) ==> s.sh.acceptQueue == Unaccepted(s))
    && (forall t: nat, u: nat :: t < u && Holding(s, t) ==> !Holding(s, u))
  }

  ghost predicate AcceptOk(s: State) {
    ArrivalsOk(s.sh, s.pump) && QueueOk(s)
  }

  // ---- Arrivals ----

  lemma {:induction false} SameIncoming(a: seq<Conn>, b: seq<Conn>)
    requires |a| == |b| && forall c :: 0 <= c < |a| ==> a[c].origin == b[c].origin
    ensures Incoming(a) == Incoming(b)
  {
    if a != [] {
      SameIncoming(a[..|a| - 1], b[..|b| - 1]);
    }
  }

  lemma {:induction false} IncomingBelow(conns: seq<Conn>)
    ensures forall i :: 0 <= i < |Incoming(conns)| ==> Incoming(conns)[i] < |conns|
    ensures forall i, j :: 0 <= i < j < |Incoming(conns)| ==> Incoming(conns)[i] < Incoming(conns)[j]
    ensures forall c :: 0 <= c < |conns| ==> (c in Incoming(conns) <==> conns[c].origin.None?)
  {
    if conns != [] {
      IncomingBelow(conns[..|conns| - 1]);
    }
  }

  lemma ArrivalsFrame(a: Shared, b: Shared, p: Pump, p': Pump)
    requires ArrivalsOk(a, p) && Evolves(a, b) && |a.conns| == |b.conns| && a.arrived == b.arrived
    requires OnItsWay(p') == OnItsWay(p)
    ensures ArrivalsOk(b, p')
  {
    forall c | 0 <= c < |a.conns| ensures a.conns[c].origin == b.conns[c].origin {
      assert ConnEvolves(a.conns[c], b.conns[c]);
    }
    SameIncoming(a.conns, b.conns);
  }

  /** What a pump step does to the accept queue and to the objects. */
  lemma PumpLeaves(sh: Shared, p: Pump)
    requires TableIds(sh) && PumpIds(sh, p)
    requires !p.Enqueueing? && !p.Establishing? && !(p.Routing? && p.event.IncomingConnection?)
    ensures var (sh', p') := PumpStep(sh, p);
            |sh'.conns| == |sh.conns| && OnItsWay(p') == OnItsWay(p) && sh'.arrived == sh.arrived
  {
  }

  lemma RegisterArrivals(sh: Shared, g: Guid, origin: Option<PendId>)
    ensures Incoming(Register(sh, g, origin).conns) == Incoming(sh.conns) + (if origin.None? then [|sh.conns|] else [])
  {
    assert Register(sh, g, origin).conns[..|sh.conns|] == sh.conns;
  }

  lemma PumpArrivals(sh: Shared, p: Pump)
    requires TableOk(sh) && PumpOk(sh, p) && ArrivalsOk(sh, p)
    ensures var (sh', p') := PumpStep(sh, p); ArrivalsOk(sh', p')
  {
    var (sh', p') := PumpStep(sh, p);
    if p.Establishing? {
      RegisterArrivals(sh, p.g, Some(p.p));
    } else if p.Routing? && p.event.IncomingConnection? {
      RegisterArrivals(sh, p.event.guid, None);
    } else if !p.Enqueueing? {
      PumpStepOk(sh, p);
      PumpLeaves(sh, p);
      ArrivalsFrame(sh, sh', p, p');
    }
  }

  lemma StepArrivals(s: State, l: Label)
    requires ShutdownOk(s) && ArrivalsOk(s.sh, s.pump) && Enabled(s, l)
    ensures ArrivalsOk(Next(s, l).sh, Next(s, l).pump)
  {
    StepCoherent(s, l);
    var s' := Next(s, l);
    if l.PumpGo? && s.pump != Crashed {
      PumpArrivals(s.sh, s.pump);
    } else {
      QuietArrivals(s, l);
      ArrivalsFrame(s.sh, s'.sh, s.pump, s'.pump);
    }
  }

  lemma QuietArrivals(s: State, l: Label)
    requires Enabled(s, l) && !(l.PumpGo? && s.pump != Crashed)
    ensures var s' := Next(s, l);
            && |s'.sh.conns| == |s.sh.conns| && s'.sh.arrived == s.sh.arrived
            && OnItsWay(s'.pump) == OnItsWay(s.pump)
  {
    if l.AppGo? && s.threads[l.t] != ClosingPeer {
      AppArrivals(s.sh, l.t, s.threads[l.t], l.ok);
    } else if l.CloserGo? {
      CloserArrivals(s, l.pick);
    }
  }

  lemma CloserArrivals(s: State, pick: nat)
    requires WellFormed(s) && CloserEnabled(s, pick)
    ensures var s' := CloserNext(s, pick);
            && |s'.sh.conns| == |s.sh.conns| && s'.sh.arrived == s.sh.arrived
            && OnItsWay(s'.pump) == OnItsWay(s.pump)
  {
    CloserLeavesArrivals(s.sh, s.closer, s.snap, PeerReason(s), pick);
  }

  lemma CloserLeavesArrivals(sh: Shared, k: Closer, snap: Snapshot, why: CloseReason, pick: nat)
    requires CloserIds(sh, k)
    requires k.MarkConns? && k.conns != {} ==> pick in k.conns
    requires k.ExplainPends? && k.pends != {} ==> pick in k.pends
    requires k.RingPings? && k.pings != {} ==> pick in k.pings
    ensures var sh' := CloserStep(sh, k, snap, why, pick).0;
            |sh'.conns| == |sh.conns| && sh'.arrived == sh.arrived
  {
  }

  lemma AppArrivals(sh: Shared, t: nat, a: App, ok: bool)
    requires TableIds(sh) && AppIds(sh, a) && (a.Accepting? && ok ==> sh.acceptQueue != [])
    ensures var sh' := AppStep(sh, t, a, ok).0; |sh'.conns| == |sh.conns| && sh'.arrived == sh.arrived
  {
  }

  // ---- The queue ----

  /** A step that touches neither the queue nor the token. */
  ghost predicate QueueUntouched(s: State, s': State) {
    && s'.sh.acceptQueue == s.sh.acceptQueue && s'.sh.arrived == s.sh.arrived && s'.sh.accepted == s.sh.accepted
    && (s'.closer == Finished <==> s.closer == Finished)
    && |s'.threads| == |s.threads|
    && (forall t: nat :: Holding(s', t) <==> Holding(s, t))
  }

  lemma QueueFrame(s: State, s': State)
    requires QueueOk(s) && QueueUntouched(s, s')
    ensures QueueOk(s')
  {
    assert SomeHolder(s') <==> SomeHolder(s);
  }

  lemma PumpQueue(s: State)
    requires ShutdownOk(s) && QueueOk(s) && Enabled(s, PumpGo)
    ensures QueueOk(PumpNext(s))
  {
    var s' := PumpNext(s);
    assert s'.threads == s.threads;
    assert forall t: nat :: Holding(s', t) <==> Holding(s, t);
    assert SomeHolder(s') <==> SomeHolder(s);
    if s.pump.Enqueueing? {
      var rest := s.sh.arrived[|s.sh.accepted|..];
      assert s'.sh.arrived[|s.sh.accepted|..] == rest + [s.pump.c];
      assert Somes(rest + [s.pump.c]) == Somes(rest) + [Some(s.pump.c)];
    } else {
      if s.pump != Crashed {
        PumpQueueSame(s.sh, s.pump);
      }
      QueueFrame(s, s');
    }
  }

  lemma PumpQueueSame(sh: Shared, p: Pump)
    requires TableIds(sh) && PumpIds(sh, p) && !p.Enqueueing?
    ensures var sh' := PumpStep(sh, p).0;
            sh'.acceptQueue == sh.acceptQueue && sh'.arrived == sh.arrived && sh'.accepted == sh.accepted
  {
  }

  lemma CloserQueue(s: State, pick: nat)
    requires ShutdownOk(s) && QueueOk(s) && CloserEnabled(s, pick)
    ensures QueueOk(CloserNext(s, pick))
  {
    var s' := CloserNext(s, pick);
    assert forall t: nat :: Holding(s', t) <==> Holding(s, t);
    assert SomeHolder(s') <==> SomeHolder(s);
    if s.closer == Posting {
      assert !SomeHolder(s);
    } else {
      QueueFrame(s, s');
    }
  }

  lemma TakeQueue(s: State, t: nat)
    requires ShutdownOk(s) && QueueOk(s) && AppEnabled(s, t, true) && s.threads[t] == Accepting
    ensures QueueOk(AppNext(s, t, true))
  {
    var s' := AppNext(s, t, true);
    var rest := s.sh.arrived[|s.sh.accepted|..];
    assert forall u: nat :: u != t ==> (Holding(s', u) <==> Holding(s, u));
    assert !SomeHolder(s);
    assert forall u: nat :: u < |s.threads| ==> !Holding(s, u);
    if s.sh.acceptQueue[0].Some? {
      assert rest != [] && s.sh.acceptQueue[0] == Some(rest[0]);
      assert s'.sh.arrived[|s'.sh.accepted|..] == rest[1..];
      assert s.sh.acceptQueue[1..] == Somes(rest[1..]) + (if s.closer == Finished then [None] else []);
      assert !Holding(s', t);
      assert !SomeHolder(s');
    } else {
      assert rest == [];
      assert Holding(s', t);
    }
  }

  lemma PutBackQueue(s: State, t: nat, ok: bool)
    requires ShutdownOk(s) && QueueOk(s) && AppEnabled(s, t, ok) && s.threads[t] == HoldingToken
    ensures QueueOk(AppNext(s, t, ok))
  {
    var s' := AppNext(s, t, ok);
    assert Holding(s, t);
    assert forall u: nat :: u != t ==> (Holding(s', u) <==> Holding(s, u));
    assert forall u: nat :: !Holding(s', u) by {
      forall u: nat ensures !Holding(s', u) {
        if u < t { assert !Holding(s, u); } else if u > t { assert !Holding(s, u); }
      }
    }
    assert s.sh.arrived[|s.sh.accepted|..] == [];
  }

  lemma AppQueue(s: State, t: nat, ok: bool)
    requires ShutdownOk(s) && QueueOk(s) && AppEnabled(s, t, ok)
    ensures QueueOk(AppNext(s, t, ok))
  {
    if s.threads[t] == HoldingToken {
      PutBackQueue(s, t, ok);
    } else if s.threads[t] == Accepting && ok {
      TakeQueue(s, t);
    } else {
      AppLeavesQueue(s, t, ok);
      QueueFrame(s, AppNext(s, t, ok));
    }
  }

  lemma AppLeavesQueue(s: State, t: nat, ok: bool)
    requires WellFormed(s) && RolesOk(s) && AppEnabled(s, t, ok)
    requires s.threads[t] != HoldingToken && !(s.threads[t] == Accepting && ok)
    ensures QueueUntouched(s, AppNext(s, t, ok))
  {
    var s' := AppNext(s, t, ok);
    assert s'.threads[t] != HoldingToken;
  }

  lemma StepAccept(s: State, l: Label)
    requires ShutdownOk(s) && AcceptOk(s) && Enabled(s, l)
    ensures AcceptOk(Next(s, l))
  {
    StepArrivals(s, l);
    if l.PumpGo? {
      PumpQueue(s);
    } else if l.CloserGo? {
      CloserQueue(s, l.pick);
    } else if l.AppGo? {
      AppQueue(s, l.t, l.ok);
    } else {
      LocalLeavesQueue(s, l);
      QueueFrame(s, Next(s, l));
    }
  }

  lemma LocalLeavesQueue(s: State, l: Label)
    requires Enabled(s, l) && (l.PumpReceive? || l.Begin? || l.Recv?)
    ensures QueueUntouched(s, Next(s, l))
  {
  }

  lemma {:induction false} AlwaysAcceptOk(s: State, ls: seq<Label>)
    requires ShutdownOk(s) && AcceptOk(s) && IsRun(s, ls)
    ensures AcceptOk(After(s, ls))
    decreases |ls|
  {
    if ls != [] {
      StepAccept(s, ls[0]);
      StepShutdown(s, ls[0]);
      AlwaysAcceptOk(Next(s, ls[0]), ls[1..]);
    }
  }

  function Holders(s: State): set<nat> {
    set t | 0 <= t < |s.threads| && Holding(s, t)
  }

  /** In every run from the start: the connections accepted so far, then those queued, are the incoming
      connections in order of creation (the last one may be about to be queued), so none is accepted
      twice or out of order; the queue holds nothing behind the token; and the tokens in the queue and in
      the hands of acceptors number exactly one after _finish_close and zero before. */
  lemma AcceptBaton(s: State, ls: seq<Label>)
    requires Initial(s) && IsRun(s, ls)
    ensures var s' := After(s, ls);
            && s'.sh.arrived + OnItsWay(s'.pump) == Incoming(s'.sh.conns)
            && s'.sh.accepted <= s'.sh.arrived
            && (SomeHolder(s') || s'.sh.acceptQueue == Unaccepted(s'))
            && (forall i, j :: 0 <= i < j < |s'.sh.accepted| ==> s'.sh.accepted[i] < s'.sh.accepted[j])
            && |Holders(s')| + multiset(s'.sh.acceptQueue)[None] == (if s'.closer == Finished then 1 else 0)
  {
    InitialShutdownOk(s);
    AlwaysAcceptOk(s, ls);
    var s' := After(s, ls);
    IncomingBelow(s'.sh.conns);
    assert forall i :: 0 <= i < |s'.sh.arrived| ==> s'.sh.arrived[i] == Incoming(s'.sh.conns)[i];
    TokenCount(s');
  }

  lemma TokenCount(s: State)
    requires QueueOk(s)
    ensures |Holders(s)| + multiset(s.sh.acceptQueue)[None] == (if s.closer == Finished then 1 else 0)
  {
    if SomeHolder(s) {
      var t: nat :| t < |s.threads| && Holding(s, t);
      assert forall u :: u in Holders(s) ==> u == t;
      assert Holders(s) == {t};
    } else {
      assert Holders(s) == {};
      var cs := Somes(s.sh.arrived[|s.sh.accepted|..]);
      assert forall i :: 0 <= i < |cs| ==> cs[i].Some?;
      assert None !in multiset(cs);
    }
  }

  // ---- Every blocked accept finishes ----

  function Weight(a: App): nat {
    if a == Accepting then 2 else if a == HoldingToken then 1 else 0
  }

  function AcceptRank(threads: seq<App>): nat {
    if threads == [] then 0 else Weight(threads[0]) + AcceptRank(threads[1..])
  }

  lemma {:induction false} RankUpdate(threads: seq<App>, t: nat, a: App)
    requires t < |threads|
    ensures AcceptRank(threads[t := a]) + Weight(threads[t]) == AcceptRank(threads) + Weight(a)
  {
    if t > 0 {
      RankUpdate(threads[1..], t - 1, a);
      assert threads[t := a][1..] == threads[1..][t - 1 := a];
    } else {
      assert threads[t := a][1..] == threads[1..];
    }
  }

  lemma {:induction false} RankPositive(threads: seq<App>) returns (t: nat)
    requires AcceptRank(threads) > 0
    ensures t < |threads| && Weight(threads[t]) > 0
  {
    if Weight(threads[0]) > 0 {
      t := 0;
    } else {
      var u := RankPositive(threads[1..]);
      t := u + 1;
    }
  }

  lemma AcceptorMove(s: State) returns (l: Label)
    requires ShutdownOk(s) && AcceptOk(s) && s.closer == Finished && AcceptRank(s.threads) > 0
    ensures l.AppGo? && l.ok && Enabled(s, l) && Weight(s.threads[l.t]) > 0
    ensures Next(s, l).threads == s.threads[l.t := Next(s, l).threads[l.t]]
    ensures Weight(Next(s, l).threads[l.t]) < Weight(s.threads[l.t])
    ensures Next(s, l).closer == Finished
  {
    var t := AcceptorReady(s);
    l := AppGo(t, true);
  }

  /** Someone holds the token, or the queue is not empty. */
  lemma AcceptorReady(s: State) returns (t: nat)
    requires QueueOk(s) && s.closer == Finished && AcceptRank(s.threads) > 0
    ensures t < |s.threads|
    ensures s.threads[t] == HoldingToken || (s.threads[t] == Accepting && s.sh.acceptQueue != [])
  {
    if SomeHolder(s) {
      t :| t < |s.threads| && Holding(s, t);
    } else {
      t := RankPositive(s.threads);
      assert !Holding(s, t);
    }
  }

  /** Nobody starts to wait for a connection on a closed peer. */
  lemma NoNewAcceptor(s: State, l: Label)
    requires ShutdownOk(s) && s.sh.closed && Enabled(s, l)
    ensures AcceptRank(Next(s, l).threads) <= AcceptRank(s.threads)
    ensures l.AppGo? && Weight(s.threads[l.t]) > 0 ==> AcceptRank(Next(s, l).threads) < AcceptRank(s.threads)
  {
    if l.Begin? || l.AppGo? {
      var a := Next(s, l).threads[l.t];
      OneThreadMoves(s, l);
      RankUpdate(s.threads, l.t, a);
    } else {
      NoAcceptorMoves(s, l);
      SameRank(s.threads, Next(s, l).threads);
    }
  }

  lemma NoAcceptorMoves(s: State, l: Label)
    requires Enabled(s, l) && !l.Begin? && !l.AppGo?
    ensures var xs := Next(s, l).threads;
            |xs| == |s.threads| && forall t :: 0 <= t < |xs| ==> Weight(xs[t]) == Weight(s.threads[t])
  {
  }

  lemma OneThreadMoves(s: State, l: Label)
    requires Enabled(s, l) && s.sh.closed && (l.Begin? || l.AppGo?)
    ensures Next(s, l).threads == s.threads[l.t := Next(s, l).threads[l.t]]
    ensures Weight(Next(s, l).threads[l.t]) <= Weight(s.threads[l.t])
    ensures l.AppGo? && Weight(s.threads[l.t]) > 0 ==> Weight(Next(s, l).threads[l.t]) < Weight(s.threads[l.t])
  {
    if l.AppGo? && s.threads[l.t] != ClosingPeer {
      WeightFalls(s.sh, l.t, s.threads[l.t], l.ok);
    }
  }

  lemma WeightFalls(sh: Shared, t: nat, a: App, ok: bool)
    requires TableIds(sh) && AppIds(sh, a) && (a.Accepting? && ok ==> sh.acceptQueue != [])
    ensures var a' := AppStep(sh, t, a, ok).1; Weight(a') <= Weight(a) && (Weight(a) > 0 ==> Weight(a') < Weight(a))
  {
  }

  /** A step of a thread inside accept. */
  predicate AcceptorStep(s: State, l: Label) {
    l.AppGo? && l.t < |s.threads| && Weight(s.threads[l.t]) > 0
  }

  ghost function AcceptorSteps(s: State, ls: seq<Label>): nat
    requires IsRun(s, ls)
    decreases |ls|
  {
    if ls == [] then 0 else (if AcceptorStep(s, ls[0]) then 1 else 0) + AcceptorSteps(Next(s, ls[0]), ls[1..])
  }

  lemma StaysFinished(s: State, l: Label)
    requires RolesOk(s) && s.closer == Finished && Enabled(s, l)
    ensures Next(s, l).closer == Finished
  {
  }

  /** After _finish_close, in every run: the threads inside accept make at most AcceptRank steps in all, and as
      long as one is blocked there is one that can move without waiting for a timeout. So a single token frees
      any number of blocked accepts. */
  lemma {:induction false} BlockedAcceptsFinish(s: State, ls: seq<Label>)
    requires ShutdownOk(s) && AcceptOk(s) && s.closer == Finished && IsRun(s, ls)
    ensures var s' := After(s, ls);
            && AcceptorSteps(s, ls) + AcceptRank(s'.threads) <= AcceptRank(s.threads)
            && (AcceptRank(s'.threads) == 0 || exists l :: AcceptorStep(s', l) && l.ok && Enabled(s', l))
    decreases |ls|
  {
    if ls == [] {
      if AcceptRank(s.threads) > 0 {
        var l := AcceptorMove(s);
      }
    } else {
      NoNewAcceptor(s, ls[0]);
      StaysFinished(s, ls[0]);
      StepShutdown(s, ls[0]);
      StepAccept(s, ls[0]);
      BlockedAcceptsFinish(Next(s, ls[0]), ls[1..]);
    }
  }

  lemma {:induction false} SameRank(a: seq<App>, b: seq<App>)
    requires |a| == |b| && forall t :: 0 <= t < |a| ==> Weight(a[t]) == Weight(b[t])
    ensures AcceptRank(a) == AcceptRank(b)
  {
    if a != [] {
      SameRank(a[1..], b[1..]);
    }
  }
}
