/** _AsyncAcceptQueue and the asyncio Peer.accept: connections and the close token travel through the
    loop's callback FIFO into one asyncio.Queue, and every accept that meets the token schedules it
    again. The posting side is what the peer protocol guarantees: the peer is closed first, then one token,
    after the last connection. */
module AsyncAccept {
  import opened RakTypes
  import opened AsyncioQueue

  type ConnId = nat

  datatype State = State(
    calls: seq<Option<ConnId>>,        // scheduled put_nowait callbacks; None is the close token
    queue: Queue<Option<ConnId>>,
    closed: bool,                      // Peer._closed
    checked: bool,                     // the running accept has found the peer open and not reached the queue
    posted: bool,                      // history: _finish_close has put its None
    arrived: seq<ConnId>,              // history: connections put, in order
    accepted: seq<ConnId>,             // history: connections returned by accept, in order
    refused: nat)                      // history: accepts that raised "peer is closed"

  datatype Label =
    | PutConnection(c: ConnId)
    | BeginClose
    | PostToken
    | RunCall
    | CheckOpen
    | GetStart
    | GetResume
    | CancelWaiting
    | CancelWoken

  const INITIAL := State([], Queue([], 0, 0), false, false, false, [], [], 0)

  predicate Enabled(s: State, l: Label) {
    match l
    case PutConnection(_) => !s.posted
    case BeginClose => !s.closed
    case PostToken => s.closed && !s.posted
    case RunCall => !s.checked && s.calls != []
    case CheckOpen => !s.checked
    case GetStart => s.checked
    case GetResume => !s.checked && s.queue.woken > 0
    case CancelWaiting => !s.checked && s.queue.waiting > 0
    case CancelWoken => !s.checked && s.queue.woken > 0
  }

  function Take(s: State): State {
    if s.queue.items == [] then s.(queue := s.queue.Park())
    else if s.queue.items[0].Some? then s.(queue := s.queue.Pop(), accepted := s.accepted + [s.queue.items[0].value])
    else s.(queue := s.queue.Pop(), calls := s.calls + [None], refused := s.refused + 1)
  }

  function Next(s: State, l: Label): State
    requires Enabled(s, l)
  {
    match l
    case PutConnection(c) => s.(calls := s.calls + [Some(c)], arrived := s.arrived + [c])
    case BeginClose => s.(closed := true)
    case PostToken => s.(calls := s.calls + [None], posted := true)
    case CheckOpen => if s.closed then s.(refused := s.refused + 1) else s.(checked := true)
    case RunCall => s.(calls := s.calls[1..], queue := s.queue.PutNowait(s.calls[0]))
    case GetStart => Take(s.(checked := false))
    case GetResume => Take(s.(queue := s.queue.Run()))
    case CancelWaiting => s.(queue := s.queue.CancelWaiting())
    case CancelWoken => s.(queue := s.queue.CancelWoken())
  }

  ghost predicate IsRun(s: State, ls: seq<Label>)
    decreases |ls|
  {
    ls == [] || (Enabled(s, ls[0]) && IsRun(Next(s, ls[0]), ls[1..]))
  }

  ghost function After(s: State, ls: seq<Label>): State
    requires IsRun(s, ls)
    decreases |ls|
  {
    if ls == [] then s else After(Next(s, ls[0]), ls[1..])
  }

  function Somes(cs: seq<ConnId>): seq<Option<ConnId>> {
    seq(|cs|, i requires 0 <= i < |cs| => Some(cs[i]))
  }

  function Token(posted: bool): seq<Option<ConnId>> {
    if posted then [None] else []
  }

  /** Queue and callbacks together hold the connections still to accept, in order of arrival, and then
      the token, exactly once and last, as soon as it has been posted. */
  ghost predicate Inv(s: State) {
    && s.accepted <= s.arrived
    && s.queue.items + s.calls == Somes(s.arrived[|s.accepted|..]) + Token(s.posted)
    && s.queue.Covered() && (s.posted ==> s.closed)
  }

  lemma TakeKeepsInv(s: State, l: Label)
    requires Inv(s) && Enabled(s, l) && (l.GetStart? || l.GetResume?) && s.queue.items != []
    ensures Inv(Next(s, l))
  {
    var todo := s.arrived[|s.accepted|..];
    var all := s.queue.items + s.calls;
    assert all[0] == s.queue.items[0] && all[1..] == s.queue.items[1..] + s.calls;
    if todo == [] {
      assert all == [None] && s.calls == [];
    } else {
      assert all[0] == Some(todo[0]);
      assert s.arrived[|s.accepted| + 1..] == todo[1..];
      assert all[1..] == Somes(todo[1..]) + Token(s.posted);
    }
  }

  lemma PutKeepsInv(s: State, c: ConnId)
    requires Inv(s) && Enabled(s, PutConnection(c))
    ensures Inv(Next(s, PutConnection(c)))
  {
    var todo := s.arrived[|s.accepted|..];
    assert Next(s, PutConnection(c)).arrived[|s.accepted|..] == todo + [c];
    assert Somes(todo + [c]) == Somes(todo) + [Some(c)];
    calc {
      s.queue.items + (s.calls + [Some(c)]);
      (s.queue.items + s.calls) + [Some(c)];
      Somes(todo) + [] + [Some(c)];
      Somes(todo + [c]) + [];
    }
  }

  lemma CallKeepsInv(s: State, l: Label)
    requires Inv(s) && Enabled(s, l) && (l.PostToken? || l.RunCall?)
    ensures Inv(Next(s, l))
  {
    if l.PostToken? {
      assert s.queue.items + (s.calls + [None]) == (s.queue.items + s.calls) + [None];
    } else {
      assert s.queue.items + [s.calls[0]] + s.calls[1..] == s.queue.items + s.calls;
    }
  }

  lemma StepKeepsInv(s: State, l: Label)
    requires Inv(s) && Enabled(s, l)
    ensures Inv(Next(s, l))
  {
    match l
    case PutConnection(c) => PutKeepsInv(s, c);
    case PostToken => CallKeepsInv(s, l);
    case RunCall => CallKeepsInv(s, l);
    case BeginClose =>
    case CheckOpen =>
    case GetStart => if s.queue.items != [] { TakeKeepsInv(s, l); }
    case GetResume => if s.queue.items != [] { TakeKeepsInv(s, l); }
    case CancelWaiting =>
    case CancelWoken =>
  }

  lemma {:induction false} AlwaysInv(s: State, ls: seq<Label>)
    requires Inv(s) && IsRun(s, ls)
    ensures Inv(After(s, ls))
    decreases |ls|
  {
    if ls != [] {
      StepKeepsInv(s, ls[0]);
      AlwaysInv(Next(s, ls[0]), ls[1..]);
    }
  }

  /** In every run: connections are accepted in order of arrival, each at most once, and the token is
      neither lost nor duplicated, nor overtaken by a connection. */
  lemma AcceptInOrder(ls: seq<Label>)
    requires IsRun(INITIAL, ls)
    ensures var s := After(INITIAL, ls);
            && s.accepted <= s.arrived
            && multiset(s.queue.items + s.calls)[None] == (if s.posted then 1 else 0)
            && (forall i :: 0 <= i < |s.queue.items + s.calls| - 1 ==> (s.queue.items + s.calls)[i].Some?)
  {
    AlwaysInv(INITIAL, ls);
    var s := After(INITIAL, ls);
    var todo := s.arrived[|s.accepted|..];
    assert forall i :: 0 <= i < |Somes(todo)| ==> Somes(todo)[i].Some?;
    assert None !in multiset(Somes(todo));
  }

  // ---- What one accept does ----

  /** The rest of an accept that has found the peer open, or was woken: it returns the connection at the head; it
      meets the token, schedules it again and refuses; or it parks. */
  lemma GetServes(s: State, l: Label)
    requires Enabled(s, l) && (l.GetStart? || l.GetResume?)
    ensures var woken := if l.GetResume? then s.queue.woken - 1 else s.queue.woken;
            var items := s.queue.items;
            Next(s, l) ==
            if items == [] then s.(checked := false, queue := Queue([], s.queue.waiting + 1, woken))
            else if items[0].Some? then
              s.(checked := false, queue := Queue(items[1..], s.queue.waiting, woken),
                 accepted := s.accepted + [items[0].value])
            else
              s.(checked := false, queue := Queue(items[1..], s.queue.waiting, woken),
                 calls := s.calls + [None], refused := s.refused + 1)
  {
  }

  /** An accept refuses at once if and only if the peer is closed when it starts. */
  lemma CheckPassesIff(s: State)
    requires !s.checked
    ensures Enabled(s, CheckOpen) && (Enabled(Next(s, CheckOpen), GetStart) <==> !s.closed)
    ensures Next(s, CheckOpen) == if s.closed then s.(refused := s.refused + 1) else s.(checked := true)
  {
  }

  function Accepts(n: nat): seq<Label> {
    if n == 0 then [] else [CheckOpen, GetStart] + Accepts(n - 1)
  }

  /** On an open peer as many accepts as there are connections at the head of the queue return just those, in
      order, and refuse none. */
  lemma {:induction false} AcceptsServeAll(s: State, cs: seq<ConnId>)
    requires !s.checked && !s.closed
    requires |cs| <= |s.queue.items| && forall i :: 0 <= i < |cs| ==> s.queue.items[i] == Some(cs[i])
    ensures IsRun(s, Accepts(|cs|))
    ensures After(s, Accepts(|cs|)) ==
              s.(queue := s.queue.(items := s.queue.items[|cs|..]), accepted := s.accepted + cs)
    decreases |cs|
  {
    if cs != [] {
      assert s.queue.items[0] == Some(cs[0]);
      var s2 := s.(queue := s.queue.(items := s.queue.items[1..]), accepted := s.accepted + [cs[0]]);
      AcceptsServeAll(s2, cs[1..]);
      OneAcceptMore(s, Accepts(|cs| - 1));
      assert s2.accepted + cs[1..] == s.accepted + cs;
      assert s2.queue.items[|cs| - 1..] == s.queue.items[|cs|..];
    } else {
      assert s.accepted + cs == s.accepted;
    }
  }

  lemma OneAcceptMore(s: State, ls: seq<Label>)
    requires !s.checked && !s.closed && s.queue.items != [] && s.queue.items[0].Some?
    requires IsRun(s.(queue := s.queue.Pop(), accepted := s.accepted + [s.queue.items[0].value]), ls)
    ensures IsRun(s, [CheckOpen, GetStart] + ls)
    ensures After(s, [CheckOpen, GetStart] + ls)
         == After(s.(queue := s.queue.Pop(), accepted := s.accepted + [s.queue.items[0].value]), ls)
  {
    var all := [CheckOpen, GetStart] + ls;
    assert all[1..] == [GetStart] + ls && all[1..][1..] == ls;
  }

  // ---- Every blocked accept finishes ----

  /** Accepts that have not come to their end: parked, woken, or on their way from the check to the queue. */
  function Unfinished(s: State): nat {
    s.queue.Blocked() + (if s.checked then 1 else 0)
  }

  function Rank(s: State): nat {
    2 * |s.calls| + 2 * s.queue.waiting + 3 * s.queue.woken + (if s.checked then 3 else 0)
  }

  /** Once the token is posted, every step but an accept that finds the peer closed uses up rank, and none
      adds an unfinished accept. */
  lemma RankFalls(s: State, l: Label)
    requires Inv(s) && s.posted && Enabled(s, l)
    ensures Next(s, l).posted && Unfinished(Next(s, l)) <= Unfinished(s)
    ensures Rank(Next(s, l)) + (if l.CheckOpen? then 0 else 1) <= Rank(s)
  {
  }

  predicate LoopStep(l: Label) {
    l.RunCall? || l.GetStart? || l.GetResume?
  }

  /** While an accept is unfinished, the loop can move. */
  lemma LoopCanMove(s: State) returns (l: Label)
    requires Inv(s) && s.posted && Unfinished(s) > 0
    ensures Enabled(s, l) && LoopStep(l)
  {
    l := if s.checked then GetStart else if s.queue.woken > 0 then GetResume else RunCall;
    if !s.checked && s.queue.woken == 0 {
      assert s.queue.items == [];
      assert |s.queue.items + s.calls| >= 1;
    }
  }

  ghost function Steps(ls: seq<Label>): nat {
    if ls == [] then 0 else (if ls[0].CheckOpen? then 0 else 1) + Steps(ls[1..])
  }

  /** After the token is posted, in every run, whatever is started or cancelled meanwhile: all steps but the
      accepts refused at once are bounded by the rank, and as long as an accept is unfinished the loop can
      move. So the one token serves any number of blocked accepts. */
  lemma {:induction false} BlockedAcceptsFinish(s: State, ls: seq<Label>)
    requires Inv(s) && s.posted && IsRun(s, ls)
    ensures var s' := After(s, ls);
            && Steps(ls) + Rank(s') <= Rank(s) && Unfinished(s') <= Unfinished(s)
            && (Unfinished(s') == 0 || exists l: Label :: LoopStep(l) && Enabled(s', l))
    decreases |ls|
  {
    if ls == [] {
      if Unfinished(s) > 0 {
        var l := LoopCanMove(s);
      }
    } else {
      RankFalls(s, ls[0]);
      StepKeepsInv(s, ls[0]);
      BlockedAcceptsFinish(Next(s, ls[0]), ls[1..]);
    }
  }
}
