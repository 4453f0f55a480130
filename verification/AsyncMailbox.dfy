/** _AsyncMailbox: put and close run on any thread and reach the mailbox through the loop's callback
    FIFO; get runs on the loop. One label is one step that cannot be interrupted: a counter access, a
    call_soon_threadsafe, a loop callback, or a task's run between two awaits. */
module AsyncMailbox {
  import opened RakTypes
  import opened AsyncioQueue
  import opened MailboxSpec

  datatype Entry = Msg(item: Bytes) | Sentinel

  datatype Call = PutCall(item: Bytes) | CloseCall(reason: CloseReason)

  /** Where the pump thread is inside put. */
  datatype Putter = NoPut | Counting(item: Bytes) | Scheduling(item: Bytes)

  datatype State = State(
    calls: seq<Call>,              // callbacks scheduled on the loop
    queue: Queue<Entry>,
    exc: Option<CloseReason>,
    drained: bool,
    size: int,
    maxsize: Option<int>,
    putter: Putter,
    uncounting: bool,              // the running get holds an item but has not decremented _size yet
    fifo: Fifo)                    // history: the abstract mailbox

  datatype Label =
    | PutCheck(item: Bytes)
    | PutCount
    | PutSchedule
    | CloseSchedule(reason: CloseReason)
    | RunCall
    | GetStart
    | GetResume
    | Uncount
    | CancelWaiting
    | CancelWoken

  function Initial(maxsize: Option<int>): State {
    State([], Queue([], 0, 0), None, false, 0, maxsize, NoPut, false, EMPTY)
  }

  predicate Full(s: State) {
    s.maxsize.Some? && s.size >= s.maxsize.value
  }

  predicate Enabled(s: State, l: Label) {
    match l
    case PutCheck(_) => s.putter.NoPut?
    case PutCount => s.putter.Counting?
    case PutSchedule => s.putter.Scheduling?
    case CloseSchedule(_) => true
    case RunCall => !s.uncounting && s.calls != []
    case GetStart => !s.uncounting
    case GetResume => !s.uncounting && s.queue.woken > 0
    case Uncount => s.uncounting
    case CancelWaiting => !s.uncounting && s.queue.waiting > 0
    case CancelWoken => !s.uncounting && s.queue.woken > 0
  }

  /** What a label means for the abstract mailbox. */
  function Abstract(s: State, l: Label): Option<Op>
    requires Enabled(s, l)
  {
    match l
    case PutSchedule => Some(Accept(s.putter.item))
    case CloseSchedule(r) => Some(Shut(r))
    case GetStart =>
      if s.drained then (if s.exc.Some? then Some(Raise(s.exc.value)) else None) else TakeOp(s)
    case GetResume => TakeOp(s)
    case _ => None
  }

  function TakeOp(s: State): Option<Op> {
    if s.queue.items == [] then None
    else if s.queue.items[0].Msg? then Some(Deliver(s.queue.items[0].item))
    else if s.exc.Some? then Some(Raise(s.exc.value))
    else None
  }

  /** The part of get after an item is available, or the decision to park. */
  function Take(s: State): State {
    if s.queue.items == [] then s.(queue := s.queue.Park())
    else if s.queue.items[0].Msg? then s.(queue := s.queue.Pop(), uncounting := true)
    else s.(queue := s.queue.Pop().PutNowait(Sentinel), drained := true)
  }

  function Concrete(s: State, l: Label): State
    requires Enabled(s, l)
  {
    match l
    case PutCheck(x) => if Full(s) then s else s.(putter := Counting(x))
    case PutCount => s.(size := s.size + 1, putter := Scheduling(s.putter.item))
    case PutSchedule => s.(calls := s.calls + [PutCall(s.putter.item)], putter := NoPut)
    case CloseSchedule(r) => s.(calls := s.calls + [CloseCall(r)])
    case RunCall =>
      var s' := s.(calls := s.calls[1..]);
      (match s.calls[0]
       case PutCall(x) => s'.(queue := s.queue.PutNowait(Msg(x)))
       case CloseCall(r) =>
         if s.exc.None? then s'.(exc := Some(r), queue := s.queue.PutNowait(Sentinel)) else s')
    case GetStart => if s.drained then s else Take(s)
    case GetResume => Take(s.(queue := s.queue.Run()))
    case Uncount => s.(size := s.size - 1, uncounting := false)
    case CancelWaiting => s.(queue := s.queue.CancelWaiting())
    case CancelWoken => s.(queue := s.queue.CancelWoken())
  }

  function Next(s: State, l: Label): State
    requires Enabled(s, l)
  {
    var op := Abstract(s, l);
    Concrete(s, l).(fifo := if op.Some? then Apply(s.fifo, op.value) else s.fifo)
  }

  ghost predicate IsRun(s: State, ls: seq<Label>)
    decreases |ls|
  {
    ls == [] || (Enabled(s, ls[0]) && IsRun(Next(s, ls[0]), ls[1..]))
  }

  ghost function After(s: State, ls: seq<Label>): State
    requires IsRun(s, ls)
    decreases |ls|
  {
    if ls == [] then s else After(Next(s, ls[0]), ls[1..])
  }

  // ---- What the queue and the callback FIFO hold ----

  function Msgs(es: seq<Entry>): seq<Bytes> {
    if es == [] then [] else (if es[0].Msg? then [es[0].item] else []) + Msgs(es[1..])
  }

  function Puts(cs: seq<Call>): seq<Bytes> {
    if cs == [] then [] else (if cs[0].PutCall? then [cs[0].item] else []) + Puts(cs[1..])
  }

  function Sentinels(es: seq<Entry>): nat {
    if es == [] then 0 else (if es[0].Sentinel? then 1 else 0) + Sentinels(es[1..])
  }

  /** The messages ahead of the first sentinel. */
  function Ahead(es: seq<Entry>): nat {
    if es == [] || es[0].Sentinel? then 0 else 1 + Ahead(es[1..])
  }

  /** The puts scheduled ahead of the first close, and that close's reason. */
  function PutsAhead(cs: seq<Call>): nat {
    if cs == [] || cs[0].CloseCall? then 0 else 1 + PutsAhead(cs[1..])
  }

  function FirstClose(cs: seq<Call>): Option<CloseReason> {
    if cs == [] then None else if cs[0].CloseCall? then Some(cs[0].reason) else FirstClose(cs[1..])
  }

  lemma {:induction false} EntriesAppend(es: seq<Entry>, e: Entry)
    ensures Msgs(es + [e]) == Msgs(es) + (if e.Msg? then [e.item] else [])
    ensures Sentinels(es + [e]) == Sentinels(es) + (if e.Sentinel? then 1 else 0)
    ensures Ahead(es + [e]) == Ahead(es) + (if Sentinels(es) == 0 && e.Msg? then 1 else 0)
    ensures Sentinels(es) == 0 ==> Ahead(es) == |es| == |Msgs(es)|
    ensures |Msgs(es)| + Sentinels(es) == |es| && Ahead(es) <= |Msgs(es)|
  {
    if es != [] {
      EntriesAppend(es[1..], e);
      assert (es + [e])[1..] == es[1..] + [e];
    } else {
      assert (es + [e])[1..] == [];
    }
  }

  lemma {:induction false} CallsAppend(cs: seq<Call>, c: Call)
    ensures Puts(cs + [c]) == Puts(cs) + (if c.PutCall? then [c.item] else [])
    ensures FirstClose(cs + [c]) == if FirstClose(cs).Some? then FirstClose(cs)
                                    else if c.CloseCall? then Some(c.reason) else None
    ensures PutsAhead(cs + [c]) == PutsAhead(cs) + (if FirstClose(cs).None? && c.PutCall? then 1 else 0)
    ensures FirstClose(cs).None? ==> PutsAhead(cs) == |Puts(cs)|
    ensures PutsAhead(cs) <= |Puts(cs)|
  {
    if cs != [] {
      CallsAppend(cs[1..], c);
      assert (cs + [c])[1..] == cs[1..] + [c];
    } else {
      assert (cs + [c])[1..] == [];
    }
  }

  // ---- The invariant ----

  /** Exactly one sentinel from the moment the close callback has run, none before. */
  ghost predicate OneSentinel(s: State) {
    && Sentinels(s.queue.items) == (if s.exc.Some? then 1 else 0)
    && (s.drained ==> s.exc.Some?)
  }

  /** _size counts the scheduled puts, the queued messages and the two counts in flight. */
  ghost predicate SizeExact(s: State) {
    s.size == |Puts(s.calls)| + |Msgs(s.queue.items)|
              + (if s.putter.Scheduling? then 1 else 0) + (if s.uncounting then 1 else 0)
  }

  ghost predicate SizeBounded(s: State) {
    s.maxsize.Some? ==>
      && s.size <= (if s.maxsize.value < 0 then 0 else s.maxsize.value)
      && (s.putter.Counting? ==> s.size < s.maxsize.value)
  }

  /** The queue followed by the scheduled puts is what the abstract mailbox still owes. */
  ghost predicate RefinesFifo(s: State) {
    && s.fifo.taken <= |s.fifo.accepted|
    && Msgs(s.queue.items) + Puts(s.calls) == s.fifo.accepted[s.fifo.taken..]
  }

  /** The close takes effect, in the abstract mailbox, when it is scheduled. */
  ghost predicate RefinesClose(s: State) {
    && (s.fifo.closing.Some? <==> s.exc.Some? || FirstClose(s.calls).Some?)
    && (s.exc.Some? ==>
          && s.fifo.closing.value.reason == s.exc.value
          && s.fifo.closing.value.mark <= s.fifo.taken + Ahead(s.queue.items)
          && (s.drained ==> s.fifo.closing.value.mark <= s.fifo.taken))
    && (s.exc.None? && s.fifo.closing.Some? ==>
          && s.fifo.closing.value.reason == FirstClose(s.calls).value
          && s.fifo.closing.value.mark == s.fifo.taken + |Msgs(s.queue.items)| + PutsAhead(s.calls))
  }

  ghost predicate Inv(s: State) {
    && OneSentinel(s) && SizeExact(s) && SizeBounded(s) && RefinesFifo(s) && RefinesClose(s)
    && s.queue.Covered()
  }

  // ---- Every step keeps it, and is a legal step of the abstract mailbox ----

  lemma PutterStep(s: State, l: Label)
    requires Inv(s) && Enabled(s, l) && (l.PutCheck? || l.PutCount? || l.PutSchedule? || l.Uncount?)
    ensures Inv(Next(s, l))
  {
    if l.PutSchedule? {
      CallsAppend(s.calls, PutCall(s.putter.item));
      var f := s.fifo;
      assert (f.accepted + [s.putter.item])[f.taken..] == f.accepted[f.taken..] + [s.putter.item];
    }
  }

  lemma CloseStep(s: State, l: Label)
    requires Inv(s) && Enabled(s, l) && l.CloseSchedule?
    ensures Inv(Next(s, l))
  {
    CallsAppend(s.calls, CloseCall(l.reason));
    assert |Msgs(s.queue.items) + Puts(s.calls)| == |s.fifo.accepted| - s.fifo.taken;
  }

  lemma RunPut(s: State)
    requires Inv(s) && Enabled(s, RunCall) && s.calls[0].PutCall?
    ensures Inv(Next(s, RunCall))
  {
    var m := Msg(s.calls[0].item);
    EntriesAppend(s.queue.items, m);
    assert Next(s, RunCall).queue.items == s.queue.items + [m];
    assert Msgs(s.queue.items + [m]) + Puts(s.calls[1..]) == Msgs(s.queue.items) + Puts(s.calls);
  }

  lemma RunClose(s: State)
    requires Inv(s) && Enabled(s, RunCall) && s.calls[0].CloseCall?
    ensures Inv(Next(s, RunCall))
  {
    EntriesAppend(s.queue.items, Sentinel);
    if s.exc.None? {
      assert Next(s, RunCall).queue.items == s.queue.items + [Sentinel];
    }
  }

  predicate Takes(s: State, l: Label) {
    Enabled(s, l) && (l.GetResume? || (l.GetStart? && !s.drained))
  }

  lemma TakeMessage(s: State, l: Label)
    requires Inv(s) && Takes(s, l) && s.queue.items != [] && s.queue.items[0].Msg?
    ensures Inv(Next(s, l)) && Allowed(s.fifo, Abstract(s, l).value)
  {
    var es, f := s.queue.items, s.fifo;
    var rest := Msgs(es[1..]) + Puts(s.calls);
    assert Msgs(es) + Puts(s.calls) == [es[0].item] + rest;
    assert f.accepted[f.taken..] == [f.accepted[f.taken]] + f.accepted[f.taken + 1..];
    assert ([es[0].item] + rest)[1..] == rest && ([es[0].item] + rest)[0] == es[0].item;
    assert ([f.accepted[f.taken]] + f.accepted[f.taken + 1..])[1..] == f.accepted[f.taken + 1..];
    assert Next(s, l).queue.items == es[1..];
  }

  lemma TakeSentinel(s: State, l: Label)
    requires Inv(s) && Takes(s, l) && s.queue.items != [] && s.queue.items[0].Sentinel?
    ensures Inv(Next(s, l)) && Abstract(s, l).Some? && Allowed(s.fifo, Abstract(s, l).value)
  {
    var es, s' := s.queue.items, Next(s, l);
    RotateSentinel(es);
    assert s'.queue.items == es[1..] + [Sentinel] && s'.calls == s.calls && s'.fifo == s.fifo && s'.exc == s.exc;
    assert s'.queue.Covered();
  }

  /** Putting the sentinel back behind the rest. */
  lemma RotateSentinel(es: seq<Entry>)
    requires es != [] && es[0].Sentinel?
    ensures Msgs(es[1..] + [Sentinel]) == Msgs(es) && Sentinels(es[1..] + [Sentinel]) == Sentinels(es)
    ensures Ahead(es) == 0 && |es[1..] + [Sentinel]| == |es|
  {
    EntriesAppend(es[1..], Sentinel);
  }

  lemma TakeStep(s: State, l: Label)
    requires Inv(s) && Enabled(s, l) && (l.GetStart? || l.GetResume?)
    ensures Inv(Next(s, l))
    ensures Abstract(s, l).Some? ==> Allowed(s.fifo, Abstract(s, l).value)
  {
    if Takes(s, l) && s.queue.items != [] {
      if s.queue.items[0].Msg? {
        TakeMessage(s, l);
      } else {
        TakeSentinel(s, l);
      }
    }
  }

  lemma StepKeepsInv(s: State, l: Label)
    requires Inv(s) && Enabled(s, l)
    ensures Inv(Next(s, l))
    ensures Abstract(s, l).Some? ==> Allowed(s.fifo, Abstract(s, l).value)
  {
    match l
    case PutCheck(_) => PutterStep(s, l);
    case PutCount => PutterStep(s, l);
    case PutSchedule => PutterStep(s, l);
    case Uncount => PutterStep(s, l);
    case CloseSchedule(_) => CloseStep(s, l);
    case RunCall => if s.calls[0].PutCall? { RunPut(s); } else { RunClose(s); }
    case GetStart => TakeStep(s, l);
    case GetResume => TakeStep(s, l);
    case CancelWaiting =>
    case CancelWoken =>
  }

  lemma {:induction false} AlwaysInv(s: State, ls: seq<Label>)
    requires Inv(s) && IsRun(s, ls)
    ensures Inv(After(s, ls)) && After(s, ls).maxsize == s.maxsize
    decreases |ls|
  {
    if ls != [] {
      StepKeepsInv(s, ls[0]);
      AlwaysInv(Next(s, ls[0]), ls[1..]);
    }
  }

  /** After every run, in any interleaving: one sentinel from the close callback on and none before; _size
      is the scheduled puts, the queued messages and the counts in flight, and within the limit; queue and
      scheduled puts are exactly what has been accepted and not delivered; and a parked getter is outrun
      by woken ones as soon as there is an item. */
  lemma SentinelAndSize(maxsize: Option<int>, ls: seq<Label>)
    requires IsRun(Initial(maxsize), ls)
    ensures var s := After(Initial(maxsize), ls);
            && Sentinels(s.queue.items) == (if s.exc.Some? then 1 else 0)
            && s.size == |Puts(s.calls)| + |Msgs(s.queue.items)|
                         + (if s.putter.Scheduling? then 1 else 0) + (if s.uncounting then 1 else 0)
            && (maxsize.Some? ==> s.size <= if maxsize.value < 0 then 0 else maxsize.value)
            && s.fifo.taken <= |s.fifo.accepted|
            && s.fifo.accepted == s.fifo.accepted[..s.fifo.taken] + Msgs(s.queue.items) + Puts(s.calls)
            && (s.queue.waiting > 0 ==> s.queue.woken >= |s.queue.items|)
  {
    AlwaysInv(Initial(maxsize), ls);
    var f := After(Initial(maxsize), ls).fifo;
    assert f.accepted == f.accepted[..f.taken] + f.accepted[f.taken..];
  }

  /** In every run a put is accepted if and only if there is no limit, or the messages that have been accepted
      and not been counted off by a get are fewer than it; a refused put changes nothing. */
  lemma PutAccepts(maxsize: Option<int>, ls: seq<Label>, x: Bytes)
    requires IsRun(Initial(maxsize), ls) && After(Initial(maxsize), ls).putter.NoPut?
    ensures var s := After(Initial(maxsize), ls);
            var left := |s.fifo.accepted| - s.fifo.taken + (if s.uncounting then 1 else 0);
            && Enabled(s, PutCheck(x))
            && Next(s, PutCheck(x)) ==
                 (if maxsize.None? || left < maxsize.value then s.(putter := Counting(x)) else s)
  {
    AlwaysInv(Initial(maxsize), ls);
    var s := After(Initial(maxsize), ls);
    assert |Msgs(s.queue.items) + Puts(s.calls)| == |s.fifo.accepted| - s.fifo.taken;
  }

  /** The abstract operations a run performs. */
  ghost function Trace(s: State, ls: seq<Label>): seq<Op>
    requires IsRun(s, ls)
    decreases |ls|
  {
    if ls == [] then []
    else (if Abstract(s, ls[0]).Some? then [Abstract(s, ls[0]).value] else []) + Trace(Next(s, ls[0]), ls[1..])
  }

  /** Every run of the asyncio mailbox is a history of the abstract one, so HistoryLaws applies to it. */
  lemma Refinement(maxsize: Option<int>, ls: seq<Label>)
    requires IsRun(Initial(maxsize), ls)
    ensures MailboxSpec.IsHistory(Trace(Initial(maxsize), ls))
    ensures After(Initial(maxsize), ls).fifo == MailboxSpec.After(Trace(Initial(maxsize), ls))
  {
    RefinesFrom(Initial(maxsize), ls, []);
    assert [] + Trace(Initial(maxsize), ls) == Trace(Initial(maxsize), ls);
  }

  lemma {:induction false} RefinesFrom(s: State, ls: seq<Label>, ops: seq<Op>)
    requires Inv(s) && IsRun(s, ls) && MailboxSpec.IsHistory(ops) && MailboxSpec.After(ops) == s.fifo
    ensures MailboxSpec.IsHistory(ops + Trace(s, ls))
    ensures After(s, ls).fifo == MailboxSpec.After(ops + Trace(s, ls))
    decreases |ls|
  {
    if ls == [] {
      assert ops + Trace(s, ls) == ops;
    } else {
      StepRefines(s, ls[0], ops);
      TraceGrows(ops, s, ls);
      RefinesFrom(Next(s, ls[0]), ls[1..], Grown(ops, s, ls[0]));
    }
  }

  function Grown(ops: seq<Op>, s: State, l: Label): seq<Op>
    requires Enabled(s, l)
  {
    if Abstract(s, l).Some? then ops + [Abstract(s, l).value] else ops
  }

  lemma TraceGrows(ops: seq<Op>, s: State, ls: seq<Label>)
    requires ls != [] && IsRun(s, ls)
    ensures Grown(ops, s, ls[0]) + Trace(Next(s, ls[0]), ls[1..]) == ops + Trace(s, ls)
  {
  }

  lemma StepRefines(s: State, l: Label, ops: seq<Op>)
    requires Inv(s) && Enabled(s, l) && MailboxSpec.IsHistory(ops) && MailboxSpec.After(ops) == s.fifo
    ensures var ops' := Grown(ops, s, l);
            Inv(Next(s, l)) && MailboxSpec.IsHistory(ops') && Next(s, l).fifo == MailboxSpec.After(ops')
  {
    StepKeepsInv(s, l);
    if Abstract(s, l).Some? {
      HistoryGrows(ops, Abstract(s, l).value);
    }
  }

  lemma HistoryGrows(ops: seq<Op>, op: Op)
    requires MailboxSpec.IsHistory(ops) && Allowed(MailboxSpec.After(ops), op)
    ensures MailboxSpec.IsHistory(ops + [op]) && MailboxSpec.After(ops + [op]) == Apply(MailboxSpec.After(ops), op)
  {
    assert (ops + [op])[..|ops + [op]| - 1] == ops;
  }

  // ---- Nobody waits for ever on a closed mailbox ----

  /** The loop's own steps: they need no further call from outside. */
  predicate LoopStep(l: Label) {
    l.RunCall? || l.GetResume? || l.Uncount?
  }

  function Rank(s: State): nat {
    2 * |s.calls| + 2 * s.queue.waiting + 3 * s.queue.woken + (if s.uncounting then 1 else 0)
  }

  /** On a closed mailbox no step, of the loop, the putter, a closer, a new get or a cancellation, blocks a
      getter; each resumed get is one blocked getter fewer; and a loop step uses up rank. */
  lemma ClosedStep(s: State, l: Label)
    requires Inv(s) && s.exc.Some? && Enabled(s, l)
    ensures Next(s, l).exc == s.exc
    ensures Next(s, l).queue.Blocked() <= s.queue.Blocked() - (if l.GetResume? then 1 else 0)
    ensures LoopStep(l) ==> Rank(Next(s, l)) < Rank(s)
    ensures LoopStep(l) ==> Next(s, l).queue.Blocked() == s.queue.Blocked() - (if l.GetResume? then 1 else 0)
  {
    EntriesAppend(s.queue.items, Sentinel);
  }

  /** While a getter is blocked on a closed mailbox, the loop can finish one: the item in hand is counted off,
      or a woken getter runs. */
  lemma GetterCanFinish(s: State) returns (l: Label)
    requires Inv(s) && s.exc.Some? && s.queue.Blocked() > 0
    ensures Enabled(s, l) && (l.Uncount? || l.GetResume?)
  {
    EntriesAppend(s.queue.items, Sentinel);
    l := if s.uncounting then Uncount else GetResume;
  }

  ghost function Resumes(ls: seq<Label>): nat {
    if ls == [] then 0 else (if ls[0].GetResume? then 1 else 0) + Resumes(ls[1..])
  }

  /** After the close callback, in every run, whatever is put, closed, started or cancelled meanwhile: the
      blocked getters only get fewer, by one with each resumed get; and as long as one is left, the loop can
      finish one. */
  lemma {:induction false} BlockedGettersFinish(s: State, ls: seq<Label>)
    requires Inv(s) && s.exc.Some? && IsRun(s, ls)
    ensures var s' := After(s, ls);
            && s'.queue.Blocked() + Resumes(ls) <= s.queue.Blocked()
            && (s'.queue.Blocked() == 0 || exists l: Label :: (l.Uncount? || l.GetResume?) && Enabled(s', l))
    decreases |ls|
  {
    if ls == [] {
      if s.queue.Blocked() > 0 {
        var l := GetterCanFinish(s);
      }
    } else {
      ClosedStep(s, ls[0]);
      StepKeepsInv(s, ls[0]);
      BlockedGettersFinish(Next(s, ls[0]), ls[1..]);
    }
  }

  /** Once one get has raised, every get that starts later raises the same exception at once, even if
      a late put has landed behind the sentinel. */
  lemma DrainedStaysDrained(s: State, ls: seq<Label>)
    requires Inv(s) && s.drained && IsRun(s, ls)
    ensures var t := After(s, ls);
            && t.drained && t.exc == s.exc && t.exc.Some?
            && (Enabled(t, GetStart) ==> Abstract(t, GetStart) == Some(Raise(s.exc.value)) && Next(t, GetStart) == t)
    decreases |ls|
  {
    if ls != [] {
      StepKeepsInv(s, ls[0]);
      DrainedStaysDrained(Next(s, ls[0]), ls[1..]);
    }
  }
}
