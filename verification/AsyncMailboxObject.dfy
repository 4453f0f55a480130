/** The _AsyncMailbox object, updated in place. Each method is one uninterrupted call or loop callback and
    refines the labels of AsyncMailbox it stands for. */
module AsyncMailboxObject {
  import opened RakTypes
  import opened AsyncioQueue
  import opened MailboxSpec
  import opened AsyncMailbox

  /** How a get's run between two awaits ends. */
  datatype Outcome = Returned(item: Bytes) | Raised(reason: CloseReason) | Parked

  /** What a get that reaches the queue does: it parks on an empty queue, takes and counts off a message, or
      raises at the sentinel, which goes back behind the rest. */
  predicate Answers(r: Outcome, s: State, t: State, waiting: nat) {
    && t.exc == s.exc && t.calls == s.calls
    && if s.queue.items == [] then
         && r == Parked && t.size == s.size && t.drained == s.drained
         && t.queue.items == [] && t.queue.waiting == waiting + 1
       else match s.queue.items[0]
            case Msg(item) =>
              && r == Returned(item) && t.size == s.size - 1 && t.drained == s.drained
              && t.queue.items == s.queue.items[1..]
            case Sentinel =>
              && s.exc.Some? && r == Raised(s.exc.value) && t.drained && t.size == s.size
              && t.queue.items == s.queue.items[1..] + [Sentinel]
  }

  class Mailbox {
    var calls: seq<Call>          // what call_soon_threadsafe has queued on the loop
    var queue: Queue<Entry>
    var exc: Option<CloseReason>
    var drained: bool
    var size: int
    const maxsize: Option<int>
    ghost var fifo: Fifo

    ghost function View(): State
      reads this
    {
      State(calls, queue, exc, drained, size, maxsize, NoPut, false, fifo)
    }

    ghost predicate Valid()
      reads this
    {
      Inv(View())
    }

    constructor (maxsize: Option<int>)
      ensures Valid() && View() == Initial(maxsize)
    {
      calls, queue, exc, drained, size := [], Queue([], 0, 0), None, false, 0;
      this.maxsize := maxsize;
      fifo := EMPTY;
    }

    method Put(item: Bytes) returns (ok: bool)
      requires Valid()
      modifies this
      ensures Valid()
      ensures ok <==> maxsize.None? || old(size) < maxsize.value
      ensures !ok ==> View() == old(View())
      ensures ok ==> fifo == Apply(old(fifo), Accept(item)) && size == old(size) + 1
                     && calls == old(calls) + [PutCall(item)]
                     && queue == old(queue) && exc == old(exc) && drained == old(drained)
    {
      if maxsize.Some? && size >= maxsize.value {
        return false;
      }
      ghost var s0 := View();
      ghost var s1 := Next(s0, PutCheck(item));
      ghost var s2 := Next(s1, PutCount);
      StepKeepsInv(s0, PutCheck(item));
      StepKeepsInv(s1, PutCount);
      StepKeepsInv(s2, PutSchedule);
      size := size + 1;
      calls := calls + [PutCall(item)];
      fifo := Apply(fifo, Accept(item));
      assert View() == Next(s2, PutSchedule);
      return true;
    }

    method Close(reason: CloseReason)
      requires Valid()
      modifies this
      ensures Valid() && View() == Next(old(View()), CloseSchedule(reason))
      ensures calls == old(calls) + [CloseCall(reason)] && queue == old(queue)
      ensures exc == old(exc) && drained == old(drained) && size == old(size)
    {
      StepKeepsInv(View(), CloseSchedule(reason));
      calls := calls + [CloseCall(reason)];
      fifo := Apply(fifo, Shut(reason));
    }

    /** The loop runs the oldest callback: put_nowait, or _close. */
    method RunCallback()
      requires Valid() && calls != []
      modifies this
      ensures Valid() && View() == Next(old(View()), RunCall)
      ensures calls == old(calls)[1..] && size == old(size) && drained == old(drained)
      ensures match old(calls)[0]
              case PutCall(item) => queue.items == old(queue).items + [Msg(item)] && exc == old(exc)
              case CloseCall(reason) =>
                if old(exc).None? then queue.items == old(queue).items + [Sentinel] && exc == Some(reason)
                else queue == old(queue) && exc == old(exc)
      ensures var wakes := queue.items != old(queue.items) && old(queue.waiting) > 0;
              && queue.woken == old(queue.woken) + (if wakes then 1 else 0)
              && queue.waiting + queue.woken == old(queue.waiting) + old(queue.woken)
    {
      StepKeepsInv(View(), RunCall);
      var call := calls[0];
      calls := calls[1..];
      match call
      case PutCall(item) => queue := queue.PutNowait(Msg(item));
      case CloseCall(reason) =>
        if exc.None? {
          exc := Some(reason);
          queue := queue.PutNowait(Sentinel);
        }
    }

    /** get, up to its result or its first wait. */
    method Get() returns (r: Outcome)
      requires Valid()
      modifies this
      ensures Valid()
      ensures r == OutcomeOf(Abstract(old(View()), GetStart))
      ensures View() == Settled(Next(old(View()), GetStart))
      ensures if old(drained) then r == Raised(old(exc).value) && View() == old(View())
              else Answers(r, old(View()), View(), old(queue.waiting))
    {
      SettledStep(View(), GetStart);
      if drained {
        return Raised(exc.value);
      }
      if queue.items == [] {
        queue := queue.Park();
        return Parked;
      }
      r := Unpack();
    }

    /** get, when its wait is over. */
    method Resume() returns (r: Outcome)
      requires Valid() && queue.woken > 0
      modifies this
      ensures Valid()
      ensures r == OutcomeOf(Abstract(old(View()), GetResume))
      ensures View() == Settled(Next(old(View()), GetResume))
      ensures Answers(r, old(View()), View(), old(queue.waiting))
    {
      SettledStep(View(), GetResume);
      queue := queue.Run();
      if queue.items == [] {
        queue := queue.Park();
        return Parked;
      }
      r := Unpack();
    }

    /** The head of the queue is taken: a message, or the sentinel, which goes back. */
    method Unpack() returns (r: Outcome)
      requires queue.items != [] && (queue.items[0].Sentinel? ==> exc.Some?)
      modifies this
      ensures var before := old(View());
              if before.queue.items[0].Msg? then
                r == Returned(before.queue.items[0].item)
                && View() == Take(before).(fifo := Apply(before.fifo, Deliver(r.item)),
                                            size := before.size - 1, uncounting := false)
              else r == Raised(before.exc.value) && View() == Take(before)
    {
      var entry := queue.items[0];
      queue := queue.Pop();
      if entry.Sentinel? {
        drained := true;
        queue := queue.PutNowait(Sentinel);
        return Raised(exc.value);
      }
      size := size - 1;
      fifo := Apply(fifo, Deliver(entry.item));
      return Returned(entry.item);
    }
  }

  function OutcomeOf(op: Option<Op>): Outcome {
    if op.None? then Parked
    else match op.value
         case Deliver(x) => Returned(x)
         case Raise(e) => Raised(e)
         case _ => Parked
  }

  /** A message in hand is counted off before anything else runs on the loop. */
  function Settled(s: State): State {
    if s.uncounting then Next(s, Uncount) else s
  }

  lemma SettledStep(s: State, l: Label)
    requires Inv(s) && Enabled(s, l)
    ensures Inv(Settled(Next(s, l)))
  {
    StepKeepsInv(s, l);
    if Next(s, l).uncounting {
      StepKeepsInv(Next(s, l), Uncount);
    }
  }
}
