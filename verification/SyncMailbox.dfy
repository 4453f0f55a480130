/** _Mailbox of the sync API: a deque, a close exception and a size limit under one condition lock.
    Every method body runs under that lock, so each is one atomic step. */
module SyncMailbox {
  import opened RakTypes
  import opened MailboxSpec

  /** The value of a mailbox. */
  datatype Box = Box(items: seq<Bytes>, exc: Option<CloseReason>, maxsize: Option<int>) {
    predicate Full() {
      maxsize.Some? && |items| >= maxsize.value
    }

    function Put(item: Bytes): Box {
      if Full() then this else this.(items := items + [item])
    }

    function Close(reason: CloseReason): Box {
      if exc.None? then this.(exc := Some(reason)) else this
    }

    /** The predicate get and poll wait for. */
    predicate Ready() {
      items != [] || exc.Some?
    }

    function Get(): Got {
      if items != [] then Item(items[0]) else if exc.Some? then Closed(exc.value) else TimedOut
    }

    function Rest(): Box {
      if items != [] then this.(items := items[1..]) else this
    }

    predicate WithinLimit() {
      maxsize.Some? ==> |items| <= if maxsize.value < 0 then 0 else maxsize.value
    }
  }

  /** The outcome of a get whose wait is over. */
  datatype Got = Item(item: Bytes) | Closed(reason: CloseReason) | TimedOut

  class Mailbox {
    var items: seq<Bytes>
    var exc: Option<CloseReason>
    const maxsize: Option<int>
    ghost var fifo: Fifo   // the abstract mailbox

    ghost predicate Valid()
      reads this
    {
      && fifo.taken <= |fifo.accepted|
      && items == fifo.accepted[fifo.taken..]
      && View().WithinLimit()
      && (exc.Some? <==> fifo.closing.Some?)
      && (exc.Some? ==> fifo.closing.value.reason == exc.value && fifo.closing.value.mark <= |fifo.accepted|)
    }

    function View(): Box
      reads this
    {
      Box(items, exc, maxsize)
    }

    constructor (maxsize: Option<int>)
      ensures Valid() && fifo == EMPTY
      ensures View() == Box([], None, maxsize)
    {
      this.items := [];
      this.exc := None;
      this.maxsize := maxsize;
      this.fifo := EMPTY;
    }

    method Put(item: Bytes) returns (ok: bool)
      requires Valid()
      modifies this
      ensures Valid() && View() == old(View().Put(item))
      ensures ok <==> maxsize.None? || |old(items)| < maxsize.value
      ensures items == (if ok then old(items) + [item] else old(items)) && exc == old(exc)
      ensures fifo == if ok then Apply(old(fifo), Accept(item)) else old(fifo)
    {
      if maxsize.Some? && |items| >= maxsize.value {
        return false;
      }
      items := items + [item];
      fifo := Apply(fifo, Accept(item));
      return true;
    }

    method Close(reason: CloseReason)
      requires Valid()
      modifies this
      ensures Valid() && View() == old(View().Close(reason))
      ensures items == old(items) && exc == (if old(exc).None? then Some(reason) else old(exc))
      ensures fifo == Apply(old(fifo), Shut(reason))
    {
      if exc.None? {
        exc := Some(reason);
      }
      fifo := Apply(fifo, Shut(reason));
    }

    /** get, once its wait has ended. */
    method Get() returns (r: Got)
      requires Valid()
      modifies this
      ensures Valid() && View() == old(View().Rest()) && r == old(View().Get())
      ensures exc == old(exc)
      ensures if old(items) != [] then r == Item(old(items)[0]) && items == old(items)[1..]
              else items == [] && r == (if old(exc).Some? then Closed(old(exc).value) else TimedOut)
      ensures match r
              case Item(x) => Allowed(old(fifo), Deliver(x)) && fifo == Apply(old(fifo), Deliver(x))
              case Closed(e) => Allowed(old(fifo), Raise(e)) && fifo == old(fifo)
              case TimedOut => fifo == old(fifo)
    {
      if items == [] && exc.None? {
        return TimedOut;
      }
      if items != [] {
        r := Item(items[0]);
        items := items[1..];
        fifo := Apply(fifo, Deliver(r.item));
      } else {
        r := Closed(exc.value);
      }
    }

    method Poll() returns (ready: bool)
      ensures ready <==> items != [] || exc.Some?
    {
      ready := items != [] || exc.Some?;
    }
  }
}
