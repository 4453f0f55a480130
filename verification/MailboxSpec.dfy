/** The mailbox both APIs promise: a FIFO that can be closed once, whose close is seen only behind
    every message accepted before it. The sync and the asyncio mailbox are both shown to refine it. */
module MailboxSpec {
  import opened RakTypes

  /** The first close: its reason, and how many messages had been accepted by then. */
  datatype Closing = Closing(reason: CloseReason, mark: nat)

  datatype Fifo = Fifo(accepted: seq<Bytes>, taken: nat, closing: Option<Closing>)

  const EMPTY := Fifo([], 0, None)

  datatype Op =
    | Accept(item: Bytes)         // put returned True
    | Shut(reason: CloseReason)   // close was called
    | Deliver(item: Bytes)        // get returned item
    | Raise(reason: CloseReason)  // get raised the close exception

  /** Deliveries come in order of acceptance; a raise carries the first close reason and happens only
      when everything accepted before that close has been handed out. */
  predicate Allowed(f: Fifo, op: Op) {
    match op
    case Accept(_) => true
    case Shut(_) => true
    case Deliver(x) => f.taken < |f.accepted| && f.accepted[f.taken] == x
    case Raise(r) => f.closing.Some? && f.closing.value.reason == r && f.closing.value.mark <= f.taken
  }

  function Apply(f: Fifo, op: Op): Fifo {
    match op
    case Accept(x) => f.(accepted := f.accepted + [x])
    case Shut(r) => if f.closing.Some? then f else f.(closing := Some(Closing(r, |f.accepted|)))
    case Deliver(_) => f.(taken := f.taken + 1)
    case Raise(_) => f
  }

  ghost predicate IsHistory(ops: seq<Op>) {
    ops == [] || (IsHistory(ops[..|ops| - 1]) && Allowed(After(ops[..|ops| - 1]), ops[|ops| - 1]))
  }

  ghost function After(ops: seq<Op>): Fifo {
    if ops == [] then EMPTY else Apply(After(ops[..|ops| - 1]), ops[|ops| - 1])
  }

  ghost function Accepted(ops: seq<Op>): seq<Bytes> {
    if ops == [] then []
    else Accepted(ops[..|ops| - 1]) + (if ops[|ops| - 1].Accept? then [ops[|ops| - 1].item] else [])
  }

  ghost function Delivered(ops: seq<Op>): seq<Bytes> {
    if ops == [] then []
    else Delivered(ops[..|ops| - 1]) + (if ops[|ops| - 1].Deliver? then [ops[|ops| - 1].item] else [])
  }

  /** The state is a summary of the history. */
  lemma {:induction false} Summary(ops: seq<Op>)
    requires IsHistory(ops)
    ensures var f := After(ops);
            && f.accepted == Accepted(ops)
            && f.taken <= |f.accepted|
            && Delivered(ops) == f.accepted[..f.taken]
            && (f.closing.Some? ==> f.closing.value.mark <= |f.accepted|)
  {
    if ops != [] {
      Summary(ops[..|ops| - 1]);
    }
  }

  ghost predicate FirstShut(ops: seq<Op>, i: nat) {
    i < |ops| && ops[i].Shut? && forall k :: 0 <= k < i ==> !ops[k].Shut?
  }

  /** The first close decides the reason and the mark for good. */
  lemma {:induction false} ShutFixes(ops: seq<Op>, i: nat, n: nat)
    requires FirstShut(ops, i) && n <= |ops|
    ensures After(ops[..n]).closing ==
            if n <= i then None else Some(Closing(ops[i].reason, |After(ops[..i]).accepted|))
  {
    if n > 0 {
      assert ops[..n][..n - 1] == ops[..n - 1];
      ShutFixes(ops, i, n - 1);
    }
  }

  /** What the users of a mailbox rely on, for every history the rules allow: what was delivered is a
      prefix of what was accepted, and a raise at j has a first close i before it, carries its reason,
      and follows the delivery of everything that had been accepted before that close. */
  lemma HistoryLaws(ops: seq<Op>)
    requires IsHistory(ops)
    ensures Delivered(ops) <= Accepted(ops)
    ensures forall j: nat :: j < |ops| && ops[j].Raise? ==> exists i: nat :: RaiseExplained(ops, i, j)
  {
    assert Delivered(ops) <= Accepted(ops) by { Summary(ops); }
    forall j: nat | j < |ops| && ops[j].Raise?
      ensures exists i: nat :: RaiseExplained(ops, i, j)
    {
      RaiseHasCause(ops, j);
    }
  }

  lemma RaiseHasCause(ops: seq<Op>, j: nat)
    requires IsHistory(ops) && j < |ops| && ops[j].Raise?
    ensures exists i: nat :: RaiseExplained(ops, i, j)
  {
    var i := ShutBefore(ops, j);
    RaiseLaw(ops, i, j);
    assert RaiseExplained(ops, i, j);
  }

  ghost predicate RaiseExplained(ops: seq<Op>, i: nat, j: nat) {
    && FirstShut(ops, i) && i < j < |ops| && ops[j].Raise?
    && ops[j].reason == ops[i].reason
    && Accepted(ops[..i]) <= Delivered(ops[..j])
  }

  lemma ShutBefore(ops: seq<Op>, j: nat) returns (i: nat)
    requires IsHistory(ops) && j < |ops| && ops[j].Raise?
    ensures FirstShut(ops, i)
  {
    Prefix(ops, j + 1);
    assert ops[..j + 1][..j] == ops[..j];
    assert Allowed(After(ops[..j]), ops[j]);
    if forall k :: 0 <= k < j ==> !ops[k].Shut? {
      OpenUntilShut(ops, j);
    }
    var k: nat :| k < j && ops[k].Shut?;
    i := FindFirst(ops, k);
  }

  lemma FindFirst(ops: seq<Op>, k: nat) returns (i: nat)
    requires k < |ops| && ops[k].Shut?
    ensures FirstShut(ops, i)
  {
    if j: nat :| j < k && ops[j].Shut? {
      i := FindFirst(ops, j);
    } else {
      i := k;
    }
  }

  lemma {:induction false} Prefix(ops: seq<Op>, n: nat)
    requires IsHistory(ops) && n <= |ops|
    ensures IsHistory(ops[..n])
    decreases |ops|
  {
    if n == |ops| {
      assert ops[..n] == ops;
    } else {
      Prefix(ops[..|ops| - 1], n);
      assert ops[..|ops| - 1][..n] == ops[..n];
    }
  }

  lemma {:induction false} AcceptedGrows(ops: seq<Op>, m: nat, n: nat)
    requires m <= n <= |ops|
    ensures Accepted(ops[..m]) <= Accepted(ops[..n])
  {
    if m < n {
      assert ops[..n][..n - 1] == ops[..n - 1];
      AcceptedGrows(ops, m, n - 1);
    }
  }

  lemma RaiseLaw(ops: seq<Op>, i: nat, j: nat)
    requires IsHistory(ops) && FirstShut(ops, i) && j < |ops| && ops[j].Raise?
    ensures i < j && ops[j].reason == ops[i].reason && Accepted(ops[..i]) <= Delivered(ops[..j])
  {
    Prefix(ops, j + 1);
    assert ops[..j + 1][..j] == ops[..j];
    assert Allowed(After(ops[..j]), ops[j]);
    ShutFixes(ops, i, j);
    Prefix(ops, i);
    Summary(ops[..i]);
    Prefix(ops, j);
    Summary(ops[..j]);
    AcceptedGrows(ops, i, j);
  }

  lemma {:induction false} OpenUntilShut(ops: seq<Op>, n: nat)
    requires n <= |ops| && forall k :: 0 <= k < n ==> !ops[k].Shut?
    ensures After(ops[..n]).closing.None?
  {
    if n > 0 {
      assert ops[..n][..n - 1] == ops[..n - 1];
      OpenUntilShut(ops, n - 1);
    }
  }
}
