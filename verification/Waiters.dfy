/** The callers blocked on the condition of a sync mailbox, as a transition system: each label is one
    region under the condition lock. It decides when put's single notify is enough. */
module Waiters {
  import opened RakTypes
  import opened SyncMailbox

  /** The timeout a caller gave: zero, a positive one, or none. */
  datatype Timeout = Zero | Finite | Never

  datatype Waiter = Getter(timeout: Timeout) | Poller(timeout: Timeout)

  datatype State = State(
    box: Box,
    asleep: seq<Waiter>,        // the condition's waiter list, oldest first
    woken: multiset<Waiter>,    // notified, lock not yet reacquired
    absorbed: nat)              // history: notified pollers that left a message in the queue

  datatype Label =
    | PutItem(item: Bytes)
    | CloseBox(reason: CloseReason)
    | Enter(w: Waiter)                    // get or poll starts
    | Resume(w: Waiter, giveUp: bool)     // a notified waiter runs; giveUp: its time is up too
    | Expire(i: nat, giveUp: bool)        // a waiter leaves the list on its own and runs

  /** Whether a waiter that finds nothing may stop, or may wait on. */
  predicate MayChoose(t: Timeout, giveUp: bool) {
    (t.Zero? ==> giveUp) && (t.Never? ==> !giveUp)
  }

  predicate Enabled(s: State, l: Label) {
    match l
    case Resume(w, giveUp) => w in s.woken && MayChoose(w.timeout, giveUp)
    case Expire(i, giveUp) =>
      i < |s.asleep| && !s.asleep[i].timeout.Never? && MayChoose(s.asleep[i].timeout, giveUp)
    case _ => true
  }

  /** A waiter evaluates the predicate with the lock held: it finishes, gives up, or goes to sleep. */
  function Check(s: State, w: Waiter, giveUp: bool): State {
    if s.box.Ready() then
      if w.Getter? then s.(box := s.box.Rest()) else s
    else if giveUp then s
    else s.(asleep := s.asleep + [w])
  }

  /** A caller that finds nothing joins the waiter list whatever its timeout: with a timeout of zero
      wait_for still waits once, and waiting releases the lock. */
  function Next(s: State, l: Label): State
    requires Enabled(s, l)
  {
    match l
    case PutItem(x) =>
      var s' := s.(box := s.box.Put(x));
      if s.box.Full() || s.asleep == [] then s'
      else s'.(asleep := s.asleep[1..], woken := s.woken + multiset{s.asleep[0]})
    case CloseBox(r) =>
      s.(box := s.box.Close(r), asleep := [], woken := s.woken + multiset(s.asleep))
    case Enter(w) => Check(s, w, false)
    case Resume(w, giveUp) =>
      Check(s.(woken := s.woken - multiset{w},
               absorbed := if w.Poller? && s.box.items != [] then s.absorbed + 1 else s.absorbed),
            w, giveUp)
    case Expire(i, giveUp) =>
      Check(s.(asleep := s.asleep[..i] + s.asleep[i + 1..]), s.asleep[i], giveUp)
  }

  ghost predicate IsRun(s: State, ls: seq<Label>)
    decreases |ls|
  {
    ls == [] || (Enabled(s, ls[0]) && IsRun(Next(s, ls[0]), ls[1..]))
  }

  ghost function After(s: State, ls: seq<Label>): State
    requires IsRun(s, ls)
    decreases |ls|
  {
    if ls == [] then s else After(Next(s, ls[0]), ls[1..])
  }

  function Initial(maxsize: Option<int>): State {
    State(Box([], None, maxsize), [], multiset{}, 0)
  }

  // ---- Under any mix of getters and pollers ----

  /** Whoever sleeps is covered: each queued message has a notified waiter on its way, unless a poller
      used up the notification; and a closed mailbox has no sleepers. */
  ghost predicate Covered(s: State) {
    && (s.asleep != [] ==> |s.woken| + s.absorbed >= |s.box.items|)
    && (s.box.exc.Some? ==> s.asleep == [])
    && s.box.WithinLimit()
  }

  lemma StepCovered(s: State, l: Label)
    requires Covered(s) && Enabled(s, l)
    ensures Covered(Next(s, l)) && Next(s, l).box.maxsize == s.box.maxsize
  {
  }

  /** In every run, under any mix of getters and pollers, the shortfall of notifications is at most the
      number absorbed by pollers, and close leaves nobody asleep. */
  lemma {:induction false} AlwaysCovered(s: State, ls: seq<Label>)
    requires Covered(s) && IsRun(s, ls)
    ensures Covered(After(s, ls)) && After(s, ls).box.maxsize == s.box.maxsize
    decreases |ls|
  {
    if ls != [] {
      StepCovered(s, ls[0]);
      AlwaysCovered(Next(s, ls[0]), ls[1..]);
    }
  }

  // ---- Lost wakeups ----

  function WokenGetters(s: State): nat {
    s.woken[Getter(Zero)] + s.woken[Getter(Finite)] + s.woken[Getter(Never)]
  }

  predicate GetterAsleep(s: State) {
    exists w :: w in s.asleep && w.Getter?
  }

  /** A get sleeps beside messages that no notified get will take. */
  predicate LostWakeup(s: State) {
    GetterAsleep(s) && WokenGetters(s) < |s.box.items|
  }

  predicate PollerAsleep(s: State) {
    exists w :: w in s.asleep && w.Poller?
  }

  /** A put can happen with someone asleep: the mailbox is open and its limit admits a message. */
  predicate CanHold(box: Box) {
    box.exc.None? && (box.maxsize.Some? ==> box.maxsize.value > 0)
  }

  /** A poll is in the waiter list or may still come back to it, and a put can happen. */
  predicate PollAtRisk(s: State) {
    && CanHold(s.box)
    && (PollerAsleep(s) || Poller(Finite) in s.woken || Poller(Never) in s.woken)
  }

  /** From here on no poll finds the mailbox unready. */
  ghost predicate NoPollWaits(s: State, ls: seq<Label>)
    requires IsRun(s, ls)
    decreases |ls|
  {
    ls == [] || ((ls[0].Enter? && ls[0].w.Poller? ==> s.box.Ready()) && NoPollWaits(Next(s, ls[0]), ls[1..]))
  }

  /** No continuation without further waiting polls loses a wakeup. */
  ghost predicate NeverLoses(s: State) {
    forall ls :: IsRun(s, ls) && NoPollWaits(s, ls) ==> !LostWakeup(After(s, ls))
  }

  /** The state of a mailbox whose sleepers are getters, each queued message with one on its way. */
  ghost predicate Backed(s: State) {
    Covered(s) && !LostWakeup(s) && !PollAtRisk(s)
  }

  lemma StepNotAtRisk(s: State, l: Label)
    requires Covered(s) && !PollAtRisk(s) && Enabled(s, l) && (l.Enter? && l.w.Poller? ==> s.box.Ready())
    ensures !PollAtRisk(Next(s, l))
  {
    HoldsOn(s, l);
    if CanHold(s.box) {
      assert !PollerAsleep(s) && Poller(Finite) !in s.woken && Poller(Never) !in s.woken;
      NoNewPoller(s, l);
    }
  }

  lemma HoldsOn(s: State, l: Label)
    requires Enabled(s, l)
    ensures CanHold(Next(s, l).box) ==> CanHold(s.box)
  {
  }

  lemma NoNewPoller(s: State, l: Label)
    requires Enabled(s, l) && (l.Enter? && l.w.Poller? ==> s.box.Ready())
    requires !PollerAsleep(s) && Poller(Finite) !in s.woken && Poller(Never) !in s.woken
    ensures !PollerAsleep(Next(s, l)) && Poller(Finite) !in Next(s, l).woken && Poller(Never) !in Next(s, l).woken
  {
    NewSleepers(s, l);
    assert Poller(Finite) !in s.asleep && Poller(Never) !in s.asleep;
    forall w | w in Next(s, l).asleep ensures w.Getter? {
      assert w in s.asleep || l == Enter(w) || l == Resume(w, false);
      assert w == Getter(w.timeout) || w == Poller(w.timeout);
    }
  }

  lemma StepNotLost(s: State, l: Label)
    requires Backed(s) && Enabled(s, l) && (l.Enter? && l.w.Poller? ==> s.box.Ready())
    ensures !LostWakeup(Next(s, l))
  {
    var s' := Next(s, l);
    StepCovered(s, l);
    if s'.asleep != [] && CanHold(s'.box) && s'.box.items != [] {
      assert s.asleep != [];
      assert s.asleep[0] in s.asleep && s.asleep[0].Getter?;
      assert WokenGetters(s) >= |s.box.items|;
      if l.Resume? {
        ResumeNotLost(s, l);
      } else if l.PutItem? {
        PutNotLost(s, l);
      } else {
        assert s'.woken == s.woken && |s'.box.items| <= |s.box.items|;
      }
    }
  }

  lemma PutNotLost(s: State, l: Label)
    requires l.PutItem? && s.asleep != [] && s.asleep[0].Getter? && WokenGetters(s) >= |s.box.items|
    ensures WokenGetters(Next(s, l)) >= |Next(s, l).box.items|
  {
    var w := s.asleep[0];
    assert w == Getter(w.timeout);
    if w.timeout.Zero? {
    } else if w.timeout.Finite? {
    } else {
    }
  }

  lemma ResumeNotLost(s: State, l: Label)
    requires Enabled(s, l) && l.Resume? && s.box.items != [] && WokenGetters(s) >= |s.box.items|
    ensures WokenGetters(Next(s, l)) >= |Next(s, l).box.items|
  {
  }

  lemma StepBacked(s: State, l: Label)
    requires Backed(s) && Enabled(s, l) && (l.Enter? && l.w.Poller? ==> s.box.Ready())
    ensures Backed(Next(s, l))
  {
    StepCovered(s, l);
    StepNotAtRisk(s, l);
    StepNotLost(s, l);
  }

  /** Who falls asleep in a step. */
  lemma NewSleepers(s: State, l: Label)
    requires Enabled(s, l)
    ensures forall w :: w in Next(s, l).asleep ==>
              w in s.asleep || (!s.box.Ready() && (l == Enter(w) || l == Resume(w, false)))
    ensures forall w :: w in Next(s, l).woken ==> w in s.woken || w in s.asleep
  {
  }

  lemma {:induction false} AlwaysBacked(s: State, ls: seq<Label>)
    requires Backed(s) && IsRun(s, ls) && NoPollWaits(s, ls)
    ensures Backed(After(s, ls))
    decreases |ls|
  {
    if ls != [] {
      StepBacked(s, ls[0]);
      AlwaysBacked(Next(s, ls[0]), ls[1..]);
    }
  }

  /** When no poll finds the mailbox unready, no run loses a wakeup. */
  lemma NoLostWakeup(maxsize: Option<int>, ls: seq<Label>)
    requires IsRun(Initial(maxsize), ls) && NoPollWaits(Initial(maxsize), ls)
    ensures !LostWakeup(After(Initial(maxsize), ls))
  {
    AlwaysBacked(Initial(maxsize), ls);
  }

  // ---- A poll at risk loses a wakeup ----

  lemma Prepend(s: State, l: Label, rest: seq<Label>) returns (ls: seq<Label>)
    requires Enabled(s, l) && !(l.Enter? && l.w.Poller?)
    requires IsRun(Next(s, l), rest) && NoPollWaits(Next(s, l), rest)
    ensures ls == [l] + rest && IsRun(s, ls) && NoPollWaits(s, ls) && After(s, ls) == After(Next(s, l), rest)
  {
    ls := [l] + rest;
    assert ls[1..] == rest;
  }

  /** A fresh get takes a queued message. */
  lemma DrainOne(s: State)
    requires Covered(s) && PollAtRisk(s) && s.box.items != []
    ensures var s' := Next(s, Enter(Getter(Never)));
            Covered(s') && PollAtRisk(s') && |s'.box.items| == |s.box.items| - 1
  {
  }

  /** A notified poll whose message was taken goes back to sleep. */
  lemma SleepAgain(s: State, t: Timeout)
    requires Covered(s) && PollAtRisk(s) && s.box.items == [] && Poller(t) in s.woken && !t.Zero?
    ensures var s' := Next(s, Resume(Poller(t), false));
            Covered(s') && PollAtRisk(s') && PollerAsleep(s') && s'.box == s.box
  {
    var s' := Next(s, Resume(Poller(t), false));
    assert s'.asleep[|s.asleep|] == Poller(t);
  }

  /** A notified get finds nothing. */
  lemma GetterWakesInVain(s: State, t: Timeout)
    requires Covered(s) && PollAtRisk(s) && PollerAsleep(s) && s.box.items == [] && Getter(t) in s.woken
    ensures var s' := Next(s, Resume(Getter(t), t.Zero?));
            && Covered(s') && PollAtRisk(s') && PollerAsleep(s')
            && s'.box == s.box && WokenGetters(s') == WokenGetters(s) - 1
  {
    var s' := Next(s, Resume(Getter(t), t.Zero?));
    assert s.asleep <= s'.asleep;
    assert forall w :: w in s.asleep ==> w in s'.asleep;
    if t.Zero? {
    } else if t.Finite? {
    } else {
    }
  }

  predicate GetterLast(s: State) {
    s.asleep != [] && s.asleep[|s.asleep| - 1].Getter?
  }

  lemma JoinLast(s: State)
    requires Covered(s) && PollAtRisk(s) && PollerAsleep(s) && s.box.items == []
    ensures var s' := Next(s, Enter(Getter(Never)));
            && Covered(s') && PollAtRisk(s') && PollerAsleep(s') && GetterLast(s')
            && s'.box == s.box && s'.woken == s.woken
  {
    var s' := Next(s, Enter(Getter(Never)));
    assert s.asleep <= s'.asleep;
    assert forall w :: w in s.asleep ==> w in s'.asleep;
  }

  /** The get at the head is notified and served. */
  lemma ServeHead(s: State, x: Bytes) returns (l: Label)
    requires Covered(s) && PollAtRisk(s) && PollerAsleep(s) && GetterLast(s)
    requires s.box.items == [] && WokenGetters(s) == 0
    requires s.asleep[0].Getter?
    ensures Enabled(Next(s, PutItem(x)), l) && l.Resume?
    ensures var s' := Next(Next(s, PutItem(x)), l);
            && Covered(s') && PollAtRisk(s') && PollerAsleep(s') && GetterLast(s') && s'.box == s.box
            && s'.woken == s.woken && s'.asleep == s.asleep[1..]
  {
    var w := s.asleep[0];
    l := Resume(w, w.timeout.Zero?);
    var s1 := Next(s, PutItem(x));
    assert s1.box.items == [x] && s1.woken == s.woken + multiset{w};
    StepCovered(s, PutItem(x));
    StepCovered(s1, l);
    assert forall v :: v in s.asleep ==> v == w || v in s.asleep[1..];
    assert s1.box.Rest().items == [];
  }

  /** The poll at the head absorbs the notification. */
  lemma PollAbsorbs(s: State, x: Bytes)
    requires CanHold(s.box) && GetterLast(s) && s.box.items == [] && WokenGetters(s) == 0 && s.asleep[0].Poller?
    ensures LostWakeup(Next(s, PutItem(x)))
  {
    var s' := Next(s, PutItem(x));
    assert s'.asleep == s.asleep[1..] && s'.box.items == [x];
    assert s'.asleep[|s'.asleep| - 1] == s.asleep[|s.asleep| - 1];
  }

  lemma WokenGetter(s: State) returns (t: Timeout)
    requires WokenGetters(s) > 0
    ensures Getter(t) in s.woken
  {
    t := if Getter(Zero) in s.woken then Zero else if Getter(Finite) in s.woken then Finite else Never;
  }

  /** While a poll is in the waiter list, or may come back to it, there is a run without any further poll
      that leaves a get asleep beside a message. */
  lemma {:induction false} AtRiskLoses(s: State, x: Bytes) returns (ls: seq<Label>)
    requires Covered(s) && PollAtRisk(s)
    ensures IsRun(s, ls) && NoPollWaits(s, ls) && LostWakeup(After(s, ls))
    decreases |s.box.items|, !PollerAsleep(s), WokenGetters(s), !GetterLast(s), |s.asleep|
  {
    if s.box.items != [] {
      DrainOne(s);
      ls := AtRiskLoses(Next(s, Enter(Getter(Never))), x);
      ls := Prepend(s, Enter(Getter(Never)), ls);
    } else if !PollerAsleep(s) {
      var t := if Poller(Finite) in s.woken then Finite else Never;
      SleepAgain(s, t);
      ls := AtRiskLoses(Next(s, Resume(Poller(t), false)), x);
      ls := Prepend(s, Resume(Poller(t), false), ls);
    } else if WokenGetters(s) > 0 {
      var t := WokenGetter(s);
      GetterWakesInVain(s, t);
      ls := AtRiskLoses(Next(s, Resume(Getter(t), t.Zero?)), x);
      ls := Prepend(s, Resume(Getter(t), t.Zero?), ls);
    } else if !GetterLast(s) {
      JoinLast(s);
      ls := AtRiskLoses(Next(s, Enter(Getter(Never))), x);
      ls := Prepend(s, Enter(Getter(Never)), ls);
    } else {
      ls := AtRiskServes(s, x);
    }
  }

  lemma {:induction false} AtRiskServes(s: State, x: Bytes) returns (ls: seq<Label>)
    requires Covered(s) && PollAtRisk(s) && PollerAsleep(s) && GetterLast(s)
    requires s.box.items == [] && WokenGetters(s) == 0
    ensures IsRun(s, ls) && NoPollWaits(s, ls) && LostWakeup(After(s, ls))
    decreases |s.asleep|
  {
    var s1 := Next(s, PutItem(x));
    if s.asleep[0].Poller? {
      PollAbsorbs(s, x);
      ls := Prepend(s, PutItem(x), []);
    } else {
      var l := ServeHead(s, x);
      ls := AtRiskServes(Next(s1, l), x);
      ls := Prepend(s1, l, ls);
      ls := Prepend(s, PutItem(x), ls);
    }
  }

  // ---- Exactly when ----

  /** From any state a run can reach: no continuation without further waiting polls loses a wakeup, if and
      only if none is lost already and no poll is left in the waiter list or able to come back to it. */
  lemma LosesIff(s: State)
    requires Covered(s)
    ensures NeverLoses(s) <==> !LostWakeup(s) && !PollAtRisk(s)
  {
    if Backed(s) {
      forall ls | IsRun(s, ls) && NoPollWaits(s, ls) ensures !LostWakeup(After(s, ls)) {
        AlwaysBacked(s, ls);
      }
    } else if LostWakeup(s) {
      assert IsRun(s, []) && NoPollWaits(s, []) && After(s, []) == s;
    } else {
      var ls := AtRiskLoses(s, []);
    }
  }

  /** A poll on a mailbox that was safe so far keeps it safe if and only if it finds the mailbox ready or
      no message can ever be put; its timeout makes no difference, so the default of zero is no help. */
  lemma PollIsSafeIff(s: State, t: Timeout)
    requires Covered(s) && NeverLoses(s)
    ensures NeverLoses(Next(s, Enter(Poller(t)))) <==> s.box.Ready() || !CanHold(s.box)
  {
    var s' := Next(s, Enter(Poller(t)));
    StepCovered(s, Enter(Poller(t)));
    LosesIff(s);
    LosesIff(s');
    if s.box.Ready() {
      assert s' == s;
    } else {
      assert s'.asleep[|s.asleep|] == Poller(t) && Poller(t) in s'.asleep;
      assert s'.box.items == [];
    }
  }

  /** The shortest such run, with the default timeout of poll: it is in the list when the put looks for the
      oldest waiter. */
  lemma DefaultPollLosesWakeup(maxsize: Option<int>, item: Bytes) returns (ls: seq<Label>)
    requires maxsize.Some? ==> maxsize.value > 0
    ensures ls == [Enter(Poller(Zero)), Enter(Getter(Never)), PutItem(item)]
    ensures IsRun(Initial(maxsize), ls) && LostWakeup(After(Initial(maxsize), ls))
  {
    var s1 := Initial(maxsize).(asleep := [Poller(Zero)]);
    var s2 := s1.(asleep := [Poller(Zero), Getter(Never)]);
    assert Next(Initial(maxsize), Enter(Poller(Zero))) == s1 && Next(s1, Enter(Getter(Never))) == s2;
    DefaultPollAbsorbs(s2, item);
    ls := Follow(s2, PutItem(item), []);
    ls := Follow(s1, Enter(Getter(Never)), ls);
    ls := Follow(Initial(maxsize), Enter(Poller(Zero)), ls);
  }

  lemma DefaultPollAbsorbs(s: State, item: Bytes)
    requires s == State(Box([], None, s.box.maxsize), [Poller(Zero), Getter(Never)], multiset{}, 0) && CanHold(s.box)
    ensures LostWakeup(Next(s, PutItem(item)))
  {
    PollAbsorbs(s, item);
  }

  lemma Follow(s: State, l: Label, rest: seq<Label>) returns (ls: seq<Label>)
    requires Enabled(s, l) && IsRun(Next(s, l), rest)
    ensures ls == [l] + rest && IsRun(s, ls) && After(s, ls) == After(Next(s, l), rest)
  {
    ls := [l] + rest;
    assert ls[1..] == rest;
  }

  /** Nothing more is needed for the queue to drain past a sleeping get: the getters already notified can
      hand out every queued message, one each, without another put. */
  lemma {:induction false} WokenGettersDrain(s: State) returns (ls: seq<Label>)
    requires Backed(s) && GetterAsleep(s)
    ensures IsRun(s, ls) && |ls| == |s.box.items|
    ensures forall i :: 0 <= i < |ls| ==> ls[i].Resume? && ls[i].w.Getter?
    ensures After(s, ls).box.items == []
    decreases |s.box.items|
  {
    if s.box.items == [] {
      ls := [];
    } else {
      var t := WokenGetter(s);
      var l := Resume(Getter(t), t.Zero?);
      StepBacked(s, l);
      var rest := WokenGettersDrain(Next(s, l));
      ls := [l] + rest;
      assert ls[1..] == rest;
    }
  }
}
