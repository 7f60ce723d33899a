/**
  Locks come back.  Whatever a thread is in the middle of, if it does not spin on a lock of somebody else its own steps
  end it, and it can then clear every lock word it holds: merging and splitting wait for nobody.
 */
module BlockLockRelease {
  import opened PowerOfTwo
  import opened BlockLock
  import opened BlockLockSafety
  import opened BlockLockProgress

  /** Not setting up or taking down a group, which waits for locks, not asking for what an empty slot names, and not
      spinning on a block that somebody else has locked. */
  predicate CanFinish(s: State, t: Thread) {
    && t < |s.threads| && !s.threads[t].act.GroupLocking? && !s.threads[t].act.GroupLocked?
    && (InAttempt(s.threads[t].act) ==> Waits(s, t) && Clear(s, t))
  }

  /** How many steps it takes at most to end what the thread is in the middle of. */
  function StepsLeft(s: State, t: Thread): int
    requires CanFinish(s, t)
  {
    var act := s.threads[t].act;
    if InAttempt(act) then Rank(s, t)
    else
      match act
      case Raising(_, k, next) => Pow2(k + 1) - next + 1
      case Lowering(_, k, next) => Pow2(k) - next + 1
      case Collecting(_, k, next) => Pow2(k) - next + Pow2(k) + 2
      case LoweringAll(_, k, next) => Pow2(k) - next + 1
      case Free => 0
      case _ => 1
  }

  ghost predicate OnlyBy(t: Thread, es: seq<Event>) {
    forall i :: 0 <= i < |es| ==> es[i].thread == t
  }

  ghost predicate EndsSooner(s: State, t: Thread, a: Action)
    requires CanFinish(s, t) && Enabled(s, t, a)
  {
    CanFinish(Apply(s, t, a), t) && 0 <= StepsLeft(Apply(s, t, a), t) < StepsLeft(s, t)
  }

  lemma AttemptEnds(s: State, t: Thread) returns (a: Action)
    requires Inv(s) && CanFinish(s, t) && InAttempt(s.threads[t].act)
    ensures Enabled(s, t, a) && EndsSooner(s, t, a)
  {
    a := ClearCanStep(s, t);
    StepComesNearer(s, t, a);
    hide Inv, Pow2, BlockHead, Clear;
  }

  lemma MergeEnds(s: State, t: Thread) returns (a: Action)
    requires Inv(s) && CanFinish(s, t)
    requires var act := s.threads[t].act; act.TakingBuddy? || act.CheckingBuddy? || act.Raising?
    ensures Enabled(s, t, a) && EndsSooner(s, t, a)
  {
    assert ActOk(s, t);
    hide Inv, Pow2;
    a := match s.threads[t].act
      case TakingBuddy(_, _) => BuddyBusy
      case CheckingBuddy(_, _) => RejectBuddy
      case Raising(_, k, next) => if next < Pow2(k + 1) then Raise else FinishRaise
      case _ => Derive;
  }

  lemma LowerEnds(s: State, t: Thread) returns (a: Action)
    requires CanFinish(s, t) && ActOk(s, t) && (s.threads[t].act.Lowering? || s.threads[t].act.LoweringAll?)
    ensures Enabled(s, t, a) && EndsSooner(s, t, a)
  {
    hide Pow2, BlockHead;
    if s.threads[t].act.Lowering? {
      a := if s.threads[t].act.next < Pow2(s.threads[t].act.order) then Lower else FinishLower;
    } else {
      a := if s.threads[t].act.next < Pow2(s.threads[t].act.order) then LowerAll else FinishLowerAll;
    }
  }

  lemma CollectEnds(s: State, t: Thread) returns (a: Action)
    requires CanFinish(s, t) && ActOk(s, t) && s.threads[t].act.Collecting?
    ensures Enabled(s, t, a) && EndsSooner(s, t, a)
  {
    hide Pow2, BlockHead, Range;
    var act := s.threads[t].act;
    a := if act.next == Pow2(act.order) then CollectDone
         else if act.head + act.next in s.locks then CollectFail else Collect;
  }

  /** There is always a next step, and it brings the end nearer. */
  lemma NextStep(s: State, t: Thread) returns (a: Action)
    requires Inv(s) && CanFinish(s, t) && s.threads[t].act != Free
    ensures Enabled(s, t, a) && EndsSooner(s, t, a)
  {
    var act := s.threads[t].act;
    assert ActOk(s, t);
    hide Inv, ActOk, Enabled, EndsSooner;
    if InAttempt(act) {
      a := AttemptEnds(s, t);
    } else if act.TakingBuddy? || act.CheckingBuddy? || act.Raising? {
      a := MergeEnds(s, t);
    } else if act.Collecting? {
      a := CollectEnds(s, t);
    } else {
      a := LowerEnds(s, t);
    }
  }

  /** No other thread has moved. */
  predicate OthersSame(s: State, r: State, t: Thread) {
    && |r.threads| == |s.threads| && r.groupOrder == s.groupOrder
    && forall u :: 0 <= u < |s.threads| && u != t ==> r.threads[u] == s.threads[u]
  }

  lemma {:induction false} ComesToRest(s: State, t: Thread) returns (es: seq<Event>)
    requires Inv(s) && CanFinish(s, t)
    ensures OnlyBy(t, es) && |es| <= StepsLeft(s, t) && Schedulable(s, es)
    ensures Inv(After(s, es)) && OthersSame(s, After(s, es), t) && After(s, es).threads[t].act == Free
    decreases StepsLeft(s, t)
  {
    if s.threads[t].act == Free {
      es := [];
    } else {
      var a := NextStep(s, t);
      StepKeepsInv(s, t, a);
      var r := Apply(s, t, a);
      assert OthersSame(s, r, t);
      hide Inv, Enabled, Apply, StepsLeft;
      var rest := ComesToRest(r, t);
      es := [Event(t, a)] + rest;
      assert es[1..] == rest;
    }
  }

  lemma UnlockOne(s: State, t: Thread, d: Desc)
    requires t < |s.threads| && s.threads[t].act == Free && d in s.threads[t].held + s.threads[t].extra
    ensures Enabled(s, t, Unlock(d)) && OthersSame(s, Apply(s, t, Unlock(d)), t)
    ensures var x := Apply(s, t, Unlock(d)).threads[t];
            x.act == Free && x.held + x.extra == s.threads[t].held + s.threads[t].extra - {d}
  {
    hide BlockHead, Pow2;
  }

  /** Then it unlocks one word after the other. */
  lemma {:induction false} UnlocksAll(s: State, t: Thread) returns (es: seq<Event>)
    requires Inv(s) && t < |s.threads| && s.threads[t].act == Free
    ensures OnlyBy(t, es) && |es| == |s.threads[t].held + s.threads[t].extra| && Schedulable(s, es)
    ensures Inv(After(s, es)) && OthersSame(s, After(s, es), t)
    ensures After(s, es).threads[t] == ThreadState({}, {}, Free)
    decreases |s.threads[t].held + s.threads[t].extra|
  {
    hide Inv, Enabled, Apply, ActLocks;
    var words := s.threads[t].held + s.threads[t].extra;
    if words == {} {
      assert s.threads[t].held == {} && s.threads[t].extra == {};
      es := [];
    } else {
      var d :| d in words;
      UnlockOne(s, t, d);
      StepKeepsInv(s, t, Unlock(d));
      var r := Apply(s, t, Unlock(d));
      var rest := UnlocksAll(r, t);
      es := [Event(t, Unlock(d))] + rest;
      assert es[1..] == rest;
    }
  }

  lemma {:induction false} RunJoin(s: State, a: seq<Event>, b: seq<Event>)
    requires Schedulable(s, a) && Schedulable(After(s, a), b)
    ensures Schedulable(s, a + b) && After(s, a + b) == After(After(s, a), b)
    decreases |a|
  {
    hide Enabled, Apply;
    if a == [] {
      assert a + b == b;
    } else {
      assert (a + b)[1..] == a[1..] + b;
      RunJoin(Apply(s, a[0].thread, a[0].action), a[1..], b);
    }
  }

  /** Which lock words are set after a run of one thread that ends without any: those of the others. */
  lemma WordsOfOthers(s: State, r: State, t: Thread, d: Desc)
    requires Inv(s) && Inv(r) && OthersSame(s, r, t) && t < |s.threads| && r.threads[t] == ThreadState({}, {}, Free)
    ensures d in r.locks <==> d in s.locks && s.locks[d] != t
    ensures d in r.locks ==> r.locks[d] == s.locks[d]
  {
    assert LocksAccounted(s) && LocksAccounted(r);
    hide Inv, ActLocks;
  }

  /** In every reachable state, a thread by its own steps alone gives back every lock word it holds, and takes none of
      anybody else's. */
  lemma LocksComeBack(s: State, es: seq<Event>, t: Thread) returns (own: seq<Event>)
    requires Initial(s) && Schedulable(s, es) && CanFinish(After(s, es), t)
    ensures OnlyBy(t, own) && Schedulable(After(s, es), own)
    ensures var e := After(s, es);
            var r := After(e, own);
            && r.locks.Keys == (set d | d in e.locks && e.locks[d] != t)
            && (forall d :: d in r.locks ==> r.locks[d] == e.locks[d])
            && OthersSame(e, r, t) && r.threads[t] == ThreadState({}, {}, Free)
  {
    InitialInv(s);
    RunKeepsInv(s, es);
    var e := After(s, es);
    hide Initial, Inv, Enabled, Apply;
    var a := ComesToRest(e, t);
    var b := UnlocksAll(After(e, a), t);
    RunJoin(e, a, b);
    own := a + b;
    forall d
      ensures d in After(e, own).locks <==> d in e.locks && e.locks[d] != t
      ensures d in After(e, own).locks ==> After(e, own).locks[d] == e.locks[d]
    {
      WordsOfOthers(e, After(e, own), t, d);
    }
  }
}
