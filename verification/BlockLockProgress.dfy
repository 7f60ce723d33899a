/**
  Progress of the block lock.  A thread that waits for a block through a directory slot follows the slot: after a failed
  check it derives from what the slot names then.  Left alone it owns that block within ten steps, exactly when the
  blocks it is going to lock are free.
 */
module BlockLockProgress {
  import opened PowerOfTwo
  import opened BlockLock
  import opened BlockLockSafety

  // ---------------------------------------------------------------------------------------------
  // Runs

  lemma {:induction false} RunSplit(s: State, a: seq<Event>, b: seq<Event>)
    requires Schedulable(s, a + b)
    ensures Schedulable(s, a) && Schedulable(After(s, a), b) && After(s, a + b) == After(After(s, a), b)
    decreases |a|
  {
    hide Enabled, Apply;
    if a == [] {
      assert a + b == b;
    } else {
      assert (a + b)[1..] == a[1..] + b;
      RunSplit(Apply(s, a[0].thread, a[0].action), a[1..], b);
    }
  }

  /** The thread has yet to lock a block it derives from `gpa`. */
  predicate Names(s: State, t: Thread, slot: Option<Slot>, gpa: Desc) {
    && t < |s.threads|
    && var act := s.threads[t].act;
       (act.Undoing? || act.Deriving?) && act.slot == slot && act.gpa == gpa
  }

  lemma StepKeepsName(s: State, t: Thread, slot: Option<Slot>, gpa: Desc, e: Event)
    requires Names(s, t, slot, gpa) && Enabled(s, e.thread, e.action)
    requires e.thread == t ==> !e.action.Derive?
    ensures Names(Apply(s, e.thread, e.action), t, slot, gpa)
  {
    hide OrdersAfter, LocksAfter, DirAfter;
  }

  lemma {:induction false} RunKeepsName(s: State, t: Thread, slot: Option<Slot>, gpa: Desc, es: seq<Event>)
    requires Names(s, t, slot, gpa) && Schedulable(s, es)
    requires forall i :: 0 <= i < |es| && es[i].thread == t ==> !es[i].action.Derive?
    ensures Names(After(s, es), t, slot, gpa)
    decreases |es|
  {
    if es != [] {
      StepKeepsName(s, t, slot, gpa, es[0]);
      hide Enabled, Apply, Names;
      RunKeepsName(Apply(s, es[0].thread, es[0].action), t, slot, gpa, es[1..]);
    }
  }

  /** A slot check that fails: the slot names another descriptor than the one locked for. */
  predicate FailsCheck(s: State, t: Thread) {
    && t < |s.threads| && s.threads[t].act.Locked? && s.threads[t].act.slot.Some?
    && s.threads[t].act.slot.value in s.dir && s.dir[s.threads[t].act.slot.value] != s.threads[t].act.gpa
  }

  lemma FailedCheckNames(s: State, t: Thread)
    requires FailsCheck(s, t)
    ensures Enabled(s, t, CheckSlot)
    ensures var slot := s.threads[t].act.slot; Names(Apply(s, t, CheckSlot), t, slot, s.dir[slot.value])
  {
  }

  /** In any run, whatever the others do meanwhile: after a failed check the thread's next derivation goes to the head
      of the descriptor the slot named when the check failed. */
  lemma RetryFollowsSlot(s: State, before: seq<Event>, between: seq<Event>, t: Thread)
    requires Schedulable(s, before + ([Event(t, CheckSlot)] + (between + [Event(t, Derive)])))
    requires forall i :: 0 <= i < |between| && between[i].thread == t ==> !between[i].action.Derive?
    requires Schedulable(s, before) && FailsCheck(After(s, before), t)
    ensures Schedulable(s, before + ([Event(t, CheckSlot)] + between))
    ensures var slot := After(s, before).threads[t].act.slot;
            var gpa := After(s, before).dir[slot.value];
            var r := After(s, before + ([Event(t, CheckSlot)] + between));
            var q := After(s, before + ([Event(t, CheckSlot)] + (between + [Event(t, Derive)])));
            && gpa < |r.orders| && t < |q.threads| && q.threads[t].act == Locking(slot, gpa, Head(r, gpa))
  {
    var check, derive := Event(t, CheckSlot), Event(t, Derive);
    var a := After(s, before);
    var slot := a.threads[t].act.slot;
    var gpa := a.dir[slot.value];
    FailedCheckNames(a, t);
    RunSplit(s, before, [check] + (between + [derive]));
    assert before + ([check] + (between + [derive])) == (before + ([check] + between)) + [derive];
    RunSplit(s, before + ([check] + between), [derive]);
    RunSplit(s, before, [check] + between);
    assert ([check] + between)[1..] == between;
    var b := Apply(a, t, CheckSlot);
    hide Enabled, Apply, Names, FailsCheck;
    assert Schedulable(b, between) && After(a, [check] + between) == After(b, between);
    RunKeepsName(b, t, slot, gpa, between);
    LastDerive(After(b, between), t, slot, gpa);
  }

  lemma LastDerive(r: State, t: Thread, slot: Option<Slot>, gpa: Desc)
    requires Names(r, t, slot, gpa) && Schedulable(r, [Event(t, Derive)])
    ensures gpa < |r.orders| && t < |After(r, [Event(t, Derive)]).threads|
    ensures After(r, [Event(t, Derive)]).threads[t].act == Locking(slot, gpa, Head(r, gpa))
  {
    assert [Event(t, Derive)][1..] == [];
  }

  // ---------------------------------------------------------------------------------------------
  // Alone

  /** The steps of one attempt to lock, other than giving up. */
  predicate Acquires(a: Action) {
    a.Derive? || a.Take? || a.CheckSlot? || a.CheckHead? || a.Undo?
  }

  predicate OwnRun(t: Thread, es: seq<Event>) {
    forall i :: 0 <= i < |es| ==> es[i].thread == t && Acquires(es[i].action)
  }

  predicate InAttempt(a: Act) {
    a.Deriving? || a.Locking? || a.Locked? || a.Checking? || a.Undoing?
  }

  /** What the thread is after: the block of whatever its slot names, or of the descriptor bound to it. */
  function Target(s: State, t: Thread): Desc
    requires t < |s.threads| && InAttempt(s.threads[t].act)
    requires s.threads[t].act.slot.Some? ==> s.threads[t].act.slot.value in s.dir
  {
    var act := s.threads[t].act;
    if act.slot.Some? then s.dir[act.slot.value] else act.gpa
  }

  /** The thread waits for a block, and its slot names one. */
  predicate Waits(s: State, t: Thread) {
    && t < |s.threads| && InAttempt(s.threads[t].act)
    && (s.threads[t].act.slot.Some? ==> s.threads[t].act.slot.value in s.dir)
    && s.threads[t].act.gpa < |s.orders| && Target(s, t) < |s.orders|
  }

  /** Nobody holds the lock word of `h`, unless the attempt itself took it. */
  predicate FreeFor(s: State, t: Thread, h: Desc)
    requires t < |s.threads|
  {
    h !in s.locks || h in ActLocks(s.groupOrder, s.threads[t].act)
  }

  /** The block waited for is free, and so is the block that the thread will lock first if it is about to lock another
      one, for which the slot may be stale. */
  predicate Clear(s: State, t: Thread)
    requires Waits(s, t)
  {
    var act := s.threads[t].act;
    && FreeFor(s, t, Head(s, Target(s, t)))
    && (act.Locking? ==> act.head !in s.locks)
    && (act.Deriving? || act.Checking? || act.Undoing? ==> FreeFor(s, t, Head(s, act.gpa)))
  }

  /** The attempt has ended with the block of `d` owned. */
  predicate Acquired(s: State, t: Thread, d: Desc) {
    t < |s.threads| && s.threads[t].act == Free && Owns(s, t, d)
  }

  /** How many steps it takes, left alone. */
  function Rank(s: State, t: Thread): (r: nat)
    requires Waits(s, t)
    ensures 1 <= r <= 10
  {
    var act := s.threads[t].act;
    var current := act.gpa == Target(s, t);
    match act
    case Undoing(_, _, _) => if current then 5 else 9
    case Deriving(_, _) => if current then 4 else 8
    case Locking(_, gpa, head) => if !current then 7 else if head == Head(s, gpa) then 3 else 8
    case Locked(_, gpa, head) => if !current then 6 else if head == Head(s, gpa) then 2 else 7
    case Checking(_, gpa, head) => if head == Head(s, gpa) then 1 else if current then 6 else 10
  }

  /** An attempt touches nothing but its own thread and lock words. */
  predicate OnlyLocks(s: State, r: State, t: Thread) {
    && r.groupOrder == s.groupOrder && r.orders == s.orders && r.dir == s.dir && |r.threads| == |s.threads|
    && forall u :: 0 <= u < |s.threads| && u != t ==> r.threads[u] == s.threads[u]
  }

  ghost predicate Nearer(s: State, t: Thread, a: Action)
    requires Waits(s, t) && Enabled(s, t, a)
  {
    var r := Apply(s, t, a);
    && OnlyLocks(s, r, t)
    && (Rank(s, t) == 1 ==> Acquired(r, t, Target(s, t)) && Clear(s, t))
    && (Rank(s, t) > 1 ==>
          && Waits(r, t) && Rank(r, t) == Rank(s, t) - 1 && Target(r, t) == Target(s, t)
          && (Clear(r, t) <==> Clear(s, t)))
  }

  lemma NearerByLock(s: State, t: Thread, a: Action)
    requires Waits(s, t) && (a.Derive? || a.Take? || a.Undo?) && Enabled(s, t, a)
    ensures Nearer(s, t, a)
  {
    hide BlockHead, Pow2;
  }

  lemma NearerByCheck(s: State, t: Thread, a: Action)
    requires Waits(s, t) && ActOk(s, t) && (a.CheckSlot? || a.CheckHead?) && Enabled(s, t, a)
    ensures Nearer(s, t, a)
  {
    hide BlockHead, Pow2;
  }

  /** Each step of an attempt brings it one step nearer. */
  lemma StepComesNearer(s: State, t: Thread, a: Action)
    requires Inv(s) && Waits(s, t) && Acquires(a) && Enabled(s, t, a)
    ensures Nearer(s, t, a)
  {
    assert ActOk(s, t);
    hide Inv, ActOk, Waits, Enabled, Nearer;
    if a.CheckSlot? || a.CheckHead? {
      NearerByCheck(s, t, a);
    } else {
      NearerByLock(s, t, a);
    }
  }

  lemma ClearCanStep(s: State, t: Thread) returns (a: Action)
    requires Waits(s, t) && Clear(s, t)
    ensures Acquires(a) && Enabled(s, t, a)
  {
    match s.threads[t].act
    case Undoing(_, _, _) => a := Undo;
    case Deriving(_, _) => a := Derive;
    case Locking(_, _, _) => a := Take;
    case Locked(_, _, _) => a := CheckSlot;
    case Checking(_, _, _) => a := CheckHead;
  }

  /** From a waiting state the thread's own steps end the attempt after `Rank` of them and no sooner, whatever they
      are: it never turns in circles. */
  lemma {:induction false} OwnRunEnds(s: State, t: Thread, es: seq<Event>)
    requires Inv(s) && Waits(s, t) && OwnRun(t, es) && Schedulable(s, es)
    ensures |es| <= Rank(s, t) && OnlyLocks(s, After(s, es), t)
    ensures |es| == Rank(s, t) ==> Acquired(After(s, es), t, Target(s, t)) && Clear(s, t)
    ensures |es| < Rank(s, t) ==> Waits(After(s, es), t) && (Clear(After(s, es), t) <==> Clear(s, t))
    decreases |es|
  {
    if es != [] {
      var r := Apply(s, t, es[0].action);
      StepKeepsInv(s, t, es[0].action);
      StepComesNearer(s, t, es[0].action);
      if Rank(s, t) == 1 {
        NothingAfter(r, t, es[1..]);
      } else {
        hide Inv, Enabled, Apply, Waits, Clear, Rank, Target, Acquired;
        OwnRunEnds(r, t, es[1..]);
      }
    }
  }

  lemma NothingAfter(s: State, t: Thread, es: seq<Event>)
    requires t < |s.threads| && s.threads[t].act == Free && OwnRun(t, es) && Schedulable(s, es)
    ensures es == []
  {
  }

  /** And as long as the way is clear there is a next step, so that it ends owning the block. */
  lemma {:induction false} ClearAcquires(s: State, t: Thread) returns (es: seq<Event>)
    requires Inv(s) && Waits(s, t) && Clear(s, t)
    ensures OwnRun(t, es) && |es| == Rank(s, t) && Schedulable(s, es)
    ensures Acquired(After(s, es), t, Target(s, t)) && OnlyLocks(s, After(s, es), t)
    decreases Rank(s, t)
  {
    var a := ClearCanStep(s, t);
    var r := Apply(s, t, a);
    StepKeepsInv(s, t, a);
    StepComesNearer(s, t, a);
    var rest: seq<Event> := [];
    if Rank(s, t) > 1 {
      rest := ClearAcquires(r, t);
    }
    hide Inv, Enabled, Apply, Waits, Clear, Rank, Target, Acquired;
    es := [Event(t, a)] + rest;
    assert es[1..] == rest;
  }

  ghost predicate MayAcquire(s: State, t: Thread, d: Desc) {
    exists es :: OwnRun(t, es) && Schedulable(s, es) && Acquired(After(s, es), t, d)
  }

  /** By its own steps a waiting thread can come to own the block exactly when the way is clear. */
  lemma AcquiresAloneIff(s: State, t: Thread)
    requires Inv(s) && Waits(s, t)
    ensures MayAcquire(s, t, Target(s, t)) <==> Clear(s, t)
  {
    if Clear(s, t) {
      var es := ClearAcquires(s, t);
    }
    if MayAcquire(s, t, Target(s, t)) {
      var es :| OwnRun(t, es) && Schedulable(s, es) && Acquired(After(s, es), t, Target(s, t));
      OwnRunEnds(s, t, es);
      assert !Waits(After(s, es), t);
    }
  }

  // ---------------------------------------------------------------------------------------------
  // In every reachable state

  /** Slots and requests name descriptors there are. */
  ghost predicate NamesExist(s: State) {
    && (forall e :: e in s.dir ==> s.dir[e] < |s.orders|)
    && (forall t :: 0 <= t < |s.threads| && InAttempt(s.threads[t].act) ==> s.threads[t].act.gpa < |s.orders|)
  }

  lemma NamesStay(s: State, t: Thread, a: Action)
    requires NamesExist(s) && Enabled(s, t, a)
    ensures NamesExist(Apply(s, t, a))
  {
    hide LocksAfter, BlockHead, Pow2;
  }

  lemma {:induction false} NamesOverRuns(s: State, es: seq<Event>)
    requires NamesExist(s) && Schedulable(s, es)
    ensures NamesExist(After(s, es))
    decreases |es|
  {
    if es != [] {
      NamesStay(s, es[0].thread, es[0].action);
      hide NamesExist, Enabled, Apply;
      NamesOverRuns(Apply(s, es[0].thread, es[0].action), es[1..]);
    }
  }

  /** In every reachable state every attempt through a slot that names a descriptor waits for a block. */
  lemma AttemptsWait(s: State, es: seq<Event>, t: Thread)
    requires NamesExist(s) && Schedulable(s, es)
    ensures var e := After(s, es);
            t < |e.threads| && InAttempt(e.threads[t].act) && (e.threads[t].act.slot.Some? ==> e.threads[t].act.slot.value in e.dir) ==>
              Waits(e, t)
  {
    NamesOverRuns(s, es);
  }

  /** In every reachable state a thread that waits for the block of what its slot names, with the way clear, owns it
      after at most ten steps of its own. */
  lemma WaiterOwnsBlock(s: State, es: seq<Event>, t: Thread) returns (own: seq<Event>)
    requires Initial(s) && Schedulable(s, es) && Waits(After(s, es), t) && Clear(After(s, es), t)
    requires After(s, es).threads[t].act.slot.Some?
    ensures OwnRun(t, own) && |own| <= 10 && Schedulable(After(s, es), own)
    ensures var e := After(s, es);
            var d := e.dir[e.threads[t].act.slot.value];
            var r := After(e, own);
            t < |r.threads| && r.threads[t].act == Free && Owns(r, t, d) && r.dir == e.dir && r.orders == e.orders
  {
    InitialInv(s);
    RunKeepsInv(s, es);
    own := ClearAcquires(After(s, es), t);
  }
}
