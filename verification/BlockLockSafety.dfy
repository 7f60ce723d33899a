/**
  Safety of the block lock over every interleaving: the invariant of `BlockLock` holds in every
  reachable state, no two threads are past validation for blocks sharing a descriptor, and nobody else
  moves a validated block.
 */
module BlockLockSafety {
  import opened PowerOfTwo
  import opened BlockLock

  // ---------------------------------------------------------------------------------------------
  // Preservation

  lemma BoundsKept(s: State, t: Thread, a: Action)
    requires Inv(s) && Enabled(s, t, a)
    ensures InBounds(Apply(s, t, a))
  {
    assert ActOk(s, t);
  }

  /** What the step makes of thread `t`'s own lock words. */
  ghost predicate OwnLocksOk(s: State, t: Thread, a: Action)
    requires Enabled(s, t, a)
  {
    var locks' := LocksAfter(s, t, a);
    var ts' := ThreadAfter(s, t, a);
    var s' := Apply(s, t, a);
    && RolesDisjoint(s'.groupOrder, ts')
    && (forall d :: d in LocksOf(s'.groupOrder, ts') <==> d in locks' && locks'[d] == t)
    && (forall d :: d in locks' && locks'[d] != t ==> d in s.locks && s.locks[d] == locks'[d])
    && (forall d :: d in s.locks && s.locks[d] != t ==> d in locks' && s.locks[d] == locks'[d])
  }

  /** A thread's roles are exactly the lock words it set. */
  ghost predicate OwnWords(s: State, t: Thread) {
    && t < |s.threads| && RolesDisjoint(s.groupOrder, s.threads[t])
    && (forall d :: d in LocksOf(s.groupOrder, s.threads[t]) <==> d in s.locks && s.locks[d] == t)
  }

  lemma WordsOfThread(s: State, t: Thread)
    requires LocksAccounted(s) && t < |s.threads|
    ensures OwnWords(s, t)
  {
  }

  lemma OwnLocksAcquire(s: State, t: Thread, a: Action)
    requires OwnWords(s, t) && ActOk(s, t) && HeldAreHeads(s, t) && Enabled(s, t, a)
    requires a.Begin? || a.Derive? || a.Take? || a.GiveUp? || a.CheckSlot? || a.CheckHead? || a.Undo? || a.Unlock?
    ensures OwnLocksOk(s, t, a)
  {
  }

  lemma OwnLocksBuddy(s: State, t: Thread, a: Action)
    requires OwnWords(s, t) && ActOk(s, t) && HeldAreHeads(s, t) && Enabled(s, t, a)
    requires a.ChooseBuddy? || a.BuddyBusy? || a.TakeBuddy? || a.RejectBuddy?
    ensures OwnLocksOk(s, t, a)
  {
  }

  lemma OwnLocksRaise(s: State, t: Thread, a: Action)
    requires OwnWords(s, t) && ActOk(s, t) && HeldAreHeads(s, t) && Enabled(s, t, a)
    requires a.Raise? || a.FinishRaise?
    ensures OwnLocksOk(s, t, a)
  {
  }

  lemma OwnLocksTakeHalf(s: State, t: Thread, a: Action)
    requires OwnWords(s, t) && ActOk(s, t) && HeldAreHeads(s, t) && Enabled(s, t, a)
    requires a.TakeHalf?
    ensures OwnLocksOk(s, t, a)
  {
  }

  lemma OwnLocksLower(s: State, t: Thread, a: Action)
    requires OwnWords(s, t) && ActOk(s, t) && HeldAreHeads(s, t) && Enabled(s, t, a)
    requires a.Lower?
    ensures OwnLocksOk(s, t, a)
  {
  }

  lemma OwnLocksFinishLower(s: State, t: Thread, a: Action)
    requires OwnWords(s, t) && ActOk(s, t) && HeldAreHeads(s, t) && Enabled(s, t, a)
    requires a.FinishLower?
    ensures OwnLocksOk(s, t, a)
  {
  }

  lemma OwnLocksHalf(s: State, t: Thread, a: Action)
    requires OwnWords(s, t) && ActOk(s, t) && HeldAreHeads(s, t) && Enabled(s, t, a)
    requires a.TakeHalf? || a.Lower? || a.FinishLower?
    ensures OwnLocksOk(s, t, a)
  {
    hide OwnLocksOk, OwnWords, ActOk, HeldAreHeads, Enabled;
    if a.TakeHalf? {
      OwnLocksTakeHalf(s, t, a);
    } else if a.Lower? {
      OwnLocksLower(s, t, a);
    } else {
      OwnLocksFinishLower(s, t, a);
    }
  }

  lemma OwnLocksStartCollect(s: State, t: Thread, a: Action)
    requires OwnWords(s, t) && ActOk(s, t) && HeldAreHeads(s, t) && Enabled(s, t, a)
    requires a.StartCollect?
    ensures OwnLocksOk(s, t, a)
  {
  }

  lemma OwnLocksCollectOne(s: State, t: Thread, a: Action)
    requires OwnWords(s, t) && ActOk(s, t) && HeldAreHeads(s, t) && Enabled(s, t, a)
    requires a.Collect?
    ensures OwnLocksOk(s, t, a)
  {
  }

  lemma OwnLocksCollectFail(s: State, t: Thread, a: Action)
    requires OwnWords(s, t) && ActOk(s, t) && HeldAreHeads(s, t) && Enabled(s, t, a)
    requires a.CollectFail?
    ensures OwnLocksOk(s, t, a)
  {
  }

  lemma OwnLocksCollect(s: State, t: Thread, a: Action)
    requires OwnWords(s, t) && ActOk(s, t) && HeldAreHeads(s, t) && Enabled(s, t, a)
    requires a.StartCollect? || a.Collect? || a.CollectFail?
    ensures OwnLocksOk(s, t, a)
  {
    hide OwnLocksOk, OwnWords, ActOk, HeldAreHeads, Enabled;
    if a.StartCollect? {
      OwnLocksStartCollect(s, t, a);
    } else if a.Collect? {
      OwnLocksCollectOne(s, t, a);
    } else {
      OwnLocksCollectFail(s, t, a);
    }
  }

  lemma OwnLocksReduceAll(s: State, t: Thread, a: Action)
    requires OwnWords(s, t) && ActOk(s, t) && HeldAreHeads(s, t) && Enabled(s, t, a)
    requires a.CollectDone? || a.LowerAll? || a.FinishLowerAll?
    ensures OwnLocksOk(s, t, a)
  {
  }

  lemma OwnLocksStartGroup(s: State, t: Thread, a: Action)
    requires OwnWords(s, t) && Enabled(s, t, a) && a.StartGroup?
    ensures OwnLocksOk(s, t, a)
  {
  }

  lemma OwnLocksGroupTake(s: State, t: Thread, a: Action)
    requires OwnWords(s, t) && Enabled(s, t, a) && a.GroupTake?
    ensures OwnLocksOk(s, t, a)
  {
  }

  lemma OwnLocksGroupReady(s: State, t: Thread, a: Action)
    requires OwnWords(s, t) && Enabled(s, t, a) && a.GroupReady?
    ensures OwnLocksOk(s, t, a)
  {
  }

  lemma OwnLocksGroupDone(s: State, t: Thread, a: Action)
    requires OwnWords(s, t) && ActOk(s, t) && HeldAreHeads(s, t) && Enabled(s, t, a)
    requires a.GroupDone?
    ensures OwnLocksOk(s, t, a)
  {
  }

  lemma OwnLocksSlot(s: State, t: Thread, a: Action)
    requires OwnWords(s, t) && ActOk(s, t) && HeldAreHeads(s, t) && Enabled(s, t, a)
    requires a.GroupSetOrder? || a.SlotPublish? || a.SlotChange? || a.SlotRemove?
    ensures OwnLocksOk(s, t, a)
  {
  }

  lemma OwnLocksAccept(s: State, t: Thread, a: Action)
    requires OwnWords(s, t) && ActOk(s, t) && HeldAreHeads(s, t) && Enabled(s, t, a) && a.AcceptBuddy?
    ensures OwnLocksOk(s, t, a)
  {
    var act := s.threads[t].act;
    HeadOneUp(act.head, s.orders[act.head]);
  }

  lemma OwnLocks(s: State, t: Thread, a: Action)
    requires OwnWords(s, t) && ActOk(s, t) && HeldAreHeads(s, t) && Enabled(s, t, a)
    ensures OwnLocksOk(s, t, a)
  {
    hide OwnLocksOk, OwnWords, ActOk, HeldAreHeads, Enabled;
    match a
    case AcceptBuddy => OwnLocksAccept(s, t, a);
    case Begin(_, _) => OwnLocksAcquire(s, t, a);
    case Derive => OwnLocksAcquire(s, t, a);
    case Take => OwnLocksAcquire(s, t, a);
    case GiveUp => OwnLocksAcquire(s, t, a);
    case CheckSlot => OwnLocksAcquire(s, t, a);
    case CheckHead => OwnLocksAcquire(s, t, a);
    case Undo => OwnLocksAcquire(s, t, a);
    case Unlock(_) => OwnLocksAcquire(s, t, a);
    case ChooseBuddy(_) => OwnLocksBuddy(s, t, a);
    case BuddyBusy => OwnLocksBuddy(s, t, a);
    case TakeBuddy => OwnLocksBuddy(s, t, a);
    case RejectBuddy => OwnLocksBuddy(s, t, a);
    case Raise => OwnLocksRaise(s, t, a);
    case FinishRaise => OwnLocksRaise(s, t, a);
    case TakeHalf(_) => OwnLocksHalf(s, t, a);
    case Lower => OwnLocksHalf(s, t, a);
    case FinishLower => OwnLocksHalf(s, t, a);
    case StartCollect(_) => OwnLocksCollect(s, t, a);
    case Collect => OwnLocksCollect(s, t, a);
    case CollectFail => OwnLocksCollect(s, t, a);
    case CollectDone => OwnLocksReduceAll(s, t, a);
    case LowerAll => OwnLocksReduceAll(s, t, a);
    case FinishLowerAll => OwnLocksReduceAll(s, t, a);
    case StartGroup(_) => OwnLocksStartGroup(s, t, a);
    case GroupTake => OwnLocksGroupTake(s, t, a);
    case GroupReady => OwnLocksGroupReady(s, t, a);
    case GroupSetOrder(_, _) => OwnLocksSlot(s, t, a);
    case GroupDone => OwnLocksGroupDone(s, t, a);
    case SlotPublish(_, _) => OwnLocksSlot(s, t, a);
    case SlotChange(_, _) => OwnLocksSlot(s, t, a);
    case SlotRemove(_) => OwnLocksSlot(s, t, a);
  }

  /** `s'` differs from `s` only in thread `t` and in the lock words `t` set or cleared. */
  ghost predicate OthersLocksSame(s: State, s': State, t: Thread) {
    && s'.groupOrder == s.groupOrder
    && t < |s.threads| == |s'.threads|
    && (forall u :: 0 <= u < |s.threads| && u != t ==> s'.threads[u] == s.threads[u])
    && (forall d :: d in s'.locks && s'.locks[d] != t ==> d in s.locks && s.locks[d] == s'.locks[d])
    && (forall d :: d in s.locks && s.locks[d] != t ==> d in s'.locks && s.locks[d] == s'.locks[d])
  }

  lemma LocksCombine(s: State, s': State, t: Thread)
    requires LocksAccounted(s) && OthersLocksSame(s, s', t) && OwnWords(s', t)
    ensures LocksAccounted(s')
  {
    forall u | 0 <= u < |s.threads| && u != t
      ensures OwnWords(s', u)
    {
      WordsOfThread(s, u);
    }
    forall d | d in s'.locks
      ensures s'.locks[d] < |s'.threads| && d in LocksOf(s'.groupOrder, s'.threads[s'.locks[d]])
    {
      var u := s'.locks[d];
      if u == t {
        assert OwnWords(s', t);
      } else {
        assert s.locks[d] == u;
        assert OwnWords(s', u);
      }
    }
  }

  lemma LocksKept(s: State, t: Thread, a: Action)
    requires LocksAccounted(s) && t < |s.threads| && ActOk(s, t) && HeldAreHeads(s, t) && Enabled(s, t, a)
    ensures LocksAccounted(Apply(s, t, a))
  {
    WordsOfThread(s, t);
    OwnLocks(s, t, a);
    LocksCombine(s, Apply(s, t, a), t);
  }

  // ---------------------------------------------------------------------------------------------
  // Orders

  /** The one descriptor whose order the action stores. */
  function Stored(s: State, t: Thread, a: Action): Option<Desc>
    requires Enabled(s, t, a)
  {
    var act := s.threads[t].act;
    match a
    case Raise => Some(act.low + act.next)
    case Lower => Some(act.head + act.next)
    case LowerAll => Some(act.head + act.next)
    case GroupSetOrder(d, _) => Some(d)
    case _ => None
  }

  lemma StoreIsInRegion(s: State, t: Thread, a: Action)
    requires Enabled(s, t, a)
    ensures |OrdersAfter(s, t, a)| == |s.orders|
    ensures forall m :: 0 <= m < |s.orders| && Some(m) != Stored(s, t, a) ==> OrdersAfter(s, t, a)[m] == s.orders[m]
    ensures Stored(s, t, a).Some? ==> var d := Stored(s, t, a).value;
      && d < |s.orders| && InRegion(s.groupOrder, s.threads[t].act, d)
      && forall m :: InRegion(s.groupOrder, ThreadAfter(s, t, a).act, m) <==> InRegion(s.groupOrder, s.threads[t].act, m)
  {
  }

  /** What is known of one thread when nothing is assumed about the others. */
  ghost predicate Sound(s: State, t: Thread) {
    InBounds(s) && OwnWords(s, t) && ActOk(s, t) && HeldAreHeads(s, t)
  }

  lemma StoredIsLocked(s: State, t: Thread, a: Action)
    requires Sound(s, t) && Enabled(s, t, a) && Stored(s, t, a).Some?
    ensures var d := Stored(s, t, a).value; d < |s.orders| && Head(s, d) in ActLocks(s.groupOrder, s.threads[t].act)
    ensures var d := Stored(s, t, a).value; Head(s, d) in s.locks && s.locks[Head(s, d)] == t
  {
    StoreIsInRegion(s, t, a);
    var d := Stored(s, t, a).value;
    RegionHeadLocked(s, t, d);
    assert Head(s, d) in LocksOf(s.groupOrder, s.threads[t]);
  }

  /** A block with a member in the region a thread rewrites lies inside that region. */
  lemma RegionClosed(s: State, t: Thread, d: Desc, m: Desc)
    requires t < |s.threads| && ActOk(s, t) && InBounds(s)
    requires d < |s.orders| && InRegion(s.groupOrder, s.threads[t].act, d)
    requires BlockHead(m, s.orders[d]) == Head(s, d)
    ensures InRegion(s.groupOrder, s.threads[t].act, m)
  {
    match s.threads[t].act
    case Raising(low, k, next) => WithinAligned(low, d, m, s.orders[d], k + 1);
    case Lowering(head, k, next) => WithinAligned(head, d, m, s.orders[d], k);
    case LoweringAll(head, k, next) => WithinAligned(head, d, m, s.orders[d], k);
    case GroupLocked(base) => WithinAligned(base, d, m, s.orders[d], s.groupOrder);
  }

  lemma WithinAligned(base: nat, d: nat, m: nat, j: nat, k: nat)
    requires BlockHead(base, k) == base && base <= d < base + Pow2(k)
    requires j <= k && BlockHead(m, j) == BlockHead(d, j)
    ensures base <= m < base + Pow2(k)
  {
    HeadUnique(base, d, k);
    BlockNesting(d, m, j, k);
    HeadBounds(m, k);
  }

  // ---------------------------------------------------------------------------------------------
  // The acting thread

  /** A validated block of a thread is uniform. */
  ghost predicate HeldUniform(s: State, t: Thread) {
    t < |s.threads| && forall h :: h in s.threads[t].held ==> h < |s.orders| && Uniform(s, h)
  }

  lemma BlockOrders(s: State, h: Desc, x: Desc)
    requires h < |s.orders| && Head(s, h) == h && Uniform(s, h)
    requires h <= x < h + Pow2(s.orders[h]) && x < |s.orders|
    ensures s.orders[x] == s.orders[h] && Head(s, x) == h
  {
    HeadUnique(h, x, s.orders[h]);
  }

  lemma BlockInRange(s: State, h: Desc, k: nat)
    requires InBounds(s) && h < |s.orders| && k <= s.groupOrder && BlockHead(h, k) == h
    ensures InRange(s, h, k)
  {
    BlockNesting(h, h, k, s.groupOrder);
  }

  lemma OwnActCheckHead(s: State, t: Thread, a: Action)
    requires Sound(s, t) && Enabled(s, t, a) && a.CheckHead?
    requires Uniform(s, s.threads[t].act.gpa) || s.threads[t].act.head != Head(s, s.threads[t].act.gpa)
    ensures var s' := Apply(s, t, a); ActOk(s', t) && HeldAreHeads(s', t)
  {
    var gpa := s.threads[t].act.gpa;
    HeadOfHead(gpa, s.orders[gpa], s.orders[gpa]);
    HeadBounds(gpa, s.orders[gpa]);
  }

  lemma OwnActAcquire(s: State, t: Thread, a: Action)
    requires Sound(s, t) && Enabled(s, t, a)
    requires a.Begin? || a.Derive? || a.Take? || a.GiveUp? || a.CheckSlot? || a.Undo? || a.Unlock?
    ensures var s' := Apply(s, t, a); ActOk(s', t) && HeldAreHeads(s', t)
  {
  }

  lemma OwnActAccept(s: State, t: Thread, a: Action)
    requires Sound(s, t) && HeldUniform(s, t) && Enabled(s, t, a) && a.AcceptBuddy?
    requires Uniform(s, s.threads[t].act.buddy)
    ensures var s' := Apply(s, t, a); ActOk(s', t) && HeldAreHeads(s', t)
  {
    var s' := Apply(s, t, a);
    var head, buddy := s.threads[t].act.head, s.threads[t].act.buddy;
    var k := s.orders[head];
    HeadOneUp(head, k);
    var low := if head < buddy then head else buddy;
    HeadOfHead(head, k + 1, k + 1);
    assert BlockHead(low, k + 1) == low;
    BuddyHalves(low, k);
    BlockInRange(s, low, k + 1);
    forall x | low <= x < low + Pow2(k + 1)
      ensures s.orders[x] == k
    {
      if x < low + Pow2(k) {
        BlockOrders(s, low, x);
      } else {
        BlockOrders(s, low + Pow2(k), x);
      }
    }
  }

  lemma OwnActSplit(s: State, t: Thread, a: Action)
    requires Sound(s, t) && HeldUniform(s, t) && Enabled(s, t, a)
    requires a.TakeHalf? || a.CollectDone?
    ensures var s' := Apply(s, t, a); ActOk(s', t) && HeldAreHeads(s', t)
  {
    var head := if a.TakeHalf? then a.head else s.threads[t].act.head;
    var k := s.orders[head];
    BlockInRange(s, head, k);
    forall x | head <= x < head + Pow2(k)
      ensures s.orders[x] == k
    {
      BlockOrders(s, head, x);
    }
  }

  lemma OwnActBuddy(s: State, t: Thread, a: Action)
    requires Sound(s, t) && Enabled(s, t, a)
    requires a.ChooseBuddy? || a.BuddyBusy? || a.TakeBuddy? || a.RejectBuddy?
    ensures var s' := Apply(s, t, a); ActOk(s', t) && HeldAreHeads(s', t)
  {
  }

  lemma OwnActCollect(s: State, t: Thread, a: Action)
    requires Sound(s, t) && Enabled(s, t, a)
    requires a.StartCollect? || a.Collect? || a.CollectFail?
    ensures var s' := Apply(s, t, a); ActOk(s', t) && HeldAreHeads(s', t)
  {
  }

  /** The validated blocks of a thread are not the ones it rewrites. */
  lemma HeldNotStored(s: State, t: Thread, a: Action, h: Desc)
    requires Sound(s, t) && Enabled(s, t, a) && h in s.threads[t].held
    ensures Some(h) != Stored(s, t, a)
  {
    if Stored(s, t, a) == Some(h) {
      StoredIsLocked(s, t, a);
      assert false;
    }
  }

  lemma OwnActStore(s: State, t: Thread, a: Action)
    requires Sound(s, t) && Enabled(s, t, a) && Stored(s, t, a).Some?
    ensures ActOk(Apply(s, t, a), t)
  {
  }

  lemma OwnHeldStore(s: State, t: Thread, a: Action)
    requires Sound(s, t) && Enabled(s, t, a) && Stored(s, t, a).Some?
    ensures HeldAreHeads(Apply(s, t, a), t)
  {
    var s' := Apply(s, t, a);
    StoreIsInRegion(s, t, a);
    forall h | h in s'.threads[t].held
      ensures h < |s'.orders| && Head(s', h) == h
    {
      assert s'.threads[t].held == s.threads[t].held;
      HeldNotStored(s, t, a, h);
      assert h < |s.orders| && Head(s, h) == h;
    }
  }

  lemma OwnActFinishLower(s: State, t: Thread, a: Action)
    requires Sound(s, t) && Enabled(s, t, a)
    requires a.FinishLower?
    ensures var s' := Apply(s, t, a); ActOk(s', t) && HeldAreHeads(s', t)
  {
    BuddyHalves(s.threads[t].act.head, s.threads[t].act.order - 1);
  }

  lemma OwnActFinish(s: State, t: Thread, a: Action)
    requires Sound(s, t) && Enabled(s, t, a)
    requires a.FinishRaise? || a.FinishLowerAll? || a.GroupDone?
    ensures var s' := Apply(s, t, a); ActOk(s', t) && HeldAreHeads(s', t)
  {
  }

  lemma OwnActRest(s: State, t: Thread, a: Action)
    requires Sound(s, t) && Enabled(s, t, a)
    requires a.StartGroup? || a.GroupTake? || a.GroupReady? || a.SlotPublish? || a.SlotChange? || a.SlotRemove?
    ensures var s' := Apply(s, t, a); ActOk(s', t) && HeldAreHeads(s', t)
  {
  }

  /** The descriptor whose block the thread is about to call its own. */
  function ReliesOn(s: State, t: Thread, a: Action): Option<Desc>
    requires Enabled(s, t, a)
    ensures ReliesOn(s, t, a).Some? ==> ReliesOn(s, t, a).value < |s.orders|
  {
    var act := s.threads[t].act;
    if a.AcceptBuddy? then Some(act.buddy)
    else if a.CheckHead? && act.head == Head(s, act.gpa) then Some(act.gpa)
    else None
  }

  lemma OwnAct(s: State, t: Thread, a: Action)
    requires Sound(s, t) && HeldUniform(s, t) && Enabled(s, t, a)
    requires ReliesOn(s, t, a).Some? ==> Uniform(s, ReliesOn(s, t, a).value)
    ensures var s' := Apply(s, t, a); ActOk(s', t) && HeldAreHeads(s', t)
  {
    hide ActOk, HeldAreHeads, HeldUniform, Uniform, Sound, Enabled, Apply;
    if Stored(s, t, a).Some? {
      OwnActStore(s, t, a);
      OwnHeldStore(s, t, a);
    } else {
      match a
      case AcceptBuddy => OwnActAccept(s, t, a);
      case CheckHead => OwnActCheckHead(s, t, a);
      case TakeHalf(_) => OwnActSplit(s, t, a);
      case CollectDone => OwnActSplit(s, t, a);
      case ChooseBuddy(_) => OwnActBuddy(s, t, a);
      case BuddyBusy => OwnActBuddy(s, t, a);
      case TakeBuddy => OwnActBuddy(s, t, a);
      case RejectBuddy => OwnActBuddy(s, t, a);
      case StartCollect(_) => OwnActCollect(s, t, a);
      case Collect => OwnActCollect(s, t, a);
      case CollectFail => OwnActCollect(s, t, a);
      case FinishRaise => OwnActFinish(s, t, a);
      case FinishLower => OwnActFinishLower(s, t, a);
      case FinishLowerAll => OwnActFinish(s, t, a);
      case GroupDone => OwnActFinish(s, t, a);
      case StartGroup(_) => OwnActRest(s, t, a);
      case GroupTake => OwnActRest(s, t, a);
      case GroupReady => OwnActRest(s, t, a);
      case SlotPublish(_, _) => OwnActRest(s, t, a);
      case SlotChange(_, _) => OwnActRest(s, t, a);
      case SlotRemove(_) => OwnActRest(s, t, a);
      case _ => OwnActAcquire(s, t, a);
    }
  }

  // ---------------------------------------------------------------------------------------------
  // The other threads

  /** Lock words of two threads are different words. */
  lemma Exclusive(s: State, t: Thread, u: Thread, d: Desc)
    requires OwnWords(s, t) && OwnWords(s, u)
    requires d in LocksOf(s.groupOrder, s.threads[t]) && d in LocksOf(s.groupOrder, s.threads[u])
    ensures t == u
  {
  }

  lemma OtherHeld(s: State, t: Thread, a: Action, u: Thread, h: Desc)
    requires Sound(s, t) && Sound(s, u) && t != u && Enabled(s, t, a) && h in s.threads[u].held
    ensures var s' := Apply(s, t, a); h < |s'.orders| && s'.orders[h] == s.orders[h] && Head(s', h) == h
  {
    StoreIsInRegion(s, t, a);
    if Stored(s, t, a) == Some(h) {
      StoredIsLocked(s, t, a);
      Exclusive(s, t, u, h);
    }
  }

  lemma OtherRegion(s: State, t: Thread, a: Action, u: Thread, m: Desc)
    requires Sound(s, t) && Sound(s, u) && t != u && Enabled(s, t, a)
    requires m < |s.orders| && InRegion(s.groupOrder, s.threads[u].act, m)
    ensures |Apply(s, t, a).orders| == |s.orders| && Apply(s, t, a).orders[m] == s.orders[m]
  {
    StoreIsInRegion(s, t, a);
    if Stored(s, t, a) == Some(m) {
      StoredIsLocked(s, t, a);
      RegionHeadLocked(s, u, m);
      Exclusive(s, t, u, Head(s, m));
    }
  }

  /** Making a descriptor a head takes its lock, so a thread that locked it sees the slot it re-read. */
  lemma OtherCheckingStored(s: State, s': State, t: Thread, u: Thread, gpa: Desc)
    requires InBounds(s') && OwnWords(s', t) && ActOk(s', t) && OwnWords(s', u) && t != u
    requires gpa < |s'.orders| && InRegion(s'.groupOrder, s'.threads[t].act, gpa)
    ensures Head(s', gpa) !in LocksOf(s'.groupOrder, s'.threads[u])
  {
    RegionHeadLocked(s', t, gpa);
  }

  /** A slot is retargeted or cleared only by a thread that owns the block it names. */
  lemma SlotOwned(s: State, t: Thread, a: Action, u: Thread, entry: Slot)
    requires Sound(s, t) && OwnWords(s, u) && t != u && Enabled(s, t, a)
    requires (a.SlotChange? || a.SlotRemove?) && a.entry == entry
    ensures entry in s.dir && s.dir[entry] < |s.orders|
    ensures Head(s, s.dir[entry]) !in LocksOf(s.groupOrder, s.threads[u])
  {
    if a.SlotRemove? {
      RegionHeadLocked(s, t, s.dir[entry]);
    }
  }

  lemma SlotKept(s: State, t: Thread, a: Action, u: Thread, entry: Slot)
    requires Sound(s, t) && OwnWords(s, u) && t != u && Enabled(s, t, a)
    requires entry in s.dir && s.dir[entry] < |s.orders|
    requires Head(s, s.dir[entry]) in LocksOf(s.groupOrder, s.threads[u])
    ensures entry in DirAfter(s, a) && DirAfter(s, a)[entry] == s.dir[entry]
  {
    if (a.SlotChange? || a.SlotRemove?) && a.entry == entry {
      SlotOwned(s, t, a, u, entry);
    }
  }

  ghost predicate OwnAfter(s: State, t: Thread, a: Action, u: Thread)
    requires Enabled(s, t, a)
  {
    var s' := Apply(s, t, a);
    InBounds(s') && OwnWords(s', t) && ActOk(s', t) && OwnWords(s', u)
  }

  lemma OtherChecking(s: State, t: Thread, a: Action, u: Thread)
    requires Sound(s, t) && Sound(s, u) && t != u && Enabled(s, t, a) && s.threads[u].act.Checking?
    requires OwnAfter(s, t, a, u)
    ensures ActOk(Apply(s, t, a), u)
  {
    var s' := Apply(s, t, a);
    var slot, gpa, head := s.threads[u].act.slot, s.threads[u].act.gpa, s.threads[u].act.head;
    StoreIsInRegion(s, t, a);
    assert s'.threads[u] == s.threads[u] && |s'.orders| == |s.orders|;
    assert head in LocksOf(s.groupOrder, s.threads[u]);
    if gpa < |s.orders| && Head(s', gpa) == head && slot.Some? {
      if Stored(s, t, a) == Some(gpa) {
        OtherCheckingStored(s, s', t, u, gpa);
      } else {
        assert Head(s, gpa) == head;
        SlotKept(s, t, a, u, slot.value);
      }
    }
  }

  lemma OtherHeldHeads(s: State, t: Thread, a: Action, u: Thread)
    requires Sound(s, t) && Sound(s, u) && t != u && Enabled(s, t, a)
    ensures HeldAreHeads(Apply(s, t, a), u)
  {
    var s' := Apply(s, t, a);
    forall h | h in s'.threads[u].held
      ensures h < |s'.orders| && Head(s', h) == h
    {
      OtherHeld(s, t, a, u, h);
    }
  }

  /** What the rewriting acts say survives anything that leaves their region alone. */
  lemma RegionActFrame(s: State, s': State, u: Thread)
    requires u < |s.threads| && ActOk(s, u) && u < |s'.threads| && s'.threads[u] == s.threads[u]
    requires s'.groupOrder == s.groupOrder && |s'.orders| == |s.orders|
    requires forall m :: 0 <= m < |s.orders| && InRegion(s.groupOrder, s.threads[u].act, m) ==> s'.orders[m] == s.orders[m]
    requires forall h :: h in s.threads[u].held && h < |s.orders| ==> s'.orders[h] == s.orders[h]
    requires !s.threads[u].act.Checking?
    ensures ActOk(s', u)
  {
  }

  lemma OtherAct(s: State, t: Thread, a: Action, u: Thread)
    requires Sound(s, t) && Sound(s, u) && t != u && Enabled(s, t, a)
    requires OwnAfter(s, t, a, u)
    ensures ActOk(Apply(s, t, a), u)
  {
    var s' := Apply(s, t, a);
    if s.threads[u].act.Checking? {
      OtherChecking(s, t, a, u);
    } else {
      StoreIsInRegion(s, t, a);
      forall h | h in s.threads[u].held && h < |s.orders|
        ensures s'.orders[h] == s.orders[h]
      {
        OtherHeld(s, t, a, u, h);
      }
      forall m | 0 <= m < |s.orders| && InRegion(s.groupOrder, s.threads[u].act, m)
        ensures s'.orders[m] == s.orders[m]
      {
        OtherRegion(s, t, a, u, m);
      }
      RegionActFrame(s, s', u);
    }
  }

  // ---------------------------------------------------------------------------------------------
  // Uniform blocks

  /** Member `m` is in a uniform block, or its head's lock is held by the thread rewriting it. */
  ghost predicate BlockOk(s: State, m: Desc)
    requires m < |s.orders|
  {
    Uniform(s, m) || UnderRewrite(s, m)
  }

  lemma RegionUnderRewrite(s: State, t: Thread, m: Desc)
    requires Sound(s, t) && m < |s.orders| && InRegion(s.groupOrder, s.threads[t].act, m)
    ensures UnderRewrite(s, m)
  {
    RegionHeadLocked(s, t, m);
    assert Head(s, m) in LocksOf(s.groupOrder, s.threads[t]);
  }

  /** A step that stores no order, seen from a member outside the acting thread's region. */
  lemma UniformAfterStore(s: State, t: Thread, a: Action, m: Desc)
    requires Sound(s, t) && Enabled(s, t, a) && m < |s.orders| && Uniform(s, m)
    requires Stored(s, t, a).Some? ==> !InRegion(s.groupOrder, s.threads[t].act, m)
    ensures |Apply(s, t, a).orders| == |s.orders| && Uniform(Apply(s, t, a), m)
  {
    var s' := Apply(s, t, a);
    StoreIsInRegion(s, t, a);
    if Stored(s, t, a).Some? {
      var d := Stored(s, t, a).value;
      if BlockHead(d, s.orders[m]) == Head(s, m) {
        assert s.orders[d] == s.orders[m];
        RegionClosed(s, t, d, m);
      }
      assert s'.orders[m] == s.orders[m];
    } else {
      assert s'.orders == s.orders;
    }
  }

  /** The rewriter of a block keeps the lock of its head through the steps of others. */
  lemma RewriteByOther(s: State, t: Thread, a: Action, m: Desc)
    requires Sound(s, t) && Enabled(s, t, a) && m < |s.orders| && UnderRewrite(s, m)
    requires var u := s.locks[Head(s, m)]; u != t && Sound(s, u) && OwnWords(Apply(s, t, a), u)
    ensures |Apply(s, t, a).orders| == |s.orders| && UnderRewrite(Apply(s, t, a), m)
  {
    var u := s.locks[Head(s, m)];
    OtherRegion(s, t, a, u, m);
    RegionHeadLocked(s, u, m);
    var s' := Apply(s, t, a);
    assert s'.threads[u] == s.threads[u];
    assert Head(s', m) == Head(s, m);
    assert Head(s, m) in LocksOf(s'.groupOrder, s'.threads[u]);
  }

  /** A thread that stops rewriting leaves uniform blocks behind. */
  lemma FinishedUniform(s: State, t: Thread, a: Action, m: Desc)
    requires Sound(s, t) && Enabled(s, t, a) && m < |s.orders|
    requires InRegion(s.groupOrder, s.threads[t].act, m) && !InRegion(s.groupOrder, ThreadAfter(s, t, a).act, m)
    ensures Uniform(s, m) && s.orders == OrdersAfter(s, t, a)
  {
    var act := s.threads[t].act;
    StoreIsInRegion(s, t, a);
    if a.GroupDone? {
      assert Uniform(s, m);
    } else {
      forall x | 0 <= x < |s.orders| && BlockHead(x, s.orders[m]) == Head(s, m)
        ensures s.orders[x] == s.orders[m]
      {
        RegionClosed(s, t, m, x);
        if a.FinishLower? {
          HalfOrWhole(act.head, act.order - 1, m);
        }
      }
    }
  }

  lemma BlockKept(s: State, t: Thread, a: Action, m: Desc)
    requires Sound(s, t) && Enabled(s, t, a) && m < |s.orders| && BlockOk(s, m) && Sound(Apply(s, t, a), t)
    requires UnderRewrite(s, m) ==> var u := s.locks[Head(s, m)]; Sound(s, u) && OwnWords(Apply(s, t, a), u)
    ensures |Apply(s, t, a).orders| == |s.orders| && BlockOk(Apply(s, t, a), m)
  {
    var s' := Apply(s, t, a);
    StoreIsInRegion(s, t, a);
    assert s'.threads[t] == ThreadAfter(s, t, a);
    if InRegion(s.groupOrder, s.threads[t].act, m) {
      if InRegion(s.groupOrder, ThreadAfter(s, t, a).act, m) {
        RegionUnderRewrite(s', t, m);
      } else {
        FinishedUniform(s, t, a, m);
      }
    } else if Uniform(s, m) {
      UniformAfterStore(s, t, a, m);
    } else {
      RewriteByOther(s, t, a, m);
    }
  }

  // ---------------------------------------------------------------------------------------------
  // One step

  lemma InvIsSound(s: State, t: Thread)
    requires Inv(s) && t < |s.threads|
    ensures Sound(s, t)
  {
    WordsOfThread(s, t);
    assert ActOk(s, t) && HeldAreHeads(s, t);
  }

  lemma HeldAreUniform(s: State, t: Thread)
    requires Inv(s) && t < |s.threads|
    ensures HeldUniform(s, t)
  {
    forall h | h in s.threads[t].held
      ensures h < |s.orders| && Uniform(s, h)
    {
      HeldBlockUniform(s, t, h);
    }
  }

  /** A thread holding the lock of a derived head, and rewriting nothing, sees a uniform block. */
  lemma LockedIsUniform(s: State, t: Thread, m: Desc)
    requires Inv(s) && t < |s.threads| && m < |s.orders|
    requires Head(s, m) in LocksOf(s.groupOrder, s.threads[t]) && !InRegion(s.groupOrder, s.threads[t].act, m)
    ensures Uniform(s, m)
  {
    assert Uniform(s, m) || UnderRewrite(s, m);
  }

  lemma RelianceMet(s: State, t: Thread, a: Action)
    requires Inv(s) && Enabled(s, t, a) && ReliesOn(s, t, a).Some?
    ensures Uniform(s, ReliesOn(s, t, a).value)
  {
    var m := ReliesOn(s, t, a).value;
    InvIsSound(s, t);
    var act := s.threads[t].act;
    if a.AcceptBuddy? {
      var k := s.orders[act.head];
      HeadOneUp(act.head, k);
      HeadOfHead(act.head, k + 1, k + 1);
      BuddyHalves(BlockHead(act.head, k + 1), k);
      assert Head(s, act.buddy) == act.buddy;
    }
    LockedIsUniform(s, t, m);
  }

  lemma ThreadsKept(s: State, t: Thread, a: Action, u: Thread)
    requires Inv(s) && Enabled(s, t, a) && u < |s.threads|
    ensures Sound(Apply(s, t, a), u)
  {
    var s' := Apply(s, t, a);
    InvIsSound(s, t);
    BoundsKept(s, t, a);
    LocksKept(s, t, a);
    HeldAreUniform(s, t);
    if ReliesOn(s, t, a).Some? {
      RelianceMet(s, t, a);
    }
    OwnAct(s, t, a);
    WordsOfThread(s', t);
    WordsOfThread(s', u);
    if u != t {
      InvIsSound(s, u);
      OtherHeldHeads(s, t, a, u);
      OtherAct(s, t, a, u);
    }
  }

  /** Every step of every thread keeps the invariant. */
  lemma StepKeepsInv(s: State, t: Thread, a: Action)
    requires Inv(s) && Enabled(s, t, a)
    ensures Inv(Apply(s, t, a))
  {
    var s' := Apply(s, t, a);
    BoundsKept(s, t, a);
    LocksKept(s, t, a);
    forall u | 0 <= u < |s'.threads|
      ensures ActOk(s', u) && HeldAreHeads(s', u)
    {
      ThreadsKept(s, t, a, u);
    }
    InvIsSound(s, t);
    StoreIsInRegion(s, t, a);
    forall m | 0 <= m < |s'.orders|
      ensures Uniform(s', m) || UnderRewrite(s', m)
    {
      ThreadsKept(s, t, a, t);
      if UnderRewrite(s, m) {
        InvIsSound(s, s.locks[Head(s, m)]);
        ThreadsKept(s, t, a, s.locks[Head(s, m)]);
      }
      assert BlockOk(s, m);
      BlockKept(s, t, a, m);
    }
  }

  // ---------------------------------------------------------------------------------------------
  // Whole runs

  datatype Event = Event(thread: Thread, action: Action)

  /** Every event of the schedule can happen when its turn comes. */
  predicate Schedulable(s: State, es: seq<Event>)
    decreases |es|
  {
    es == [] || (Enabled(s, es[0].thread, es[0].action) && Schedulable(Apply(s, es[0].thread, es[0].action), es[1..]))
  }

  function After(s: State, es: seq<Event>): State
    requires Schedulable(s, es)
    decreases |es|
  {
    if es == [] then s else After(Apply(s, es[0].thread, es[0].action), es[1..])
  }

  lemma InitialInv(s: State)
    requires Initial(s)
    ensures Inv(s)
  {
    forall t | 0 <= t < |s.threads|
      ensures LocksOf(s.groupOrder, s.threads[t]) == {}
    {
      assert s.threads[t] == ThreadState({}, {}, Free);
    }
  }

  lemma {:induction false} RunKeepsInv(s: State, es: seq<Event>)
    requires Inv(s) && Schedulable(s, es)
    ensures Inv(After(s, es))
    decreases |es|
  {
    if es != [] {
      StepKeepsInv(s, es[0].thread, es[0].action);
      RunKeepsInv(Apply(s, es[0].thread, es[0].action), es[1..]);
    }
  }

  /** Block-lock exclusion: in no interleaving are two threads past validation for the same descriptor,
      whatever merging, splitting and retargeting went on. */
  lemma MutualExclusion(s: State, es: seq<Event>, t: Thread, u: Thread, m: Desc)
    requires Initial(s) && Schedulable(s, es)
    requires Owns(After(s, es), t, m) && Owns(After(s, es), u, m)
    ensures t == u
  {
    InitialInv(s);
    RunKeepsInv(s, es);
    OwnerHoldsLock(After(s, es), t, m);
    OwnerHoldsLock(After(s, es), u, m);
  }

  /** The same over whole blocks: the descriptors spanned by validated heads of two threads are apart. */
  lemma ValidatedBlocksDisjoint(s: State, es: seq<Event>, t: Thread, u: Thread, h: Desc, g: Desc)
    requires Initial(s) && Schedulable(s, es) && t != u
    requires var e := After(s, es);
             t < |e.threads| && u < |e.threads| && h in e.threads[t].held && g in e.threads[u].held
    ensures var e := After(s, es);
            && h < |e.orders| && g < |e.orders|
            && (h + Pow2(e.orders[h]) <= g || g + Pow2(e.orders[g]) <= h)
  {
    InitialInv(s);
    RunKeepsInv(s, es);
    var e := After(s, es);
    HeldBlockUniform(e, t, h);
    HeldBlockUniform(e, u, g);
    assert ActOk(e, t) && ActOk(e, u);
    if g <= h < g + Pow2(e.orders[g]) {
      BlockOrders(e, g, h);
      OwnerHoldsLock(e, t, h);
      OwnerHoldsLock(e, u, h);
    } else if h <= g < h + Pow2(e.orders[h]) {
      BlockOrders(e, h, g);
      OwnerHoldsLock(e, t, g);
      OwnerHoldsLock(e, u, g);
    }
  }

  /** What a thread owns, no step of another thread moves: order, head and ownership stay, and so does
      every directory slot that names it. */
  lemma OwnedIsStable(s: State, t: Thread, a: Action, u: Thread, m: Desc)
    requires Inv(s) && Enabled(s, t, a) && t != u && Owns(s, u, m)
    ensures var s' := Apply(s, t, a);
            && |s'.orders| == |s.orders| && s'.orders[m] == s.orders[m] && Owns(s', u, m)
            && forall entry :: entry in s.dir && s.dir[entry] == m ==> entry in s'.dir && s'.dir[entry] == m
  {
    InvIsSound(s, t);
    InvIsSound(s, u);
    StoreIsInRegion(s, t, a);
    OwnerHoldsLock(s, u, m);
    if Stored(s, t, a) == Some(m) {
      StoredIsLocked(s, t, a);
    }
    assert Head(s, m) in LocksOf(s.groupOrder, s.threads[u]);
    forall entry | entry in s.dir && s.dir[entry] == m
      ensures entry in DirAfter(s, a) && DirAfter(s, a)[entry] == m
    {
      SlotKept(s, t, a, u, entry);
    }
  }

  /** Over any stretch of steps of the others. */
  lemma {:induction false} OwnedStaysPut(s: State, es: seq<Event>, u: Thread, m: Desc)
    requires Inv(s) && Schedulable(s, es) && Owns(s, u, m)
    requires forall i :: 0 <= i < |es| ==> es[i].thread != u
    ensures var e := After(s, es);
            && |e.orders| == |s.orders| && e.orders[m] == s.orders[m] && Owns(e, u, m)
            && forall entry :: entry in s.dir && s.dir[entry] == m ==> entry in e.dir && e.dir[entry] == m
    decreases |es|
  {
    if es != [] {
      OwnedIsStable(s, es[0].thread, es[0].action, u, m);
      StepKeepsInv(s, es[0].thread, es[0].action);
      OwnedStaysPut(Apply(s, es[0].thread, es[0].action), es[1..], u, m);
    }
  }

  /** The two re-reads do not happen at one instant, yet when the second succeeds the thread owns the
      block of the descriptor its slot names at that moment. */
  lemma ValidationIsCurrent(s: State, es: seq<Event>, t: Thread)
    requires Initial(s) && Schedulable(s, es) && Enabled(After(s, es), t, CheckHead)
    requires var e := After(s, es); Apply(e, t, CheckHead).threads[t].act.Free?
    ensures var e := After(s, es);
            var act := e.threads[t].act;
            && Owns(Apply(e, t, CheckHead), t, act.gpa)
            && (act.slot.Some? ==> act.slot.value in e.dir && e.dir[act.slot.value] == act.gpa)
  {
    InitialInv(s);
    RunKeepsInv(s, es);
    assert ActOk(After(s, es), t);
  }
}
