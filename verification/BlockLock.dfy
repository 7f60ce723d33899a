/**
  The block lock under elastic geometry, as interleaved atomic steps of any number of threads.

  The lock of a block is the lock word of its head descriptor, and the head is derived from the
  descriptor's address and its current order.  Both may change while a thread spins: buddies are merged
  and blocks are split, one descriptor's order at a time, and copy-on-write retargets directory slots.
  A thread therefore takes the lock of the head it derived, re-reads the directory slot, and then
  derives the head again; only if both still agree is the lock good.

  Every compare-and-swap, every read of an order or of a slot, and every store of one descriptor's
  order is a step of its own.
 */
module BlockLock {
  import opened PowerOfTwo

  type Thread = nat
  type Desc = nat  // address of a descriptor, counted in descriptors
  type Slot = nat  // one entry of one directory

  datatype Option<T> = None | Some(value: T)

  /** What a thread is in the middle of.  A request without a slot is reclaim naming the descriptor of
      a local page, which is bound for life and needs no re-validation of a slot. */
  datatype Act =
    | Free
    | Deriving(slot: Option<Slot>, gpa: Desc)
    | Locking(slot: Option<Slot>, gpa: Desc, head: Desc)
    | Locked(slot: Option<Slot>, gpa: Desc, head: Desc)
    | Checking(slot: Option<Slot>, gpa: Desc, head: Desc)
    | Undoing(slot: Option<Slot>, gpa: Desc, head: Desc)
    | TakingBuddy(head: Desc, buddy: Desc)
    | CheckingBuddy(head: Desc, buddy: Desc)
    | Raising(low: Desc, order: nat, next: nat)
    | Lowering(head: Desc, order: nat, next: nat)
    | Collecting(head: Desc, order: nat, next: nat)
    | LoweringAll(head: Desc, order: nat, next: nat)
    | GroupLocking(base: Desc, next: nat)
    | GroupLocked(base: Desc)

  /** `held`: heads of blocks whose lock was validated.  `extra`: lock words still set on descriptors
      that are no validated head of this thread, about to be cleared. */
  datatype ThreadState = ThreadState(held: set<Desc>, extra: set<Desc>, act: Act)

  datatype State = State(
    groupOrder: nat,           // order of a descriptor group: no block is larger
    orders: seq<nat>,          // current block order of every descriptor
    locks: map<Desc, Thread>,  // set lock words, and who set them
    dir: map<Slot, Desc>,
    threads: seq<ThreadState>)

  function Range(lo: nat, hi: nat): (r: set<Desc>)
    ensures forall x :: x in r <==> lo <= x < hi
    decreases if lo < hi then hi - lo else 0
  {
    if lo < hi then {lo} + Range(lo + 1, hi) else {}
  }

  function ActLocks(g: nat, a: Act): set<Desc> {
    match a
    case Locked(_, _, head) => {head}
    case Checking(_, _, head) => {head}
    case Undoing(_, _, head) => {head}
    case CheckingBuddy(_, buddy) => {buddy}
    case Raising(low, k, _) => {low, low + Pow2(k)}
    case Lowering(head, k, _) => {head, head + Pow2(if k > 0 then k - 1 else 0)}
    case Collecting(head, _, next) => Range(head + 1, head + next)
    case LoweringAll(head, k, _) => Range(head, head + Pow2(k))
    case GroupLocking(base, next) => Range(base, base + next)
    case GroupLocked(base) => Range(base, base + Pow2(g))
    case _ => {}
  }

  function LocksOf(g: nat, ts: ThreadState): set<Desc> {
    ts.held + ts.extra + ActLocks(g, ts.act)
  }

  /** The head of the block `m` is in right now. */
  function Head(s: State, m: Desc): Desc
    requires m < |s.orders|
  {
    BlockHead(m, s.orders[m])
  }

  /** The descriptors whose orders the act `a` is entitled to store. */
  predicate InRegion(g: nat, a: Act, m: Desc) {
    match a
    case Raising(low, k, _) => low <= m < low + Pow2(k + 1)
    case Lowering(head, k, _) => head <= m < head + Pow2(k)
    case LoweringAll(head, k, _) => head <= m < head + Pow2(k)
    case GroupLocked(base) => base <= m < base + Pow2(g)
    case _ => false
  }

  /** Thread `t` is past validation for the block `m` is in. */
  predicate Owns(s: State, t: Thread, m: Desc) {
    && t < |s.threads| && m < |s.orders|
    && (Head(s, m) in s.threads[t].held || InRegion(s.groupOrder, s.threads[t].act, m))
  }

  /** Every member of the block derived from `m` carries the same order. */
  predicate Uniform(s: State, m: Desc)
    requires m < |s.orders|
  {
    forall x :: 0 <= x < |s.orders| && BlockHead(x, s.orders[m]) == Head(s, m) ==> s.orders[x] == s.orders[m]
  }

  // ---------------------------------------------------------------------------------------------
  // Steps

  datatype Action =
    | Begin(slot: Option<Slot>, gpa: Desc)
    | Derive
    | Take
    | GiveUp
    | CheckSlot
    | CheckHead
    | Undo
    | Unlock(d: Desc)
    | ChooseBuddy(head: Desc)
    | BuddyBusy
    | TakeBuddy
    | RejectBuddy
    | AcceptBuddy
    | Raise
    | FinishRaise
    | TakeHalf(head: Desc)
    | Lower
    | FinishLower
    | StartCollect(head: Desc)
    | Collect
    | CollectFail
    | CollectDone
    | LowerAll
    | FinishLowerAll
    | StartGroup(base: Desc)
    | GroupTake
    | GroupReady
    | GroupSetOrder(d: Desc, order: nat)
    | GroupDone
    | SlotPublish(entry: Slot, gpa: Desc)
    | SlotChange(entry: Slot, gpa: Desc)
    | SlotRemove(entry: Slot)

  predicate InRange(s: State, d: Desc, k: nat) {
    k <= s.groupOrder && d + Pow2(k) <= |s.orders|
  }

  /** Descriptor `d` of the thread's validated blocks, at a known order. */
  predicate HeldAt(s: State, ts: ThreadState, d: Desc) {
    d in ts.held && d < |s.orders|
  }

  predicate GroupTiled(s: State, base: Desc) {
    forall m {:trigger s.orders[m]} :: base <= m < base + Pow2(s.groupOrder) && m < |s.orders| ==> Uniform(s, m)
  }

  function BuddyOf(head: Desc, k: nat): Desc {
    if BlockHead(head, k + 1) == head then head + Pow2(k) else BlockHead(head, k + 1)
  }

  /** May thread `t` take action `a`? */
  predicate Enabled(s: State, t: Thread, a: Action) {
    && t < |s.threads|
    && var ts := s.threads[t];
       match a
       case Begin(slot, gpa) => ts.act.Free? && gpa < |s.orders|
       case Derive => ts.act.Deriving? && ts.act.gpa < |s.orders|
       case Take => ts.act.Locking? && ts.act.head !in s.locks
       case GiveUp => ts.act.Locking? && ts.act.head in s.locks
       case CheckSlot => ts.act.Locked? && (ts.act.slot.Some? ==> ts.act.slot.value in s.dir)
       case CheckHead => ts.act.Checking? && ts.act.gpa < |s.orders|
       case Undo => ts.act.Undoing?
       case Unlock(d) => ts.act.Free? && (d in ts.held || d in ts.extra)
       case ChooseBuddy(head) => ts.act.Free? && HeldAt(s, ts, head) && s.orders[head] < s.groupOrder
       case BuddyBusy => ts.act.TakingBuddy?
       case TakeBuddy => ts.act.TakingBuddy? && ts.act.buddy !in s.locks
       case RejectBuddy => ts.act.CheckingBuddy?
       case AcceptBuddy =>
         ts.act.CheckingBuddy? && ts.act.head < |s.orders| && ts.act.buddy < |s.orders|
         && s.orders[ts.act.buddy] == s.orders[ts.act.head]
       case Raise =>
         ts.act.Raising? && ts.act.next < Pow2(ts.act.order + 1) && ts.act.low + ts.act.next < |s.orders|
       case FinishRaise => ts.act.Raising? && ts.act.next == Pow2(ts.act.order + 1)
       case TakeHalf(head) =>
         ts.act.Free? && HeldAt(s, ts, head) && s.orders[head] > 0
         && head + Pow2(s.orders[head] - 1) !in s.locks
       case Lower =>
         ts.act.Lowering? && ts.act.order > 0 && ts.act.next < Pow2(ts.act.order)
         && ts.act.head + ts.act.next < |s.orders|
       case FinishLower => ts.act.Lowering? && ts.act.order > 0 && ts.act.next == Pow2(ts.act.order)
       case StartCollect(head) => ts.act.Free? && HeldAt(s, ts, head)
       case Collect =>
         ts.act.Collecting? && ts.act.next < Pow2(ts.act.order) && ts.act.head + ts.act.next !in s.locks
       case CollectFail =>
         ts.act.Collecting? && ts.act.next < Pow2(ts.act.order) && ts.act.head + ts.act.next in s.locks
       case CollectDone => ts.act.Collecting? && ts.act.next == Pow2(ts.act.order)
       case LowerAll =>
         ts.act.LoweringAll? && ts.act.next < Pow2(ts.act.order) && ts.act.head + ts.act.next < |s.orders|
       case FinishLowerAll => ts.act.LoweringAll? && ts.act.next == Pow2(ts.act.order)
       case StartGroup(base) =>
         ts.act.Free? && BlockHead(base, s.groupOrder) == base && InRange(s, base, s.groupOrder)
       case GroupTake =>
         ts.act.GroupLocking? && ts.act.next < Pow2(s.groupOrder) && ts.act.base + ts.act.next !in s.locks
       case GroupReady => ts.act.GroupLocking? && ts.act.next == Pow2(s.groupOrder)
       case GroupSetOrder(d, order) =>
         ts.act.GroupLocked? && InRegion(s.groupOrder, ts.act, d) && d < |s.orders| && order <= s.groupOrder
       case GroupDone => ts.act.GroupLocked? && GroupTiled(s, ts.act.base)
       case SlotPublish(entry, gpa) =>
         ts.act.Free? && entry !in s.dir && gpa < |s.orders| && Head(s, gpa) in ts.held
       case SlotChange(entry, gpa) =>
         ts.act.Free? && entry in s.dir && s.dir[entry] < |s.orders| && gpa < |s.orders|
         && Head(s, s.dir[entry]) in ts.held && Head(s, gpa) in ts.held
       case SlotRemove(entry) =>
         ts.act.GroupLocked? && entry in s.dir && InRegion(s.groupOrder, ts.act, s.dir[entry])
  }

  /** The heads among the members of a group. */
  function GroupHeads(s: State, base: Desc): set<Desc> {
    set x | x in Range(base, base + Pow2(s.groupOrder)) && x < |s.orders| && Head(s, x) == x
  }

  /** Thread `t`'s own new state. */
  function ThreadAfter(s: State, t: Thread, a: Action): ThreadState
    requires Enabled(s, t, a)
  {
    var ts := s.threads[t];
    match a
    case Begin(slot, gpa) => ts.(act := Deriving(slot, gpa))
    case Derive => ts.(act := Locking(ts.act.slot, ts.act.gpa, Head(s, ts.act.gpa)))
    case Take => ts.(act := Locked(ts.act.slot, ts.act.gpa, ts.act.head))
    case GiveUp => ts.(act := Free)
    case CheckSlot =>
      if ts.act.slot.None? || s.dir[ts.act.slot.value] == ts.act.gpa then
        ts.(act := Checking(ts.act.slot, ts.act.gpa, ts.act.head))
      else
        ts.(act := Undoing(ts.act.slot, s.dir[ts.act.slot.value], ts.act.head))
    case CheckHead =>
      if ts.act.head == Head(s, ts.act.gpa) then
        ts.(held := ts.held + {ts.act.head}, act := Free)
      else
        ts.(act := Undoing(ts.act.slot, ts.act.gpa, ts.act.head))
    case Undo => ts.(act := Deriving(ts.act.slot, ts.act.gpa))
    case Unlock(d) => ts.(held := ts.held - {d}, extra := ts.extra - {d})
    case ChooseBuddy(head) => ts.(act := TakingBuddy(head, BuddyOf(head, s.orders[head])))
    case BuddyBusy => ts.(act := Free)
    case TakeBuddy => ts.(act := CheckingBuddy(ts.act.head, ts.act.buddy))
    case RejectBuddy => ts.(extra := ts.extra + {ts.act.buddy}, act := Free)
    case AcceptBuddy =>
      ts.(held := ts.held - {ts.act.head},
      act := Raising(if ts.act.head < ts.act.buddy then ts.act.head else ts.act.buddy, s.orders[ts.act.head], 0))
    case Raise => ts.(act := Raising(ts.act.low, ts.act.order, ts.act.next + 1))
    case FinishRaise =>
      ts.(held := ts.held + {ts.act.low}, extra := ts.extra + {ts.act.low + Pow2(ts.act.order)}, act := Free)
    case TakeHalf(head) => ts.(held := ts.held - {head}, act := Lowering(head, s.orders[head], 0))
    case Lower => ts.(act := Lowering(ts.act.head, ts.act.order, ts.act.next + 1))
    case FinishLower =>
      ts.(held := ts.held + {ts.act.head, ts.act.head + Pow2(ts.act.order - 1)}, act := Free)
    case StartCollect(head) => ts.(act := Collecting(head, s.orders[head], 1))
    case Collect => ts.(act := Collecting(ts.act.head, ts.act.order, ts.act.next + 1))
    case CollectFail => ts.(extra := ts.extra + Range(ts.act.head + 1, ts.act.head + ts.act.next), act := Free)
    case CollectDone => ts.(held := ts.held - {ts.act.head}, act := LoweringAll(ts.act.head, ts.act.order, 0))
    case LowerAll => ts.(act := LoweringAll(ts.act.head, ts.act.order, ts.act.next + 1))
    case FinishLowerAll =>
      ts.(held := ts.held + Range(ts.act.head, ts.act.head + Pow2(ts.act.order)), act := Free)
    case StartGroup(base) => ts.(act := GroupLocking(base, 0))
    case GroupTake => ts.(act := GroupLocking(ts.act.base, ts.act.next + 1))
    case GroupReady => ts.(act := GroupLocked(ts.act.base))
    case GroupSetOrder(_, _) => ts
    case GroupDone =>
      var heads := GroupHeads(s, ts.act.base);
      ts.(held := ts.held + heads,
      extra := ts.extra + (Range(ts.act.base, ts.act.base + Pow2(s.groupOrder)) - heads), act := Free)
    case SlotPublish(_, _) => ts
    case SlotChange(_, _) => ts
    case SlotRemove(_) => ts
  }

  /** The lock words after the step: a compare-and-swap sets one, an unlock clears one. */
  function LocksAfter(s: State, t: Thread, a: Action): map<Desc, Thread>
    requires Enabled(s, t, a)
  {
    var act := s.threads[t].act;
    match a
    case Take => s.locks[act.head := t]
    case Undo => s.locks - {act.head}
    case Unlock(d) => s.locks - {d}
    case TakeBuddy => s.locks[act.buddy := t]
    case TakeHalf(head) => s.locks[head + Pow2(s.orders[head] - 1) := t]
    case Collect => s.locks[act.head + act.next := t]
    case GroupTake => s.locks[act.base + act.next := t]
    case _ => s.locks
  }

  function OrdersAfter(s: State, t: Thread, a: Action): seq<nat>
    requires Enabled(s, t, a)
  {
    var act := s.threads[t].act;
    match a
    case Raise => s.orders[act.low + act.next := s.orders[act.low + act.next] + 1]
    case Lower => s.orders[act.head + act.next := act.order - 1]
    case LowerAll => s.orders[act.head + act.next := 0]
    case GroupSetOrder(d, order) => s.orders[d := order]
    case _ => s.orders
  }

  function DirAfter(s: State, a: Action): map<Slot, Desc> {
    match a
    case SlotPublish(entry, gpa) => s.dir[entry := gpa]
    case SlotChange(entry, gpa) => s.dir[entry := gpa]
    case SlotRemove(entry) => s.dir - {entry}
    case _ => s.dir
  }

  function Apply(s: State, t: Thread, a: Action): State
    requires Enabled(s, t, a)
  {
    State(s.groupOrder, OrdersAfter(s, t, a), LocksAfter(s, t, a), DirAfter(s, a),
          s.threads[t := ThreadAfter(s, t, a)])
  }

  // ---------------------------------------------------------------------------------------------
  // The invariant

  predicate InBounds(s: State) {
    && (forall m :: 0 <= m < |s.orders| ==> s.orders[m] <= s.groupOrder)
    && (forall m :: 0 <= m < |s.orders| ==> BlockHead(m, s.groupOrder) + Pow2(s.groupOrder) <= |s.orders|)
  }

  /** A lock word is set exactly while some thread accounts for it, in exactly one role. */
  predicate LocksAccounted(s: State) {
    && (forall d :: d in s.locks ==> s.locks[d] < |s.threads| && d in LocksOf(s.groupOrder, s.threads[s.locks[d]]))
    && (forall t, d :: 0 <= t < |s.threads| && d in LocksOf(s.groupOrder, s.threads[t]) ==> d in s.locks && s.locks[d] == t)
    && (forall t :: 0 <= t < |s.threads| ==> RolesDisjoint(s.groupOrder, s.threads[t]))
  }

  predicate RolesDisjoint(g: nat, ts: ThreadState) {
    ts.held !! ts.extra && ts.held !! ActLocks(g, ts.act) && ts.extra !! ActLocks(g, ts.act)
  }

  /** Blocks are uniform, except those being rewritten by the thread that holds their head. */
  predicate BlocksUniform(s: State) {
    forall m :: 0 <= m < |s.orders| ==> Uniform(s, m) || UnderRewrite(s, m)
  }

  predicate UnderRewrite(s: State, m: Desc)
    requires m < |s.orders|
  {
    && Head(s, m) in s.locks && s.locks[Head(s, m)] < |s.threads|
    && InRegion(s.groupOrder, s.threads[s.locks[Head(s, m)]].act, m)
  }

  /** What each act relies on. */
  predicate ActOk(s: State, t: Thread)
    requires t < |s.threads|
  {
    var ts := s.threads[t];
    match ts.act
    case Free => true
    case Deriving(_, gpa) => true
    case Locking(_, gpa, head) => true
    case Locked(_, gpa, head) => true
    case Checking(slot, gpa, head) =>
      gpa < |s.orders| && Head(s, gpa) == head && slot.Some? ==> slot.value in s.dir && s.dir[slot.value] == gpa
    case Undoing(_, gpa, head) => true
    case TakingBuddy(head, buddy) => BuddyPair(s, ts, head, buddy)
    case CheckingBuddy(head, buddy) => BuddyPair(s, ts, head, buddy)
    case Raising(low, k, next) =>
      && k < s.groupOrder && BlockHead(low, k + 1) == low && InRange(s, low, k + 1) && next <= Pow2(k + 1)
      && (forall x :: low <= x < low + Pow2(k + 1) ==> s.orders[x] == if x - low < next then k + 1 else k)
    case Lowering(head, k, next) =>
      && 0 < k && BlockHead(head, k) == head && InRange(s, head, k) && next <= Pow2(k)
      && (forall x :: head <= x < head + Pow2(k) ==> s.orders[x] == if x - head < next then k - 1 else k)
    case Collecting(head, k, next) =>
      head in ts.held && head < |s.orders| && s.orders[head] == k && 1 <= next <= Pow2(k)
    case LoweringAll(head, k, next) =>
      && BlockHead(head, k) == head && InRange(s, head, k) && next <= Pow2(k)
      && (forall x :: head <= x < head + Pow2(k) ==> s.orders[x] == if x - head < next then 0 else k)
    case GroupLocking(base, next) =>
      BlockHead(base, s.groupOrder) == base && InRange(s, base, s.groupOrder) && next <= Pow2(s.groupOrder)
    case GroupLocked(base) => BlockHead(base, s.groupOrder) == base && InRange(s, base, s.groupOrder)
  }

  predicate BuddyPair(s: State, ts: ThreadState, head: Desc, buddy: Desc) {
    && head in ts.held && head < |s.orders| && s.orders[head] < s.groupOrder
    && buddy == BuddyOf(head, s.orders[head])
  }

  predicate HeldAreHeads(s: State, t: Thread)
    requires t < |s.threads|
  {
    forall h :: h in s.threads[t].held ==> h < |s.orders| && Head(s, h) == h
  }

  predicate Inv(s: State) {
    && InBounds(s)
    && LocksAccounted(s)
    && BlocksUniform(s)
    && (forall t :: 0 <= t < |s.threads| ==> ActOk(s, t) && HeldAreHeads(s, t))
  }

  /** No thread is inside, no lock word is set, and every group is tiled by uniform blocks. */
  predicate Initial(s: State) {
    && InBounds(s) && s.locks == map[]
    && (forall m :: 0 <= m < |s.orders| ==> Uniform(s, m))
    && (forall t :: 0 <= t < |s.threads| ==> s.threads[t] == ThreadState({}, {}, Free))
  }

  // ---------------------------------------------------------------------------------------------
  // Ownership

  /** Whoever is entitled to store an order holds the lock of the head derived from it at any moment,
      also half way through the rewrite. */
  lemma RegionHeadLocked(s: State, t: Thread, m: Desc)
    requires t < |s.threads| && ActOk(s, t) && InBounds(s)
    requires m < |s.orders| && InRegion(s.groupOrder, s.threads[t].act, m)
    ensures Head(s, m) in ActLocks(s.groupOrder, s.threads[t].act)
  {
    match s.threads[t].act
    case Raising(low, k, next) => HalfOrWhole(low, k, m);
    case Lowering(head, k, next) => HalfOrWhole(head, k - 1, m);
    case LoweringAll(head, k, next) => HeadUnique(head, m, k);
    case GroupLocked(base) =>
      HeadUnique(base, m, s.groupOrder);
      BlockNesting(m, m, s.orders[m], s.groupOrder);
      HeadBounds(m, s.orders[m]);
  }

  /** A member of a pair of buddies: its head is one of the two, at either order. */
  lemma HalfOrWhole(low: nat, k: nat, m: nat)
    requires BlockHead(low, k + 1) == low && low <= m < low + Pow2(k + 1)
    ensures BlockHead(m, k + 1) == low
    ensures BlockHead(m, k) == if m < low + Pow2(k) then low else low + Pow2(k)
  {
    HeadUnique(low, m, k + 1);
    BuddyHalves(low, k);
    if m < low + Pow2(k) {
      HeadUnique(low, m, k);
    } else {
      HeadUnique(low + Pow2(k), m, k);
    }
  }

  lemma OwnerHoldsLock(s: State, t: Thread, m: Desc)
    requires Inv(s) && Owns(s, t, m)
    ensures Head(s, m) in s.locks && s.locks[Head(s, m)] == t
  {
    if Head(s, m) !in s.threads[t].held {
      RegionHeadLocked(s, t, m);
    }
    assert Head(s, m) in LocksOf(s.groupOrder, s.threads[t]);
  }

  lemma HeldBlockUniform(s: State, t: Thread, h: Desc)
    requires Inv(s) && t < |s.threads| && h in s.threads[t].held
    ensures h < |s.orders| && Head(s, h) == h && Uniform(s, h)
  {
    assert HeldAreHeads(s, t) && h in LocksOf(s.groupOrder, s.threads[t]);
    if !Uniform(s, h) {
      assert UnderRewrite(s, h);
      RegionHeadLocked(s, t, h);
    }
  }
}
