/**
  Private fork by copy-on-write, against a fork that copies everything at once.

  A fork shares the parent's descriptors and arms write protection on them.  A write fault on a descriptor
  that is protected and still shared copies it, or takes its pages over, or shares its donor slot; eviction,
  writeback, refetch and close go on meanwhile in any order.
 */
module CowFork {
  import opened DonorSlots

  type DirId = nat
  type Idx = nat

  type Off = nat

  /** What a block holds, word by word; a word not listed is zero.  `Unknown` is what reading a donor copy that is
      not there would give. */
  datatype Content = Bytes(cells: map<Off, nat>) | Unknown

  const ZERO := Bytes(map[])

  datatype Word = Word(value: nat) | Lost

  function Cell(cells: map<Off, nat>, off: Off): nat {
    if off in cells then cells[off] else 0
  }

  function WordAt(c: Content, off: Off): Word {
    if c.Bytes? then Word(Cell(c.cells, off)) else Lost
  }

  /** A store changes one word of the block and leaves the others. */
  function Put(c: Content, off: Off, v: nat): (r: Content)
    ensures forall o: Off :: WordAt(r, o) == if o == off && c.Bytes? then Word(v) else WordAt(c, o)
  {
    if c.Bytes? then Bytes(c.cells[off := v]) else c
  }

  datatype Phase = Active | Inactive | Writeback

  datatype Local = Local(page: Content, phase: Phase)

  /** `ptes`: the directories' owners that map it, and whether they may write. */
  datatype Descr = Descr(idx: Idx, local: Option<Local>, touched: bool, dirty: bool, wprotect: bool, ptes: map<DirId, bool>)

  datatype State = State(
    dirs: seq<map<Idx, DescId>>,
    closed: set<DirId>,          // directories being closed
    descs: map<DescId, Descr>,
    pool: Pool,
    donors: map<Slot, Content>)

  datatype Event =
    | NewDesc(t: DirId, i: Idx, n: DescId)
    | Fork(t: DirId)
    | Fetch(d: DescId, reuse: bool)
    | MapRead(t: DirId, i: Idx)
    | MapWrite(t: DirId, i: Idx)
    | Store(t: DirId, i: Idx, off: Off, v: nat)
    | CowCopy(t: DirId, i: Idx, n: DescId)
    | CowHandoff(t: DirId, i: Idx, n: DescId)
    | CowRemote(t: DirId, i: Idx, n: DescId, c: CrpId)
    | Evict(d: DescId)
    | StartWriteback(d: DescId, slot: Slot, clear: bool)
    | DropClean(d: DescId)
    | FinishWriteback(d: DescId)
    | Refault(d: DescId, reuse: bool)
    | BeginClose(t: DirId)
    | CloseSlot(t: DirId, i: Idx)

  // ---------------------------------------------------------------------------------------------
  // Meaning

  predicate Named(dirs: seq<map<Idx, DescId>>, t: DirId, i: Idx, d: DescId) {
    t < |dirs| && i in dirs[t] && dirs[t][i] == d
  }

  ghost predicate NamedTwice(dirs: seq<map<Idx, DescId>>, i: Idx, d: DescId) {
    exists t: DirId, u: DirId :: t < u && Named(dirs, t, i, d) && Named(dirs, u, i, d)
  }

  /** More than one directory names it. */
  ghost predicate Shared(s: State, d: DescId)
    requires d in s.descs
  {
    NamedTwice(s.dirs, s.descs[d].idx, d)
  }

  /** What a descriptor's block holds, wherever it is. */
  function Meaning(s: State, d: DescId): Content
    requires d in s.descs
  {
    var x := s.descs[d];
    if x.local.Some? then x.local.value.page
    else if !x.touched then ZERO
    else
      var slot := SlotOf(s.pool, d);
      if slot.Some? && slot.value in s.donors then s.donors[slot.value] else Unknown
  }

  /** What directory `t` finds in block `i`. */
  function BlockOf(s: State, t: DirId, i: Idx): Content {
    if t < |s.dirs| && i in s.dirs[t] && s.dirs[t][i] in s.descs then Meaning(s, s.dirs[t][i]) else ZERO
  }

  /** What directory `t` reads at word `off` of block `i`. */
  function Read(s: State, t: DirId, i: Idx, off: Off): Word {
    WordAt(BlockOf(s, t, i), off)
  }

  // ---------------------------------------------------------------------------------------------
  // Steps

  ghost predicate Resident(s: State, d: DescId) {
    d in s.descs && s.descs[d].local.Some?
  }

  ghost predicate InPhase(s: State, d: DescId, p: Phase) {
    Resident(s, d) && s.descs[d].local.value.phase == p
  }

  ghost predicate OpenAt(s: State, t: DirId, i: Idx) {
    t < |s.dirs| && t !in s.closed && i in s.dirs[t] && s.dirs[t][i] in s.descs
  }

  /** The classification of a write fault: protected, and the protection is not stale. */
  ghost predicate CowFault(s: State, t: DirId, i: Idx) {
    OpenAt(s, t, i) && s.descs[s.dirs[t][i]].wprotect && Shared(s, s.dirs[t][i])
  }

  ghost predicate FreshDesc(s: State, n: DescId) {
    n !in s.descs && n !in s.pool.remote
  }

  ghost predicate Enabled(s: State, e: Event) {
    match e
    case NewDesc(t, i, n) => t < |s.dirs| && i !in s.dirs[t] && FreshDesc(s, n)
    case Fork(t) => t < |s.dirs| && t !in s.closed
    case Fetch(d, _) => d in s.descs && s.descs[d].local.None?
    case MapRead(t, i) => OpenAt(s, t, i) && InPhase(s, s.dirs[t][i], Active)
    case MapWrite(t, i) => OpenAt(s, t, i) && InPhase(s, s.dirs[t][i], Active) && !CowFault(s, t, i)
    case Store(t, i, off, v) =>
      OpenAt(s, t, i) && Resident(s, s.dirs[t][i])
      && t in s.descs[s.dirs[t][i]].ptes && s.descs[s.dirs[t][i]].ptes[t]
    case CowCopy(t, i, n) => CowFault(s, t, i) && Resident(s, s.dirs[t][i]) && FreshDesc(s, n)
    case CowHandoff(t, i, n) =>
      && CowFault(s, t, i) && InPhase(s, s.dirs[t][i], Active) && FreshDesc(s, n)
      && var x := s.descs[s.dirs[t][i]]; !x.dirty && !IsFree(s.pool, s.dirs[t][i]) && x.ptes.Keys == {t}
    case CowRemote(t, i, n, c) =>
      CowFault(s, t, i) && s.descs[s.dirs[t][i]].local.None? && FreshDesc(s, n) && c !in s.pool.crps
    case Evict(d) => InPhase(s, d, Active)
    case StartWriteback(d, slot, _) => InPhase(s, d, Inactive) && (IsFree(s.pool, d) ==> slot in s.pool.avail)
    case DropClean(d) => InPhase(s, d, Inactive) && !s.descs[d].dirty && !IsFree(s.pool, d)
    case FinishWriteback(d) => InPhase(s, d, Writeback)
    case Refault(d, _) => InPhase(s, d, Inactive) || InPhase(s, d, Writeback)
    case BeginClose(t) => t < |s.dirs|
    case CloseSlot(t, i) => t < |s.dirs| && t in s.closed && i in s.dirs[t] && s.dirs[t][i] in s.descs
  }

  function SetSlot(dirs: seq<map<Idx, DescId>>, t: DirId, i: Idx, d: DescId): (r: seq<map<Idx, DescId>>)
    requires t < |dirs|
    ensures |r| == |dirs|
    ensures forall u: DirId, j: Idx, e: DescId ::
      Named(r, u, j, e) <==> if u == t && j == i then e == d else Named(dirs, u, j, e)
  {
    var m: map<Idx, DescId> := dirs[t];
    dirs[t := m[i := d]]
  }

  function ClearSlot(dirs: seq<map<Idx, DescId>>, t: DirId, i: Idx): (r: seq<map<Idx, DescId>>)
    requires t < |dirs|
    ensures |r| == |dirs|
    ensures forall u: DirId, j: Idx, e: DescId :: Named(r, u, j, e) <==> Named(dirs, u, j, e) && !(u == t && j == i)
  {
    dirs[t := dirs[t] - {i}]
  }

  function Without(m: map<DirId, bool>, t: DirId): map<DirId, bool> {
    m - {t}
  }

  /** A block nobody maps any more leaves the active list for writeback. */
  function Unlisted(x: Descr): Descr {
    if x.local.Some? && x.local.value.phase == Active && x.ptes == map[] then
      x.(local := Some(Local(x.local.value.page, Inactive)))
    else x
  }

  /** The descriptor a fork leaves behind: shared, protected, and its parent's pte no longer writable. */
  function Armed(x: Descr, t: DirId): Descr {
    x.(wprotect := true, ptes := if t in x.ptes then x.ptes[t := false] else x.ptes)
  }

  ghost function ForkDescs(s: State, t: DirId): (r: map<DescId, Descr>)
    requires t < |s.dirs|
    ensures r.Keys == s.descs.Keys
    ensures forall d :: d in r ==> r[d] == if Named(s.dirs, t, s.descs[d].idx, d) then Armed(s.descs[d], t) else s.descs[d]
  {
    map d | d in s.descs :: if Named(s.dirs, t, s.descs[d].idx, d) then Armed(s.descs[d], t) else s.descs[d]
  }

  ghost predicate LastName(s: State, t: DirId, i: Idx, d: DescId) {
    forall u: DirId :: u != t ==> !Named(s.dirs, u, i, d)
  }

  predicate RecordsKnown(p: Pool) {
    forall d :: d in p.remote && p.remote[d].Cow? ==> p.remote[d].crp in p.crps
  }

  ghost predicate Typed(s: State) {
    s.descs.Keys == s.pool.remote.Keys && RecordsKnown(s.pool)
  }

  predicate SlotNamed(s: State, t: DirId, i: Idx) {
    t < |s.dirs| && i in s.dirs[t] && s.dirs[t][i] in s.descs
  }

  /** Copying: the old descriptor loses the mapping, the new one gets a copy of its page, mapped writable. */
  function AfterCopy(s: State, t: DirId, i: Idx, n: DescId): State
    requires SlotNamed(s, t, i) && s.descs[s.dirs[t][i]].local.Some?
  {
    var d := s.dirs[t][i];
    var x := s.descs[d];
    s.(dirs := SetSlot(s.dirs, t, i, n),
       descs := s.descs[d := Unlisted(x.(ptes := Without(x.ptes, t)))]
                       [n := Descr(i, Some(Local(x.local.value.page, Active)), x.touched, true, false, map[t := true])],
       pool := AddDesc(s.pool, n))
  }

  /** Handing over: the page changes descriptors, the old one keeps its donor copy. */
  function AfterHandoff(s: State, t: DirId, i: Idx, n: DescId): State
    requires SlotNamed(s, t, i) && s.descs[s.dirs[t][i]].local.Some?
  {
    var d := s.dirs[t][i];
    var x := s.descs[d];
    s.(dirs := SetSlot(s.dirs, t, i, n),
       descs := s.descs[d := x.(local := None, ptes := map[])]
                       [n := Descr(i, Some(Local(x.local.value.page, Active)), x.touched, true, false, map[t := true])],
       pool := AddDesc(s.pool, n))
  }

  /** Sharing the donor slot of a block that is not resident. */
  function AfterRemote(s: State, t: DirId, i: Idx, n: DescId, c: CrpId): State
    requires SlotNamed(s, t, i) && s.dirs[t][i] in s.pool.remote && s.dirs[t][i] != n && RecordsKnown(s.pool)
  {
    var d := s.dirs[t][i];
    s.(dirs := SetSlot(s.dirs, t, i, n),
       descs := s.descs[n := Descr(i, None, s.descs[d].touched, s.descs[d].dirty, false, map[])],
       pool := Share(AddDesc(s.pool, n), d, n, c))
  }

  ghost function Apply(s: State, e: Event): State
    requires Typed(s) && Enabled(s, e)
  {
    match e
    case NewDesc(t, i, n) =>
      s.(dirs := SetSlot(s.dirs, t, i, n),
         descs := s.descs[n := Descr(i, None, false, false, false, map[])], pool := AddDesc(s.pool, n))
    case Fork(t) => s.(dirs := s.dirs + [s.dirs[t]], descs := ForkDescs(s, t))
    case Fetch(d, reuse) =>
      var x := s.descs[d];
      var pool := if x.touched then FetchDone(s.pool, d, reuse) else if reuse then s.pool else FreeSlot(s.pool, d);
      s.(descs := s.descs[d := x.(local := Some(Local(Meaning(s, d), Active)), touched := true)], pool := pool)
    case MapRead(t, i) =>
      var d := s.dirs[t][i];
      s.(descs := s.descs[d := s.descs[d].(ptes := if t in s.descs[d].ptes then s.descs[d].ptes else s.descs[d].ptes[t := false])])
    case MapWrite(t, i) =>
      var d := s.dirs[t][i];
      s.(descs := s.descs[d := s.descs[d].(dirty := true, wprotect := false, ptes := s.descs[d].ptes[t := true])])
    case Store(t, i, off, v) =>
      var d := s.dirs[t][i];
      var x := s.descs[d].local.value;
      s.(descs := s.descs[d := s.descs[d].(local := Some(Local(Put(x.page, off, v), x.phase)))])
    case CowCopy(t, i, n) => AfterCopy(s, t, i, n)
    case CowHandoff(t, i, n) => AfterHandoff(s, t, i, n)
    case CowRemote(t, i, n, c) => AfterRemote(s, t, i, n, c)
    case Evict(d) =>
      var x := s.descs[d]; s.(descs := s.descs[d := x.(local := Some(Local(x.local.value.page, Inactive)), ptes := map[])])
    case StartWriteback(d, slot, clear) =>
      var x := s.descs[d];
      var pool := Alloc(s.pool, d, slot);
      var target := SlotOf(pool, d);
      s.(descs := s.descs[d := x.(local := Some(Local(x.local.value.page, Writeback)), dirty := x.dirty && !clear)],
         pool := pool,
         donors := if target.Some? then s.donors[target.value := x.local.value.page] else s.donors)
    case DropClean(d) => s.(descs := s.descs[d := s.descs[d].(local := None, dirty := false)])
    case FinishWriteback(d) => s.(descs := s.descs[d := s.descs[d].(local := None, dirty := false)])
    case Refault(d, reuse) =>
      var x := s.descs[d];
      s.(descs := s.descs[d := x.(local := Some(Local(x.local.value.page, Active)))],
         pool := if x.local.value.phase == Writeback && !reuse then FreeSlot(s.pool, d) else s.pool)
    case BeginClose(t) => s.(closed := s.closed + {t})
    case CloseSlot(t, i) =>
      var d := s.dirs[t][i];
      var x := s.descs[d];
      var dirs := ClearSlot(s.dirs, t, i);
      if LastName(s, t, i, d) then s.(dirs := dirs, descs := s.descs - {d}, pool := Release(s.pool, d))
      else s.(dirs := dirs, descs := s.descs[d := Unlisted(x.(ptes := Without(x.ptes, t)))])
  }

  // ---------------------------------------------------------------------------------------------
  // A fork that copies at once

  /** Every directory has words of its own; those never written are zero. */
  datatype Eager = Eager(mem: seq<map<(Idx, Off), nat>>)

  function EagerRead(g: Eager, t: DirId, i: Idx, off: Off): Word {
    Word(if t < |g.mem| && (i, off) in g.mem[t] then g.mem[t][(i, off)] else 0)
  }

  function Write(g: Eager, t: DirId, i: Idx, off: Off, v: nat): Eager {
    if t < |g.mem| then
      var m: map<(Idx, Off), nat> := g.mem[t];
      Eager(g.mem[t := m[(i, off) := v]])
    else g
  }

  /** A fork copies all words, a store writes one, and nothing else happens. */
  function EagerApply(g: Eager, e: Event): Eager {
    match e
    case Fork(t) => if t < |g.mem| then Eager(g.mem + [g.mem[t]]) else g
    case Store(t, i, off, v) => Write(g, t, i, off, v)
    case _ => g
  }

  /** Every directory that is not being closed reads, word for word, what it would read. */
  ghost predicate Refines(s: State, g: Eager) {
    && |g.mem| == |s.dirs|
    && forall t: DirId, i: Idx, off: Off ::
         t < |s.dirs| && t !in s.closed ==> Read(s, t, i, off) == EagerRead(g, t, i, off)
  }

  // ---------------------------------------------------------------------------------------------
  // The invariant

  /** Mapped only while active and named; writable means dirty and unprotected. */
  ghost predicate PtesOk(s: State, d: DescId)
    requires d in s.descs
  {
    var x := s.descs[d];
    forall t :: t in x.ptes ==>
      && x.local.Some? && x.local.value.phase == Active && Named(s.dirs, t, x.idx, d)
      && (x.ptes[t] ==> x.dirty && !x.wprotect)
  }

  /** Shared by more than one directory implies protected: with `PtesOk`, that nobody can write it. */
  ghost predicate ProtectedOk(s: State, d: DescId)
    requires d in s.descs
  {
    Shared(s, d) ==> s.descs[d].wprotect
  }

  /** What is only on a donor is there; a clean resident block equals its donor copy. */
  ghost predicate DonorOk(s: State, d: DescId)
    requires d in s.descs
  {
    var x := s.descs[d];
    var slot := SlotOf(s.pool, d);
    && (x.local.Some? ==> x.touched && !IsCow(s.pool, d))
    && (!x.touched ==> IsFree(s.pool, d))
    && (x.touched && x.local.None? ==> slot.Some? && slot.value in s.donors)
    && (x.local.Some? && x.local.value.phase == Writeback ==> slot.Some?)
    && (x.local.Some? && (!x.dirty || x.local.value.phase == Writeback) && slot.Some? ==>
          slot.value in s.donors && s.donors[slot.value] == x.local.value.page)
  }

  ghost predicate DirsOk(s: State) {
    forall t: DirId, i: Idx, d: DescId :: Named(s.dirs, t, i, d) ==> d in s.descs && s.descs[d].idx == i
  }

  ghost predicate DescOk(s: State, d: DescId)
    requires d in s.descs
  {
    PtesOk(s, d) && ProtectedOk(s, d) && DonorOk(s, d)
  }

  ghost predicate Good(s: State) {
    && Typed(s) && DonorSlots.Inv(s.pool) && DirsOk(s)
    && forall d :: d in s.descs ==> DescOk(s, d)
  }

  /** Sharing a donor slot is sound for a block that has one: one that was touched. */
  ghost predicate Sound(s: State, e: Event)
    requires Enabled(s, e)
  {
    e.CowRemote? ==> s.descs[s.dirs[e.t][e.i]].touched
  }
}
