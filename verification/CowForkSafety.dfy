/**
  The invariant of the private fork, kept by every event, and what every event leaves of each block's contents.
 */
module CowForkSafety {
  import DS = DonorSlots
  import opened CowFork

  // ---------------------------------------------------------------------------------------------
  // Descriptors an event leaves alone

  /** The remote page, and what the donor holds there, are as before. */
  ghost predicate SameDonor(s: State, r: State, e: DS.DescId) {
    && DS.SameFor(s.pool, r.pool, e)
    && (DS.SlotOf(s.pool, e).Some? && DS.SlotOf(s.pool, e).value in s.donors ==>
          DS.SlotOf(s.pool, e).value in r.donors && r.donors[DS.SlotOf(s.pool, e).value] == s.donors[DS.SlotOf(s.pool, e).value])
  }

  /** No directory names it that did not, and those that map it still do. */
  ghost predicate SameNames(s: State, r: State, e: DS.DescId)
    requires e in s.descs
  {
    var i := s.descs[e].idx;
    && (forall t: DirId :: Named(r.dirs, t, i, e) ==> Named(s.dirs, t, i, e))
    && (forall t :: t in s.descs[e].ptes && Named(s.dirs, t, i, e) ==> Named(r.dirs, t, i, e))
  }

  lemma Unaffected(s: State, r: State, e: DS.DescId)
    requires e in s.descs && e in r.descs && r.descs[e] == s.descs[e]
    requires SameDonor(s, r, e) && SameNames(s, r, e) && DescOk(s, e)
    ensures DescOk(r, e) && Meaning(r, e) == Meaning(s, e)
  {
  }

  /** Every descriptor but the listed ones is left alone. */
  ghost predicate OthersSame(s: State, r: State, changed: set<DS.DescId>) {
    forall e :: e in s.descs && e !in changed ==>
      e in r.descs && r.descs[e] == s.descs[e] && SameDonor(s, r, e) && SameNames(s, r, e)
  }

  lemma OthersOk(s: State, r: State, changed: set<DS.DescId>)
    requires OthersSame(s, r, changed) && Good(s)
    ensures forall e :: e in s.descs && e !in changed ==> DescOk(r, e) && Meaning(r, e) == Meaning(s, e)
  {
    forall e | e in s.descs && e !in changed
      ensures DescOk(r, e) && Meaning(r, e) == Meaning(s, e)
    {
      assert DescOk(s, e);
      Unaffected(s, r, e);
    }
  }

  // ---------------------------------------------------------------------------------------------
  // Events on one descriptor

  function Changed(s: State, d: DS.DescId, x: Descr): State {
    s.(descs := s.descs[d := x])
  }

  /** `d` changed to `x`, the remote pages and the directories as they were. */
  lemma LocalGood(s: State, d: DS.DescId, x: Descr)
    requires Good(s) && d in s.descs && x.idx == s.descs[d].idx && DescOk(Changed(s, d, x), d)
    ensures Good(Changed(s, d, x))
    ensures MeaningKept(s, Changed(s, d, x), {d})
  {
    hide DS.CrpsCounted, DS.HoldersUnique, DS.SlotOf, DescOk;
    var r := Changed(s, d, x);
    assert r.descs.Keys == s.descs.Keys;
    OthersOk(s, r, {d});
  }

  lemma GoodDesc(s: State, d: DS.DescId)
    requires Good(s) && d in s.descs
    ensures Typed(s) && DescOk(s, d) && d in s.pool.remote
  {
  }

  lemma GoodName(s: State, t: DirId, i: Idx)
    requires Good(s) && t < |s.dirs| && i in s.dirs[t]
    ensures Typed(s)
    ensures var d := s.dirs[t][i]; Named(s.dirs, t, i, d) && d in s.descs && s.descs[d].idx == i && DescOk(s, d)
  {
    assert Named(s.dirs, t, i, s.dirs[t][i]);
  }

  lemma MapReadGood(s: State, t: DirId, i: Idx)
    requires Good(s) && Enabled(s, MapRead(t, i))
    ensures Good(Apply(s, MapRead(t, i)))
    ensures Preserved(s, Apply(s, MapRead(t, i)))
  {
    hide Good, DS.SlotOf, NamedTwice;
    GoodName(s, t, i);
    var d, x := s.dirs[t][i], Apply(s, MapRead(t, i)).descs[s.dirs[t][i]];
    LocalGood(s, d, x);
  }

  lemma MapWriteGood(s: State, t: DirId, i: Idx)
    requires Good(s) && Enabled(s, MapWrite(t, i))
    ensures var r := Apply(s, MapWrite(t, i)); Good(r) && Preserved(s, r)
  {
    hide Good, DS.SlotOf, NamedTwice;
    GoodName(s, t, i);
    var d, x := s.dirs[t][i], Apply(s, MapWrite(t, i)).descs[s.dirs[t][i]];
    LocalGood(s, d, x);
  }

  /** A store without a fault changes one word of a block that nobody else sees. */
  lemma StoreGood(s: State, t: DirId, i: Idx, off: Off, v: nat)
    requires Good(s) && Enabled(s, Store(t, i, off, v))
    ensures var r := Apply(s, Store(t, i, off, v));
            Good(r) && Meaning(r, s.dirs[t][i]) == Put(Meaning(s, s.dirs[t][i]), off, v)
    ensures MeaningKept(s, Apply(s, Store(t, i, off, v)), {s.dirs[t][i]})
    ensures !Shared(s, s.dirs[t][i])
  {
    hide Good, DS.SlotOf, NamedTwice;
    GoodName(s, t, i);
    var d, x := s.dirs[t][i], Apply(s, Store(t, i, off, v)).descs[s.dirs[t][i]];
    LocalGood(s, d, x);
  }

  lemma EvictGood(s: State, d: DS.DescId)
    requires Good(s) && Enabled(s, Evict(d))
    ensures var r := Apply(s, Evict(d)); Good(r) && Preserved(s, r)
  {
    hide Good, DS.SlotOf, NamedTwice;
    GoodDesc(s, d);
    var x := Apply(s, Evict(d)).descs[d];
    LocalGood(s, d, x);
  }

  /** Dropping a page loses nothing: the donor has it. */
  lemma DropGood(s: State, d: DS.DescId, e: Event)
    requires Good(s) && Enabled(s, e) && (e == DropClean(d) || e == FinishWriteback(d))
    ensures var r := Apply(s, e); Good(r) && Preserved(s, r)
  {
    hide Good, DS.SlotOf, NamedTwice;
    GoodDesc(s, d);
    GoodSlots(s, d);
    var x := Apply(s, e).descs[d];
    LocalGood(s, d, x);
  }

  lemma GoodSlots(s: State, d: DS.DescId)
    requires Good(s) && d in s.descs
    ensures !DS.IsCow(s.pool, d) && !DS.IsFree(s.pool, d) ==> DS.SlotOf(s.pool, d).Some?
    ensures DS.IsFree(s.pool, d) ==> DS.SlotOf(s.pool, d) == DS.None
    ensures DS.Inv(s.pool)
  {
  }

  // ---------------------------------------------------------------------------------------------
  // Events that touch the remote pages

  /** `d` changed to `x`, its remote page and the donors with it; nobody else's. */
  lemma RemoteGood(s: State, r: State, d: DS.DescId)
    requires Good(s) && d in s.descs && d in r.descs && r.descs == s.descs[d := r.descs[d]]
    requires r.dirs == s.dirs && r.descs[d].idx == s.descs[d].idx
    requires DS.Inv(r.pool) && r.pool.remote.Keys == s.pool.remote.Keys
    requires forall e :: e in s.descs && e != d ==> SameDonor(s, r, e)
    requires DescOk(r, d)
    ensures Good(r) && MeaningKept(s, r, {d})
  {
    hide DS.CrpsCounted, DS.HoldersUnique, DS.SlotOf, DescOk, SameDonor;
    assert r.descs.Keys == s.descs.Keys;
    assert Typed(r) by {
      RecordsOf(r.pool);
    }
    OthersOk(s, r, {d});
  }

  lemma RecordsOf(p: DS.Pool)
    requires DS.Inv(p)
    ensures RecordsKnown(p)
  {
  }

  /** A fetched block holds what was read, and claims no more than its own slot. */
  lemma FetchedOk(s: State, r: State, d: DS.DescId)
    requires d in s.descs && DescOk(s, d) && s.descs[d].local.None? && d in r.descs && r.dirs == s.dirs && r.donors == s.donors
    requires r.descs[d] == s.descs[d].(local := DS.Some(Local(Meaning(s, d), Active)), touched := true)
    requires !DS.IsCow(r.pool, d) && (DS.SlotOf(r.pool, d) == DS.SlotOf(s.pool, d) || DS.SlotOf(r.pool, d) == DS.None)
    requires DS.IsFree(s.pool, d) ==> DS.SlotOf(s.pool, d) == DS.None
    ensures DescOk(r, d) && Meaning(r, d) == Meaning(s, d)
  {
    hide DS.SlotOf, NamedTwice;
  }

  lemma FetchGood(s: State, d: DS.DescId, reuse: bool)
    requires Good(s) && Enabled(s, Fetch(d, reuse))
    ensures var r := Apply(s, Fetch(d, reuse)); Good(r) && Preserved(s, r)
  {
    GoodDesc(s, d);
    GoodSlots(s, d);
    var r := Apply(s, Fetch(d, reuse));
    FetchPool(s, d, reuse);
    FetchedOk(s, r, d);
    assert r.descs == s.descs[d := r.descs[d]];
    hide Good, DS.Inv, DS.SlotOf, NamedTwice, DS.FetchDone, DS.FreeSlot, Meaning, DescOk, Apply;
    RemoteGood(s, r, d);
  }

  /** What a fetch leaves of the remote page. */
  lemma FetchPool(s: State, d: DS.DescId, reuse: bool)
    requires Good(s) && Enabled(s, Fetch(d, reuse))
    ensures var p := Apply(s, Fetch(d, reuse)).pool;
            && DS.Inv(p) && p.remote.Keys == s.pool.remote.Keys && !DS.IsCow(p, d)
            && DS.SlotOf(p, d) == (if reuse && !DS.SharedElsewhere(s.pool, d) then DS.SlotOf(s.pool, d) else DS.None)
            && forall e :: e != d ==> DS.SameFor(s.pool, p, e)
  {
    GoodDesc(s, d);
    GoodSlots(s, d);
    DS.FetchDoneKeepsIff(s.pool, d, reuse);
    hide Good, DS.CrpsCounted, DS.HoldersUnique, DS.SlotOf, DS.FetchDone, DS.FreeSlot;
    DS.FetchDoneInv(s.pool, d, reuse);
    DS.FreeSlotInv(s.pool, d);
  }

  /** The slot given up by a refault goes; the page stays. */
  lemma GiveUpSlot(s: State, d: DS.DescId, x: Descr)
    requires Good(s) && d in s.descs && x.idx == s.descs[d].idx && x.local.Some? && x.local.value.phase != Writeback
    requires s.descs[d].local.Some? && x == s.descs[d].(local := x.local)
    requires s.descs[d].ptes == map[]
    ensures var r := s.(descs := s.descs[d := x], pool := DS.FreeSlot(s.pool, d));
            Good(r) && MeaningKept(s, r, {d})
  {
    GoodDesc(s, d);
    GoodSlots(s, d);
    hide Good, DS.CrpsCounted, DS.HoldersUnique, DS.SlotOf, DS.FreeSlot, NamedTwice;
    DS.FreeSlotInv(s.pool, d);
    var r := s.(descs := s.descs[d := x], pool := DS.FreeSlot(s.pool, d));
    assert DescOk(r, d);
    RemoteGood(s, r, d);
  }

  lemma UnmappedPhase(s: State, d: DS.DescId)
    requires Good(s) && d in s.descs && s.descs[d].local.Some? && s.descs[d].local.value.phase != Active
    ensures s.descs[d].ptes == map[]
  {
    assert DescOk(s, d);
    assert forall t :: t !in s.descs[d].ptes;
  }

  lemma RefaultedOk(s: State, d: DS.DescId, x: Descr)
    requires d in s.descs && DescOk(s, d) && s.descs[d].local.Some? && s.descs[d].ptes == map[]
    requires x == s.descs[d].(local := DS.Some(Local(s.descs[d].local.value.page, Active)))
    ensures DescOk(Changed(s, d, x), d)
  {
    hide DS.SlotOf, NamedTwice;
  }

  lemma RefaultGood(s: State, d: DS.DescId, reuse: bool)
    requires Good(s) && Enabled(s, Refault(d, reuse))
    ensures var r := Apply(s, Refault(d, reuse)); Good(r) && Preserved(s, r)
  {
    GoodDesc(s, d);
    UnmappedPhase(s, d);
    var x := s.descs[d].(local := DS.Some(Local(s.descs[d].local.value.page, Active)));
    RefaultedOk(s, d, x);
    var r := Apply(s, Refault(d, reuse));
    assert Meaning(r, d) == Meaning(s, d) && d in r.descs by {
      hide Good, DS.SlotOf, DescOk;
    }
    hide Good, DS.SlotOf, DS.FreeSlot, NamedTwice, DescOk, Meaning, MeaningKept, Preserved;
    if InPhase(s, d, Writeback) && !reuse {
      GiveUpSlot(s, d, x);
    } else {
      LocalGood(s, d, x);
    }
    KeptAll(s, r, d, {d});
  }

  /** A writeback writes only a slot of its own. */
  lemma OwnSlot(p: DS.Pool, d: DS.DescId, e: DS.DescId)
    requires DS.Inv(p) && d in p.remote && !DS.IsCow(p, d) && d != e
    ensures DS.SlotOf(p, d).Some? ==> DS.SlotOf(p, e) != DS.SlotOf(p, d)
  {
  }

  /** The state a writeback leaves. */
  function Written(s: State, d: DS.DescId, slot: DS.Slot, clear: bool): State
    requires d in s.descs && s.descs[d].local.Some?
  {
    var x := s.descs[d];
    var pool := DS.Alloc(s.pool, d, slot);
    var target := DS.SlotOf(pool, d);
    s.(descs := s.descs[d := x.(local := DS.Some(Local(x.local.value.page, Writeback)), dirty := x.dirty && !clear)],
       pool := pool,
       donors := if target.Some? then s.donors[target.value := x.local.value.page] else s.donors)
  }

  lemma ResidentSlot(s: State, d: DS.DescId)
    requires Good(s) && d in s.descs && s.descs[d].local.Some?
    ensures !DS.IsCow(s.pool, d) && (!DS.IsFree(s.pool, d) ==> DS.SlotOf(s.pool, d).Some?)
  {
    GoodSlots(s, d);
    assert DescOk(s, d);
  }

  lemma WrittenOthers(s: State, d: DS.DescId, slot: DS.Slot, clear: bool)
    requires Good(s) && InPhase(s, d, Inactive) && (DS.IsFree(s.pool, d) ==> slot in s.pool.avail)
    ensures var r := Written(s, d, slot, clear);
            && DS.Inv(r.pool) && r.pool.remote.Keys == s.pool.remote.Keys && DS.SlotOf(r.pool, d).Some?
            && !DS.IsCow(r.pool, d) && (forall e :: e in s.descs && e != d ==> SameDonor(s, r, e))
  {
    GoodDesc(s, d);
    GoodSlots(s, d);
    ResidentSlot(s, d);
    hide Good, DS.CrpsCounted, DS.HoldersUnique, DS.SlotOf, NamedTwice;
    DS.AllocInv(s.pool, d, slot);
    hide DS.Alloc, DS.IsFree, DescOk;
    var r := Written(s, d, slot, clear);
    forall e | e in s.descs && e != d
      ensures SameDonor(s, r, e)
    {
      OwnSlot(r.pool, d, e);
    }
  }

  lemma WrittenOk(s: State, r: State, d: DS.DescId, slot: DS.Slot, clear: bool)
    requires d in s.descs && InPhase(s, d, Inactive) && DescOk(s, d) && s.descs[d].ptes == map[] && r == Written(s, d, slot, clear)
    requires DS.SlotOf(r.pool, d).Some? && !DS.IsCow(r.pool, d)
    ensures DescOk(r, d) && Meaning(r, d) == Meaning(s, d)
  {
    hide DS.SlotOf, NamedTwice, DS.Alloc;
  }

  lemma WritebackGood(s: State, d: DS.DescId, slot: DS.Slot, clear: bool)
    requires Good(s) && InPhase(s, d, Inactive) && (DS.IsFree(s.pool, d) ==> slot in s.pool.avail)
    ensures var r := Written(s, d, slot, clear); Good(r) && Preserved(s, r)
  {
    GoodDesc(s, d);
    UnmappedPhase(s, d);
    var r := Written(s, d, slot, clear);
    WrittenOthers(s, d, slot, clear);
    WrittenOk(s, r, d, slot, clear);
    hide Good, DS.Inv, DS.SlotOf, NamedTwice, DS.Alloc, DescOk, SameDonor;
    assert r.descs == s.descs[d := r.descs[d]];
    RemoteGood(s, r, d);
  }

  lemma StartWritebackGood(s: State, d: DS.DescId, slot: DS.Slot, clear: bool)
    requires Good(s) && Enabled(s, StartWriteback(d, slot, clear))
    ensures var r := Apply(s, StartWriteback(d, slot, clear)); Good(r) && Preserved(s, r)
  {
    WritebackGood(s, d, slot, clear);
    hide Good, Preserved, DS.SlotOf, DS.Alloc;
  }

  // ---------------------------------------------------------------------------------------------
  // Events that change directories

  ghost predicate ChangedOk(s: State, r: State, changed: set<DS.DescId>) {
    && (forall e :: e in r.descs ==> e in s.descs || e in changed)
    && (forall e :: e in changed && e in r.descs ==> DescOk(r, e))
  }

  /** Every block outside `changed` is there and holds what it held. */
  ghost predicate MeaningKept(s: State, r: State, changed: set<DS.DescId>) {
    forall e :: e in s.descs && e !in changed ==> e in r.descs && Meaning(r, e) == Meaning(s, e)
  }

  /** Every block holds what it held. */
  ghost predicate Preserved(s: State, r: State) {
    forall e :: e in s.descs ==> e in r.descs && Meaning(r, e) == Meaning(s, e)
  }

  /** Enough to conclude that a state is good. */
  lemma Rebuild(s: State, r: State, changed: set<DS.DescId>)
    requires Good(s) && OthersSame(s, r, changed) && ChangedOk(s, r, changed)
    requires Typed(r) && DS.Inv(r.pool) && DirsOk(r)
    ensures Good(r) && MeaningKept(s, r, changed)
  {
    hide DescOk, DS.CrpsCounted, DS.HoldersUnique, Typed, DirsOk;
    OthersOk(s, r, changed);
  }

  lemma ChangedTwo(s: State, r: State, d: DS.DescId, n: DS.DescId)
    requires r.descs.Keys == s.descs.Keys + {n} && d in s.descs && DescOk(r, d) && DescOk(r, n)
    ensures ChangedOk(s, r, {d, n})
  {
  }

  lemma KeptAll(s: State, r: State, d: DS.DescId, changed: set<DS.DescId>)
    requires MeaningKept(s, r, changed) && (forall e :: e in changed && e in s.descs ==> e == d)
    requires d in s.descs && d in r.descs && Meaning(r, d) == Meaning(s, d)
    ensures Preserved(s, r)
  {
  }

  lemma GoodDirs(s: State)
    requires Good(s)
    ensures DirsOk(s) && Typed(s) && DS.Inv(s.pool)
  {
  }

  ghost predicate NamesKept(s: State, r: State, changed: set<DS.DescId>) {
    forall e :: e in s.descs && e !in changed ==> SameNames(s, r, e)
  }

  /** A descriptor that does not exist yet is named nowhere. */
  lemma FreshIsUnnamed(s: State, n: DS.DescId, t: DirId, i: Idx)
    requires DirsOk(s) && n !in s.descs
    ensures !Named(s.dirs, t, i, n)
  {
  }

  /** Retargeting slot `(t, i)` to the new descriptor `n`. */
  lemma Retarget(s: State, r: State, t: DirId, i: Idx, n: DS.DescId, changed: set<DS.DescId>)
    requires DirsOk(s) && t < |s.dirs| && n !in s.descs && r.dirs == SetSlot(s.dirs, t, i, n)
    requires n in r.descs && r.descs[n].idx == i && r.descs.Keys == s.descs.Keys + {n}
    requires forall e :: e in s.descs ==> r.descs[e].idx == s.descs[e].idx
    requires i in s.dirs[t] ==> s.dirs[t][i] in changed
    ensures DirsOk(r) && !Shared(r, n)
    ensures NamesKept(s, r, changed)
  {
    hide SetSlot;
    forall e | e in s.descs && e !in changed
      ensures SameNames(s, r, e)
    {
      assert !Named(s.dirs, t, i, e);
    }
    forall u: DirId
      ensures Named(r.dirs, u, i, n) ==> u == t
    {
      FreshIsUnnamed(s, n, u, i);
    }
  }

  lemma NewDescGood(s: State, t: DirId, i: Idx, n: DS.DescId)
    requires Good(s) && Enabled(s, NewDesc(t, i, n))
    ensures var r := Apply(s, NewDesc(t, i, n));
            Good(r) && Preserved(s, r) && n in r.descs && Meaning(r, n) == ZERO
  {
    GoodDirs(s);
    hide Good, DS.CrpsCounted, DS.HoldersUnique, DS.SlotOf, NamedTwice, DirsOk, DS.AddDesc;
    DS.AddDescInv(s.pool, n);
    var r := Apply(s, NewDesc(t, i, n));
    Retarget(s, r, t, i, n, {n});
    AddedFree(s.pool, n);
    RecordsOf(r.pool);
    Rebuild(s, r, {n});
  }

  lemma AddedFree(p: DS.Pool, n: DS.DescId)
    ensures DS.IsFree(DS.AddDesc(p, n), n) && DS.AddDesc(p, n).remote.Keys == p.remote.Keys + {n}
  {
  }

  lemma CowNames(s: State, t: DirId, i: Idx, n: DS.DescId)
    requires Good(s) && CowFault(s, t, i)
    ensures t < |s.dirs| && i in s.dirs[t]
    ensures var d := s.dirs[t][i]; d in s.descs && s.descs[d].idx == i && Named(s.dirs, t, i, d) && DescOk(s, d)
    ensures s.descs[s.dirs[t][i]].wprotect && (s.descs[s.dirs[t][i]].local.Some? ==> s.descs[s.dirs[t][i]].touched)
    ensures var d := s.dirs[t][i];
            forall u: DirId :: Named(SetSlot(s.dirs, t, i, n), u, i, d) && d != n ==> Named(s.dirs, u, i, d) && u != t
    ensures var d := s.dirs[t][i];
            forall u: DirId :: Named(s.dirs, u, i, d) && u != t ==> Named(SetSlot(s.dirs, t, i, n), u, i, d)
  {
    GoodName(s, t, i);
  }

  lemma CowOthers(s: State, r: State, d: DS.DescId, n: DS.DescId)
    requires d in r.descs && n in r.descs && r.descs == s.descs[d := r.descs[d]][n := r.descs[n]] && r.donors == s.donors
    requires forall e :: e != n ==> DS.SameFor(s.pool, r.pool, e)
    requires NamesKept(s, r, {d, n})
    ensures OthersSame(s, r, {d, n})
  {
    hide DS.SameFor, SameNames;
  }

  /** What every copy-on-write of a resident block has in common: `d` changed, `n` new without a slot. */
  lemma CowShape(s: State, r: State, t: DirId, i: Idx, d: DS.DescId, n: DS.DescId)
    requires Good(s) && CowFault(s, t, i) && FreshDesc(s, n) && d == s.dirs[t][i]
    requires d in r.descs && n in r.descs && r.descs == s.descs[d := r.descs[d]][n := r.descs[n]]
    requires r.descs[d].idx == i && r.descs[n].idx == i
    requires r.dirs == SetSlot(s.dirs, t, i, n) && r.pool == DS.AddDesc(s.pool, n) && r.donors == s.donors
    ensures d != n && s.descs[d].idx == i && OthersSame(s, r, {d, n}) && Typed(r) && DS.Inv(r.pool) && DirsOk(r)
    ensures !Shared(r, n) && Named(r.dirs, t, i, n) && DS.SameFor(s.pool, r.pool, d)
    ensures DS.IsFree(r.pool, n) && DS.SlotOf(r.pool, n) == DS.None
  {
    GoodDirs(s);
    CowNames(s, t, i, n);
    hide Good, DS.Inv, DS.SlotOf, NamedTwice, DirsOk, DS.AddDesc, CowFault;
    DS.AddDescInv(s.pool, n);
    AddedFree(s.pool, n);
    assert r.descs.Keys == s.descs.Keys + {n};
    Retarget(s, r, t, i, n, {d, n});
    hide SetSlot, SameNames, DS.SameFor, OthersSame;
    CowOthers(s, r, d, n);
    RecordsOf(r.pool);
  }

  /** The faulting directory's own copy. */
  lemma NewCopyOk(r: State, t: DirId, i: Idx, n: DS.DescId, page: Content)
    requires n in r.descs && r.descs[n] == Descr(i, DS.Some(Local(page, Active)), true, true, false, map[t := true])
    requires !Shared(r, n) && Named(r.dirs, t, i, n) && DS.IsFree(r.pool, n) && DS.SlotOf(r.pool, n) == DS.None
    ensures DescOk(r, n) && Meaning(r, n) == page
  {
    hide NamedTwice, DS.SlotOf, Named;
  }

  /** One descriptor changed, one new: the state is good and nothing lost its meaning. */
  lemma FinishCow(s: State, r: State, d: DS.DescId, n: DS.DescId)
    requires Good(s) && OthersSame(s, r, {d, n}) && Typed(r) && DS.Inv(r.pool) && DirsOk(r)
    requires r.descs.Keys == s.descs.Keys + {n} && d in s.descs && n !in s.descs && DescOk(r, d) && DescOk(r, n)
    requires Meaning(r, d) == Meaning(s, d)
    ensures Good(r) && Preserved(s, r)
  {
    hide Good, DirsOk, Meaning, OthersSame, Typed, DS.Inv, DescOk, ChangedOk, MeaningKept, Preserved;
    ChangedTwo(s, r, d, n);
    Rebuild(s, r, {d, n});
    KeptAll(s, r, d, {d, n});
  }

  lemma CopyPieces(s: State, r: State, t: DirId, i: Idx, d: DS.DescId, n: DS.DescId)
    requires Good(s) && CowFault(s, t, i) && Resident(s, s.dirs[t][i]) && FreshDesc(s, n) && d == s.dirs[t][i]
    requires r == AfterCopy(s, t, i, n)
    ensures OthersSame(s, r, {d, n}) && Typed(r) && DS.Inv(r.pool) && DirsOk(r) && r.descs.Keys == s.descs.Keys + {n}
    ensures DescOk(r, d) && DescOk(r, n) && Meaning(r, d) == Meaning(s, d) && Meaning(r, n) == Meaning(s, d)
  {
    CowNames(s, t, i, n);
    hide Good, DS.SlotOf, NamedTwice, DirsOk, SetSlot, DS.AddDesc, Meaning, OthersSame, Typed, DS.Inv, DS.SameFor;
    hide CowFault, FreshDesc, DescOk, Named, Shared;
    assert r.descs == s.descs[d := r.descs[d]][n := r.descs[n]];
    CowShape(s, r, t, i, d, n);
    CopiedOldOk(s, r, t, i, n, d);
    NewCopyOk(r, t, i, n, s.descs[d].local.value.page);
  }

  lemma AfterCopyGood(s: State, t: DirId, i: Idx, n: DS.DescId)
    requires Good(s) && CowFault(s, t, i) && Resident(s, s.dirs[t][i]) && FreshDesc(s, n)
    ensures var r := AfterCopy(s, t, i, n);
            Good(r) && Preserved(s, r) && n in r.descs && Meaning(r, n) == Meaning(s, s.dirs[t][i])
  {
    CowNames(s, t, i, n);
    hide Good, DirsOk, Meaning, OthersSame, Typed, DS.Inv, DescOk, CowFault, Preserved, DS.SlotOf, Named;
    var d := s.dirs[t][i];
    var r := AfterCopy(s, t, i, n);
    CopyPieces(s, r, t, i, d, n);
    FinishCow(s, r, d, n);
  }

  /** The old descriptor after a directory left it. */
  lemma CopiedOldOk(s: State, r: State, t: DirId, i: Idx, n: DS.DescId, d: DS.DescId)
    requires d in s.descs && d in r.descs && DescOk(s, d) && s.descs[d].idx == i && (Shared(r, d) ==> s.descs[d].wprotect)
    requires r.descs[d] == Unlisted(s.descs[d].(ptes := Without(s.descs[d].ptes, t)))
    requires DS.SameFor(s.pool, r.pool, d) && r.donors == s.donors
    requires forall u: DirId :: Named(s.dirs, u, i, d) && u != t ==> Named(r.dirs, u, i, d)
    ensures DescOk(r, d) && Meaning(r, d) == Meaning(s, d)
  {
    hide DS.SlotOf, NamedTwice, Named;
  }

  /** The old descriptor after its pages were handed over: it keeps its donor copy and nothing else, and that is
      the page it gave away. */
  lemma HandedOldOk(s: State, r: State, d: DS.DescId)
    requires d in s.descs && d in r.descs && DescOk(s, d) && s.descs[d].wprotect && s.descs[d].local.Some?
    requires r.descs[d] == s.descs[d].(local := DS.None, ptes := map[]) && !s.descs[d].dirty
    requires DS.SameFor(s.pool, r.pool, d) && r.donors == s.donors && DS.SlotOf(s.pool, d).Some?
    ensures DescOk(r, d) && Meaning(r, d) == Meaning(s, d)
  {
    hide DS.SlotOf, NamedTwice, Named;
  }

  lemma HandoffPieces(s: State, r: State, t: DirId, i: Idx, d: DS.DescId, n: DS.DescId)
    requires Good(s) && CowFault(s, t, i) && Resident(s, s.dirs[t][i]) && FreshDesc(s, n) && d == s.dirs[t][i]
    requires !s.descs[s.dirs[t][i]].dirty && DS.SlotOf(s.pool, s.dirs[t][i]).Some?
    requires r == AfterHandoff(s, t, i, n)
    ensures OthersSame(s, r, {d, n}) && Typed(r) && DS.Inv(r.pool) && DirsOk(r) && r.descs.Keys == s.descs.Keys + {n}
    ensures DescOk(r, d) && DescOk(r, n) && Meaning(r, d) == Meaning(s, d) && Meaning(r, n) == Meaning(s, d)
  {
    CowNames(s, t, i, n);
    hide Good, DS.SlotOf, NamedTwice, DirsOk, SetSlot, DS.AddDesc, Meaning, OthersSame, Typed, DS.Inv, DS.SameFor;
    hide CowFault, FreshDesc, DescOk, Named, Shared;
    assert r.descs == s.descs[d := r.descs[d]][n := r.descs[n]];
    CowShape(s, r, t, i, d, n);
    HandedOldOk(s, r, d);
    NewCopyOk(r, t, i, n, s.descs[d].local.value.page);
  }

  lemma AfterHandoffGood(s: State, t: DirId, i: Idx, n: DS.DescId)
    requires Good(s) && CowFault(s, t, i) && Resident(s, s.dirs[t][i]) && FreshDesc(s, n)
    requires !s.descs[s.dirs[t][i]].dirty && DS.SlotOf(s.pool, s.dirs[t][i]).Some?
    ensures var r := AfterHandoff(s, t, i, n);
            Good(r) && Preserved(s, r) && n in r.descs && Meaning(r, n) == Meaning(s, s.dirs[t][i])
  {
    CowNames(s, t, i, n);
    hide Good, DirsOk, Meaning, OthersSame, Typed, DS.Inv, DescOk, CowFault, Preserved, DS.SlotOf, Named;
    var d := s.dirs[t][i];
    var r := AfterHandoff(s, t, i, n);
    HandoffPieces(s, r, t, i, d, n);
    FinishCow(s, r, d, n);
  }

  /** Handing over is only done when the donor copy equals the page. */
  lemma HandoffIsClean(s: State, t: DirId, i: Idx, n: DS.DescId)
    requires Good(s) && Enabled(s, CowHandoff(t, i, n))
    ensures var d := s.dirs[t][i];
            var slot := DS.SlotOf(s.pool, d);
            slot.Some? && slot.value in s.donors && s.donors[slot.value] == s.descs[d].local.value.page
  {
    CowNames(s, t, i, n);
    GoodSlots(s, s.dirs[t][i]);
  }

  /** Adding a descriptor and sharing a slot with it. */
  lemma SharePool(p: DS.Pool, d: DS.DescId, n: DS.DescId, c: DS.CrpId)
    requires DS.Inv(p) && d in p.remote && n !in p.remote && c !in p.crps
    ensures RecordsKnown(DS.AddDesc(p, n))
    ensures var q := DS.Share(DS.AddDesc(p, n), d, n, c);
            && DS.Inv(q) && q.remote.Keys == p.remote.Keys + {n}
            && DS.SlotOf(q, n) == DS.SlotOf(p, d) && DS.SlotOf(q, d) == DS.SlotOf(p, d)
            && forall e :: e != d && e != n ==> DS.SameFor(p, q, e)
  {
    var a := DS.AddDesc(p, n);
    DS.AddDescInv(p, n);
    AddedFree(p, n);
    AddedRecords(p, n);
    RecordsOf(a);
    hide DS.CrpsCounted, DS.HoldersUnique, DS.SlotOf, DS.Share, DS.AddDesc, RecordsKnown;
    DS.ShareInv(a, d, n, c);
    var q := DS.Share(a, d, n, c);
    assert DS.SameFor(p, a, d);
    forall e | e != d && e != n
      ensures DS.SameFor(p, q, e)
    {
      assert DS.SameFor(p, a, e) && DS.SameFor(a, q, e);
    }
  }

  /** A descriptor that lives on its donor copy alone. */
  lemma RemoteOnlyOk(r: State, d: DS.DescId)
    requires d in r.descs && r.descs[d].local.None? && r.descs[d].touched && r.descs[d].ptes == map[]
    requires Shared(r, d) ==> r.descs[d].wprotect
    requires DS.SlotOf(r.pool, d).Some? && DS.SlotOf(r.pool, d).value in r.donors
    ensures DescOk(r, d) && Meaning(r, d) == r.donors[DS.SlotOf(r.pool, d).value]
  {
  }

  lemma NoPageNoPte(s: State, d: DS.DescId)
    requires d in s.descs && PtesOk(s, d) && s.descs[d].local.None?
    ensures s.descs[d].ptes == map[]
  {
    assert forall t :: t !in s.descs[d].ptes;
  }

  lemma RemoteTyped(s: State, r: State, d: DS.DescId, n: DS.DescId, c: DS.CrpId)
    requires Good(s) && d in s.pool.remote && FreshDesc(s, n) && d != n && c !in s.pool.crps && RecordsKnown(DS.AddDesc(s.pool, n))
    requires r.descs.Keys == s.descs.Keys + {n} && d in DS.AddDesc(s.pool, n).remote
    requires r.pool == DS.Share(DS.AddDesc(s.pool, n), d, n, c)
    ensures Typed(r) && DS.Inv(r.pool)
    ensures DS.SlotOf(r.pool, n) == DS.SlotOf(s.pool, d) && DS.SlotOf(r.pool, d) == DS.SlotOf(s.pool, d)
    ensures forall e :: e != d && e != n ==> DS.SameFor(s.pool, r.pool, e)
  {
    GoodDirs(s);
    hide Good, DS.SlotOf, DirsOk, DS.Inv, DS.SameFor, DS.Share, DS.AddDesc;
    SharePool(s.pool, d, n, c);
    RecordsOf(r.pool);
  }

  /** Sharing a slot changes the old descriptor's remote page and adds the new descriptor. */
  lemma RemotePieces(s: State, r: State, t: DirId, i: Idx, d: DS.DescId, n: DS.DescId, c: DS.CrpId)
    requires Good(s) && SlotNamed(s, t, i) && d == s.dirs[t][i] && s.descs[d].idx == i && FreshDesc(s, n)
    requires c !in s.pool.crps && d in s.pool.remote && d != n && RecordsKnown(s.pool) && r == AfterRemote(s, t, i, n, c)
    ensures OthersSame(s, r, {d, n}) && Typed(r) && DS.Inv(r.pool) && DirsOk(r) && !Shared(r, n)
    ensures DS.SlotOf(r.pool, n) == DS.SlotOf(s.pool, d) && DS.SlotOf(r.pool, d) == DS.SlotOf(s.pool, d)
  {
    GoodDirs(s);
    hide Good, DS.SlotOf, NamedTwice, DirsOk, SetSlot, DS.Inv, DS.SameFor, DS.Share;
    hide OthersSame, NamesKept, Named, SameNames, Meaning, DescOk, RecordsKnown, Typed;
    assert r.descs.Keys == s.descs.Keys + {n} && r.descs == s.descs[n := r.descs[n]];
    RemoteTyped(s, r, d, n, c);
    Retarget(s, r, t, i, n, {d, n});
    RemoteShape(s, r, d, n);
  }

  lemma AfterRemoteGood(s: State, t: DirId, i: Idx, n: DS.DescId, c: DS.CrpId)
    requires Good(s) && CowFault(s, t, i) && s.descs[s.dirs[t][i]].local.None? && FreshDesc(s, n) && c !in s.pool.crps
    requires s.descs[s.dirs[t][i]].touched
    ensures s.dirs[t][i] in s.pool.remote && s.dirs[t][i] != n && RecordsKnown(s.pool)
    ensures var r := AfterRemote(s, t, i, n, c);
            && Good(r) && Preserved(s, r) && n in r.descs && Meaning(r, n) == Meaning(s, s.dirs[t][i])
  {
    CowNames(s, t, i, n);
    GoodDirs(s);
    var d := s.dirs[t][i];
    NoPageNoPte(s, d);
    RemoteIsThere(s, d);
    var r := AfterRemote(s, t, i, n, c);
    RemotePieces(s, r, t, i, d, n, c);
    assert r.descs.Keys == s.descs.Keys + {n};
    hide Good, DS.SlotOf, DirsOk, SetSlot, DS.Inv, DS.Share, DS.AddDesc, ChangedOk, MeaningKept, Preserved, NamedTwice;
    hide CowFault, OthersSame, DescOk, Named, Meaning, RecordsKnown, Typed;
    RemoteOnlyOk(r, d);
    RemoteOnlyOk(r, n);
    FinishCow(s, r, d, n);
  }

  lemma RemoteIsThere(s: State, d: DS.DescId)
    requires d in s.descs && DescOk(s, d) && s.descs[d].local.None? && s.descs[d].touched
    ensures DS.SlotOf(s.pool, d).Some? && DS.SlotOf(s.pool, d).value in s.donors
    ensures Meaning(s, d) == s.donors[DS.SlotOf(s.pool, d).value]
  {
  }

  lemma RemoteShape(s: State, r: State, d: DS.DescId, n: DS.DescId)
    requires r.donors == s.donors && n in r.descs && r.descs == s.descs[n := r.descs[n]] && n !in s.descs
    requires forall e :: e != d && e != n ==> DS.SameFor(s.pool, r.pool, e)
    requires NamesKept(s, r, {d, n})
    ensures OthersSame(s, r, {d, n})
  {
    hide DS.SameFor, SameNames;
  }

  lemma AddedRecords(p: DS.Pool, n: DS.DescId)
    ensures DS.AddDesc(p, n).crps == p.crps
  {
  }

  // ---------------------------------------------------------------------------------------------
  // Fork and close

  lemma ForkNames(s: State, t: DirId, u: DirId, i: Idx, d: DS.DescId)
    requires t < |s.dirs|
    ensures Named(s.dirs + [s.dirs[t]], u, i, d) <==> Named(s.dirs, u, i, d) || (u == |s.dirs| && Named(s.dirs, t, i, d))
  {
  }

  /** A shared descriptor has no writable pte. */
  lemma SharedIsReadOnly(s: State, d: DS.DescId, t: DirId, u: DirId)
    requires d in s.descs && DescOk(s, d) && t != u && Named(s.dirs, t, s.descs[d].idx, d) && u in s.descs[d].ptes
    ensures !s.descs[d].ptes[u]
  {
    assert Named(s.dirs, u, s.descs[d].idx, d);
    assert NamedTwice(s.dirs, s.descs[d].idx, d) by {
      var a, b := if t < u then t else u, if t < u then u else t;
      assert Named(s.dirs, a, s.descs[d].idx, d) && Named(s.dirs, b, s.descs[d].idx, d);
    }
  }

  /** Arming leaves only read-only ptes. */
  lemma ArmedPtes(s: State, r: State, t: DirId, d: DS.DescId)
    requires d in s.descs && DescOk(s, d) && t < |s.dirs| && Named(s.dirs, t, s.descs[d].idx, d)
    requires d in r.descs && r.descs[d] == Armed(s.descs[d], t) && r.dirs == s.dirs + [s.dirs[t]]
    ensures PtesOk(r, d)
  {
    hide DonorOk, NamedTwice;
    var x, y := s.descs[d], r.descs[d];
    forall u | u in y.ptes
      ensures y.local.Some? && y.local.value.phase == Active && Named(r.dirs, u, y.idx, d) && !y.ptes[u]
    {
      ForkNames(s, t, u, x.idx, d);
      if u != t {
        SharedIsReadOnly(s, d, t, u);
      }
    }
  }

  lemma ArmedOk(s: State, r: State, t: DirId, d: DS.DescId)
    requires Good(s) && Enabled(s, Fork(t)) && r == Apply(s, Fork(t)) && d in s.descs
    requires Named(s.dirs, t, s.descs[d].idx, d)
    ensures d in r.descs && DescOk(r, d) && Meaning(r, d) == Meaning(s, d)
  {
    GoodDesc(s, d);
    assert r.descs[d] == Armed(s.descs[d], t) && r.pool == s.pool && r.donors == s.donors;
    ArmedPtes(s, r, t, d);
    hide Good, Apply, Enabled, ForkDescs, DS.SlotOf, NamedTwice, PtesOk, Named;
  }

  lemma NotForked(s: State, r: State, t: DirId, d: DS.DescId)
    requires Good(s) && Enabled(s, Fork(t)) && r == Apply(s, Fork(t)) && d in s.descs
    requires !Named(s.dirs, t, s.descs[d].idx, d)
    ensures d in r.descs && DescOk(r, d) && Meaning(r, d) == Meaning(s, d)
  {
    GoodDesc(s, d);
    hide Good, DS.SlotOf;
    forall u: DirId
      ensures Named(r.dirs, u, s.descs[d].idx, d) <==> Named(s.dirs, u, s.descs[d].idx, d)
    {
      ForkNames(s, t, u, s.descs[d].idx, d);
    }
    hide Named, DescOk;
    Unaffected(s, r, d);
  }

  lemma ForkGood(s: State, t: DirId)
    requires Good(s) && Enabled(s, Fork(t))
    ensures var r := Apply(s, Fork(t)); Good(r) && Preserved(s, r)
  {
    GoodDirs(s);
    var r := Apply(s, Fork(t));
    forall u: DirId, i: Idx, d: DS.DescId
      ensures Named(r.dirs, u, i, d) ==> d in r.descs && r.descs[d].idx == i
    {
      ForkNames(s, t, u, i, d);
    }
    forall e | e in s.descs
      ensures DescOk(r, e) && Meaning(r, e) == Meaning(s, e)
    {
      if Named(s.dirs, t, s.descs[e].idx, e) {
        ArmedOk(s, r, t, e);
      } else {
        NotForked(s, r, t, e);
      }
    }
    hide DescOk, Named;
  }

  lemma BeginCloseGood(s: State, t: DirId)
    requires Good(s) && Enabled(s, BeginClose(t))
    ensures var r := Apply(s, BeginClose(t)); Good(r) && Preserved(s, r)
  {
    var r := Apply(s, BeginClose(t));
    forall e | e in s.descs
      ensures DescOk(r, e)
    {
      GoodDesc(s, e);
      Unaffected(s, r, e);
    }
  }

  /** What clearing slot `(t, i)` does to the names. */
  lemma Cleared(s: State, r: State, t: DirId, i: Idx, d: DS.DescId)
    requires DirsOk(s) && t < |s.dirs| && i in s.dirs[t] && d == s.dirs[t][i] && r.dirs == ClearSlot(s.dirs, t, i)
    requires forall e :: e in r.descs ==> e in s.descs && r.descs[e].idx == s.descs[e].idx
    requires forall e :: e in s.descs && e != d ==> e in r.descs
    requires d !in r.descs ==> LastName(s, t, i, d)
    ensures DirsOk(r) && NamesKept(s, r, {d})
    ensures forall u: DirId :: Named(s.dirs, u, i, d) && u != t ==> Named(r.dirs, u, i, d)
    ensures d in r.descs && Shared(r, d) ==> d in s.descs && Shared(s, d)
  {
    hide ClearSlot;
    assert Named(s.dirs, t, i, d);
    forall e | e in s.descs && e != d
      ensures SameNames(s, r, e)
    {
      assert !Named(s.dirs, t, i, e);
    }
  }

  lemma CloseOthers(s: State, r: State, d: DS.DescId)
    requires NamesKept(s, r, {d}) && r.donors == s.donors
    requires forall e :: e in s.descs && e != d ==> e in r.descs && r.descs[e] == s.descs[e] && DS.SameFor(s.pool, r.pool, e)
    ensures OthersSame(s, r, {d})
  {
    hide DS.SameFor, SameNames;
  }

  lemma ReleaseGood(s: State, t: DirId, i: Idx)
    requires Good(s) && SlotNamed(s, t, i) && LastName(s, t, i, s.dirs[t][i]) && s.dirs[t][i] in s.pool.remote && RecordsKnown(s.pool)
    ensures var d := s.dirs[t][i];
            var r := s.(dirs := ClearSlot(s.dirs, t, i), descs := s.descs - {d}, pool := DS.Release(s.pool, d));
            Good(r) && MeaningKept(s, r, {d})
  {
    GoodDirs(s);
    var d := s.dirs[t][i];
    var r := s.(dirs := ClearSlot(s.dirs, t, i), descs := s.descs - {d}, pool := DS.Release(s.pool, d));
    hide Good, DS.CrpsCounted, DS.HoldersUnique, DS.SlotOf, NamedTwice, DirsOk, ClearSlot, DS.Release, LastName, NamesKept, OthersSame;
    DS.ReleaseInv(s.pool, d);
    Cleared(s, r, t, i, d);
    CloseOthers(s, r, d);
    RecordsOf(r.pool);
    Rebuild(s, r, {d});
  }

  function Left(s: State, t: DirId, i: Idx): State
    requires SlotNamed(s, t, i)
  {
    var d := s.dirs[t][i];
    s.(dirs := ClearSlot(s.dirs, t, i), descs := s.descs[d := Unlisted(s.descs[d].(ptes := Without(s.descs[d].ptes, t)))])
  }

  lemma LeftPieces(s: State, r: State, t: DirId, i: Idx, d: DS.DescId)
    requires Good(s) && SlotNamed(s, t, i) && d == s.dirs[t][i] && r == Left(s, t, i)
    ensures OthersSame(s, r, {d}) && DirsOk(r) && Typed(r) && DS.Inv(r.pool) && r.descs.Keys == s.descs.Keys
    ensures DescOk(r, d) && Meaning(r, d) == Meaning(s, d)
  {
    GoodDirs(s);
    GoodName(s, t, i);
    hide Good, DS.Inv, DS.SlotOf, NamedTwice, DirsOk, ClearSlot, LastName, NamesKept, OthersSame, RecordsKnown;
    assert r.descs.Keys == s.descs.Keys;
    Cleared(s, r, t, i, d);
    CloseOthers(s, r, d);
    hide DescOk, Named, Meaning;
    CopiedOldOk(s, r, t, i, d, d);
  }

  lemma LeaveGood(s: State, t: DirId, i: Idx)
    requires Good(s) && SlotNamed(s, t, i)
    ensures Good(Left(s, t, i)) && Preserved(s, Left(s, t, i))
  {
    var d := s.dirs[t][i];
    hide Good, DS.Inv, DirsOk, OthersSame, Typed, DescOk, Meaning, MeaningKept, Preserved;
    var r := Left(s, t, i);
    LeftPieces(s, r, t, i, d);
    Rebuild(s, r, {d});
    KeptAll(s, r, d, {d});
  }

  // ---------------------------------------------------------------------------------------------
  // Every event

  lemma TypedGood(s: State)
    requires Good(s)
    ensures Typed(s)
  {
  }

  lemma EnabledCow(s: State, e: Event)
    requires Good(s) && Enabled(s, e) && Sound(s, e) && (e.CowCopy? || e.CowHandoff? || e.CowRemote?)
    ensures Good(Apply(s, e)) && Preserved(s, Apply(s, e))
  {
    TypedGood(s);
    match e
    case CowCopy(t, i, n) => hide Good, Preserved, Meaning, AfterCopy; AfterCopyGood(s, t, i, n);
    case CowHandoff(t, i, n) =>
      CowNames(s, t, i, n);
      GoodSlots(s, s.dirs[t][i]);
      NotCowResident(s, s.dirs[t][i]);
      hide Good, Preserved, Meaning, AfterHandoff;
      AfterHandoffGood(s, t, i, n);
    case CowRemote(t, i, n, c) => hide Good, Preserved, Meaning; AfterRemoteGood(s, t, i, n, c);
  }

  lemma NotCowResident(s: State, d: DS.DescId)
    requires d in s.descs && DescOk(s, d) && s.descs[d].local.Some?
    ensures !DS.IsCow(s.pool, d)
  {
  }

  /** Every event keeps the invariant; every event but a store, copying and handing over included, keeps what every
      block holds. */
  lemma StepGood(s: State, e: Event)
    requires Good(s) && Enabled(s, e) && Sound(s, e)
    ensures Good(Apply(s, e))
    ensures !e.Store? && !e.CloseSlot? ==> Preserved(s, Apply(s, e))
  {
    TypedGood(s);
    match e
    case NewDesc(t, i, n) => NewDescGood(s, t, i, n); hide Good, Preserved;
    case Fork(t) => ForkGood(s, t); hide Good, Preserved;
    case Fetch(d, reuse) => FetchGood(s, d, reuse); hide Good, Preserved;
    case MapRead(t, i) => MapReadGood(s, t, i); hide Good, Preserved;
    case MapWrite(t, i) => MapWriteGood(s, t, i); hide Good, Preserved;
    case Store(t, i, off, v) => StoreGood(s, t, i, off, v); hide Good, Preserved;
    case CowCopy(t, i, n) => EnabledCow(s, e); hide Good, Preserved;
    case CowHandoff(t, i, n) => EnabledCow(s, e); hide Good, Preserved;
    case CowRemote(t, i, n, c) => EnabledCow(s, e); hide Good, Preserved;
    case Evict(d) => EvictGood(s, d); hide Good, Preserved;
    case StartWriteback(d, slot, clear) => StartWritebackGood(s, d, slot, clear); hide Good, Preserved;
    case DropClean(d) => DropGood(s, d, e); hide Good, Preserved;
    case FinishWriteback(d) => DropGood(s, d, e); hide Good, Preserved;
    case Refault(d, reuse) => RefaultGood(s, d, reuse); hide Good, Preserved;
    case BeginClose(t) => BeginCloseGood(s, t); hide Good, Preserved;
    case CloseSlot(t, i) => CloseSlotGood(s, t, i); hide Good, Preserved;
  }

  lemma CloseSlotGood(s: State, t: DirId, i: Idx)
    requires Good(s) && Enabled(s, CloseSlot(t, i))
    ensures var r := Apply(s, CloseSlot(t, i)); Good(r) && MeaningKept(s, r, {s.dirs[t][i]})
    ensures !LastName(s, t, i, s.dirs[t][i]) ==> Preserved(s, Apply(s, CloseSlot(t, i)))
  {
    TypedGood(s);
    if LastName(s, t, i, s.dirs[t][i]) {
      ReleaseGood(s, t, i);
    } else {
      LeaveGood(s, t, i);
      LeftKept(s, Left(s, t, i), s.dirs[t][i]);
    }
    hide Good, Preserved, MeaningKept;
  }

  lemma LeftKept(s: State, r: State, d: DS.DescId)
    requires Preserved(s, r)
    ensures MeaningKept(s, r, {d})
  {
  }
}
