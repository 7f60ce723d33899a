/**
  No descriptor and no donor slot is lost by the fork: every descriptor is named by a directory for as long as it is
  there, every slot is free or holds what a named descriptor reads, a block can always leave the cache, and a directory
  that closes takes along what nobody else names.
 */
module CowForkSpace {
  import DS = DonorSlots
  import opened CowFork
  import opened CowForkSafety
  import opened CowForkRefinement

  // ---------------------------------------------------------------------------------------------
  // Descriptors

  /** Some directory names it. */
  ghost predicate Listed(s: State, d: DS.DescId)
    requires d in s.descs
  {
    exists t: DirId :: Named(s.dirs, t, s.descs[d].idx, d)
  }

  ghost predicate EveryListed(s: State) {
    forall d :: d in s.descs ==> Listed(s, d)
  }

  /** Descriptors stay where they were put. */
  ghost predicate SameIdx(s: State, r: State) {
    forall d :: d in s.descs && d in r.descs ==> r.descs[d].idx == s.descs[d].idx
  }

  lemma SameDirsListed(s: State, r: State)
    requires EveryListed(s) && r.dirs == s.dirs && r.descs.Keys == s.descs.Keys && SameIdx(s, r)
    ensures EveryListed(r)
  {
    forall d | d in r.descs
      ensures Listed(r, d)
    {
      assert Listed(s, d);
      var t: DirId :| Named(s.dirs, t, s.descs[d].idx, d);
      assert Named(r.dirs, t, r.descs[d].idx, d);
    }
  }

  /** Whatever slot `(t, i)` named before has another name. */
  ghost predicate Spare(s: State, t: DirId, i: Idx) {
    forall d: DS.DescId :: Named(s.dirs, t, i, d) ==> exists u: DirId :: u != t && Named(s.dirs, u, i, d)
  }

  lemma SetSlotListed(s: State, r: State, t: DirId, i: Idx, n: DS.DescId)
    requires EveryListed(s) && DirsOk(s) && t < |s.dirs| && Spare(s, t, i) && n !in s.descs
    requires r.dirs == SetSlot(s.dirs, t, i, n) && r.descs.Keys == s.descs.Keys + {n} && SameIdx(s, r) && r.descs[n].idx == i
    ensures EveryListed(r)
  {
    hide SetSlot;
    forall d | d in r.descs
      ensures Listed(r, d)
    {
      if d == n {
        assert Named(r.dirs, t, i, n);
      } else {
        assert Listed(s, d);
        var u: DirId :| Named(s.dirs, u, s.descs[d].idx, d);
        if u == t && s.descs[d].idx == i {
          var w: DirId :| w != t && Named(s.dirs, w, i, d);
          assert Named(r.dirs, w, r.descs[d].idx, d);
        } else {
          assert Named(r.dirs, u, r.descs[d].idx, d);
        }
      }
    }
  }

  lemma SharedIsSpare(s: State, t: DirId, i: Idx)
    requires Good(s) && CowFault(s, t, i)
    ensures Spare(s, t, i)
  {
    var d := s.dirs[t][i];
    GoodName(s, t, i);
    var a: DirId, b: DirId :| a < b && Named(s.dirs, a, i, d) && Named(s.dirs, b, i, d);
    var u := if a == t then b else a;
    assert u != t && Named(s.dirs, u, i, d);
  }

  /** What any copy-on-write does to the names. */
  ghost predicate Replaced(s: State, r: State, t: DirId, i: Idx, n: DS.DescId) {
    && t < |s.dirs| && n !in s.descs && r.dirs == SetSlot(s.dirs, t, i, n)
    && r.descs.Keys == s.descs.Keys + {n} && SameIdx(s, r) && r.descs[n].idx == i
  }

  lemma CowReplaces(s: State, e: Event)
    requires Typed(s) && Enabled(s, e) && (e.CowCopy? || e.CowHandoff? || e.CowRemote?)
    ensures Replaced(s, Apply(s, e), e.t, e.i, e.n) && CowFault(s, e.t, e.i)
  {
    hide SetSlot, NamedTwice, DS.AddDesc, DS.Share, RecordsKnown;
    var r := Apply(s, e);
    assert r.descs.Keys == s.descs.Keys + {e.n};
    assert r.dirs == SetSlot(s.dirs, e.t, e.i, e.n);
    assert SameIdx(s, r);
  }

  lemma CowListed(s: State, e: Event)
    requires Good(s) && EveryListed(s) && Enabled(s, e) && (e.CowCopy? || e.CowHandoff? || e.CowRemote?)
    ensures Typed(s) && EveryListed(Apply(s, e))
  {
    hide Good, SetSlot, Apply, Enabled, EveryListed, CowFault, DirsOk, Spare;
    TypedGood(s);
    GoodDirs(s);
    CowReplaces(s, e);
    SharedIsSpare(s, e.t, e.i);
    SetSlotListed(s, Apply(s, e), e.t, e.i, e.n);
  }

  lemma NewListed(s: State, t: DirId, i: Idx, n: DS.DescId)
    requires Good(s) && EveryListed(s) && Enabled(s, NewDesc(t, i, n))
    ensures Typed(s) && EveryListed(Apply(s, NewDesc(t, i, n)))
  {
    TypedGood(s);
    var r := Apply(s, NewDesc(t, i, n));
    assert DirsOk(s) && Spare(s, t, i);
    hide Good, SetSlot, EveryListed, Spare, DirsOk;
    SetSlotListed(s, r, t, i, n);
  }

  lemma ForkListed(s: State, t: DirId)
    requires Good(s) && EveryListed(s) && Enabled(s, Fork(t))
    ensures Typed(s) && EveryListed(Apply(s, Fork(t)))
  {
    TypedGood(s);
    var r := Apply(s, Fork(t));
    hide Good, EveryListed;
    forall d | d in r.descs
      ensures Listed(r, d)
    {
      assert EveryListed(s) ==> Listed(s, d) by { ListedIn(s, d); }
      var u: DirId :| Named(s.dirs, u, s.descs[d].idx, d);
      assert Named(r.dirs, u, r.descs[d].idx, d);
    }
    AllListed(r);
  }

  lemma ListedIn(s: State, d: DS.DescId)
    requires d in s.descs
    ensures EveryListed(s) ==> Listed(s, d)
  {
  }

  lemma AllListed(s: State)
    requires forall d :: d in s.descs ==> Listed(s, d)
    ensures EveryListed(s)
  {
  }

  lemma CloseListed(s: State, t: DirId, i: Idx)
    requires Good(s) && EveryListed(s) && Enabled(s, CloseSlot(t, i))
    ensures Typed(s) && EveryListed(Apply(s, CloseSlot(t, i)))
  {
    TypedGood(s);
    GoodName(s, t, i);
    var r, d := Apply(s, CloseSlot(t, i)), s.dirs[t][i];
    assert r.dirs == ClearSlot(s.dirs, t, i) && SameIdx(s, r);
    assert r.descs.Keys == if LastName(s, t, i, d) then s.descs.Keys - {d} else s.descs.Keys;
    hide Good, Apply, ClearSlot, Enabled;
    forall e | e in r.descs
      ensures Listed(r, e)
    {
      assert Listed(s, e);
      var u: DirId :| Named(s.dirs, u, s.descs[e].idx, e);
      if e == d {
        var w: DirId :| w != t && Named(s.dirs, w, i, d);
        assert Named(r.dirs, w, r.descs[e].idx, e);
      } else {
        assert Named(r.dirs, u, r.descs[e].idx, e);
      }
    }
  }

  lemma StepListed(s: State, e: Event)
    requires Good(s) && EveryListed(s) && Enabled(s, e)
    ensures Typed(s) && EveryListed(Apply(s, e))
  {
    hide Good, EveryListed, Apply, Enabled;
    TypedGood(s);
    match e
    case NewDesc(t, i, n) => NewListed(s, t, i, n);
    case Fork(t) => ForkListed(s, t);
    case CowCopy(t, i, n) => CowListed(s, e);
    case CowHandoff(t, i, n) => CowListed(s, e);
    case CowRemote(t, i, n, c) => CowListed(s, e);
    case CloseSlot(t, i) => CloseListed(s, t, i);
    case _ => QuietListed(s, e);
  }

  lemma QuietNames(s: State, e: Event)
    requires Typed(s) && Enabled(s, e)
    requires !e.NewDesc? && !e.Fork? && !e.CowCopy? && !e.CowHandoff? && !e.CowRemote? && !e.CloseSlot?
    ensures var r := Apply(s, e); r.dirs == s.dirs && r.descs.Keys == s.descs.Keys && SameIdx(s, r)
  {
    hide Typed, Shared, Meaning, DS.SlotOf, DS.FetchDone, DS.FreeSlot, DS.Alloc, CowFault, OpenAt;
  }

  lemma QuietListed(s: State, e: Event)
    requires Good(s) && EveryListed(s) && Enabled(s, e)
    requires !e.NewDesc? && !e.Fork? && !e.CowCopy? && !e.CowHandoff? && !e.CowRemote? && !e.CloseSlot?
    ensures Typed(s) && EveryListed(Apply(s, e))
  {
    hide Good, EveryListed, Apply, Enabled;
    TypedGood(s);
    QuietNames(s, e);
    SameDirsListed(s, Apply(s, e));
  }

  // ---------------------------------------------------------------------------------------------
  // Donor slots

  lemma FetchAccounts(s: State, d: DS.DescId, reuse: bool, x: DS.Slot)
    requires Good(s) && Enabled(s, Fetch(d, reuse)) && DS.Accounted(s.pool, x)
    ensures Typed(s) && DS.Accounted(Apply(s, Fetch(d, reuse)).pool, x)
  {
    GoodDesc(s, d);
    GoodDirs(s);
    DS.PutInv(s.pool, d);
    hide Good, DS.Inv, DS.Accounted, DS.Put, DS.FreeSlot, Meaning, DescOk;
    DS.PutAccounts(s.pool, d, x);
    DS.FreeAccounts(DS.Put(s.pool, d), d, x);
    DS.FreeAccounts(s.pool, d, x);
  }

  lemma AddingAccounts(s: State, n: DS.DescId, x: DS.Slot)
    requires Good(s) && FreshDesc(s, n) && DS.Accounted(s.pool, x)
    ensures DS.Accounted(DS.AddDesc(s.pool, n), x)
  {
    hide Good, DS.Accounted, DS.AddDesc;
    DS.AddAccounts(s.pool, n, x);
  }

  lemma SharingAccounts(s: State, t: DirId, i: Idx, n: DS.DescId, c: DS.CrpId, x: DS.Slot)
    requires Good(s) && Enabled(s, CowRemote(t, i, n, c)) && DS.Accounted(s.pool, x)
    ensures Typed(s) && DS.Accounted(Apply(s, CowRemote(t, i, n, c)).pool, x)
  {
    var d := s.dirs[t][i];
    GoodDirs(s);
    GoodName(s, t, i);
    assert d in s.pool.remote && n !in s.pool.remote && c !in s.pool.crps && d != n;
    AddingAccounts(s, n, x);
    hide Good, DS.Accounted, DS.Inv, DS.Share, CowFault, DescOk, SetSlot, DirsOk;
    DS.AddDescInv(s.pool, n);
    DS.ShareAccounts(DS.AddDesc(s.pool, n), d, n, c, x);
  }

  lemma ClosingAccounts(s: State, t: DirId, i: Idx, x: DS.Slot)
    requires Good(s) && Enabled(s, CloseSlot(t, i)) && DS.Accounted(s.pool, x)
    ensures Typed(s) && DS.Accounted(Apply(s, CloseSlot(t, i)).pool, x)
  {
    GoodDirs(s);
    GoodName(s, t, i);
    hide Good, DS.Accounted, DS.Inv, DS.Release, DescOk, ClearSlot, DirsOk, Named, Unlisted;
    DS.ReleaseAccounts(s.pool, s.dirs[t][i], x);
  }

  lemma StepAccounts(s: State, e: Event, x: DS.Slot)
    requires Good(s) && Enabled(s, e) && DS.Accounted(s.pool, x)
    ensures Typed(s) && DS.Accounted(Apply(s, e).pool, x)
  {
    GoodDirs(s);
    match e
    case Fetch(d, reuse) => FetchAccounts(s, d, reuse, x); hide Good, DS.Accounted;
    case NewDesc(t, i, n) => hide Good, DS.Accounted, DS.AddDesc, SetSlot; AddingAccounts(s, n, x);
    case CowCopy(t, i, n) => hide Good, DS.Accounted, DS.AddDesc, SetSlot; AddingAccounts(s, n, x);
    case CowHandoff(t, i, n) => hide Good, DS.Accounted, DS.AddDesc, SetSlot; AddingAccounts(s, n, x);
    case CowRemote(t, i, n, c) => SharingAccounts(s, t, i, n, c, x); hide Good, DS.Accounted;
    case StartWriteback(d, slot, _) =>
      GoodDesc(s, d);
      hide Good, DS.Accounted, DS.Inv, DS.Alloc, DS.SlotOf, DescOk;
      DS.AllocAccounts(s.pool, d, slot, x);
    case Refault(d, _) =>
      GoodDesc(s, d);
      hide Good, DS.Accounted, DS.Inv, DS.FreeSlot, DescOk;
      DS.FreeAccounts(s.pool, d, x);
    case CloseSlot(t, i) => ClosingAccounts(s, t, i, x); hide Good, DS.Accounted;
    case _ => hide Good, DS.Accounted, Meaning;
  }

  // ---------------------------------------------------------------------------------------------
  // Over runs

  lemma {:induction false} RunKeeps(s: State, es: seq<Event>, x: DS.Slot)
    requires Good(s) && EveryListed(s) && DS.Accounted(s.pool, x) && Schedulable(s, es) && SoundRun(s, es)
    ensures Good(After(s, es)) && EveryListed(After(s, es)) && DS.Accounted(After(s, es).pool, x)
    decreases |es|
  {
    if es != [] {
      hide Good, EveryListed, Enabled, Apply, Sound, Typed, DS.Accounted;
      TypedGood(s);
      StepGood(s, es[0]);
      StepListed(s, es[0]);
      StepAccounts(s, es[0], x);
      RunKeeps(Take(s, es[0]), es[1..], x);
    }
  }

  /** Somebody reads the slot: a descriptor that a directory names. */
  ghost predicate InUse(s: State, x: DS.Slot) {
    exists d :: d in s.descs && Listed(s, d) && DS.SlotOf(s.pool, d) == DS.Some(x)
  }

  lemma AccountedIsUsed(s: State, x: DS.Slot)
    requires Good(s) && EveryListed(s) && DS.Accounted(s.pool, x) && x !in s.pool.avail
    ensures InUse(s, x)
  {
    GoodDirs(s);
    if d :| d in s.pool.remote && s.pool.remote[d] == DS.Own(x) {
      assert Listed(s, d);
    } else {
      var c :| c in s.pool.crps && s.pool.crps[c].slot == DS.Some(x);
      assert |DS.Sharers(s.pool, c)| > 0;
      var d :| d in DS.Sharers(s.pool, c);
      assert Listed(s, d);
    }
  }

  lemma FreeIsUnused(s: State, d: DS.DescId, x: DS.Slot)
    requires Good(s) && d in s.descs && x in s.pool.avail
    ensures DS.SlotOf(s.pool, d) != DS.Some(x)
  {
    GoodDirs(s);
    GoodDesc(s, d);
    hide Good, DescOk;
  }

  /** Over every run nothing is lost: every descriptor is named by some directory, and every donor slot there was at the
      beginning is free or read by a descriptor that is. */
  lemma NothingIsLost(s: State, es: seq<Event>, x: DS.Slot)
    requires Initial(s) && x in s.pool.avail && Schedulable(s, es) && SoundRun(s, es)
    ensures EveryListed(After(s, es)) && (x in After(s, es).pool.avail <==> !InUse(After(s, es), x))
  {
    InitialGood(s);
    RunKeeps(s, es, x);
    var r := After(s, es);
    if x !in r.pool.avail {
      AccountedIsUsed(r, x);
    } else {
      forall d | d in r.descs
        ensures DS.SlotOf(r.pool, d) != DS.Some(x)
      {
        FreeIsUnused(r, d, x);
      }
    }
  }

  lemma ListedSomewhere(s: State)
    requires EveryListed(s)
    ensures s.descs != map[] ==> exists t :: 0 <= t < |s.dirs| && s.dirs[t] != map[]
  {
    if s.descs != map[] {
      var d :| d in s.descs;
      assert Listed(s, d);
      var t: DirId :| Named(s.dirs, t, s.descs[d].idx, d);
      assert s.dirs[t] != map[];
    }
  }

  /** So once every directory is empty all descriptors are gone, and all donor slots are free again. */
  lemma AllComesBack(s: State, es: seq<Event>, x: DS.Slot)
    requires Initial(s) && x in s.pool.avail && Schedulable(s, es) && SoundRun(s, es)
    requires forall t :: 0 <= t < |After(s, es).dirs| ==> After(s, es).dirs[t] == map[]
    ensures After(s, es).descs == map[] && x in After(s, es).pool.avail
  {
    NothingIsLost(s, es, x);
    ListedSomewhere(After(s, es));
  }

  // ---------------------------------------------------------------------------------------------
  // Closing

  lemma CloseTakesSlot(s: State, t: DirId, i: Idx)
    requires Good(s) && t < |s.dirs| && t in s.closed && i in s.dirs[t]
    ensures Enabled(s, CloseSlot(t, i)) && Sound(s, CloseSlot(t, i))
    ensures var r := Apply(s, CloseSlot(t, i)); r.closed == s.closed && r.dirs == s.dirs[t := s.dirs[t] - {i}]
  {
    GoodName(s, t, i);
    hide Good;
  }

  /** Slot by slot a closing directory becomes empty; the other directories name what they named. */
  lemma {:induction false} CloseEmpties(s: State, t: DirId) returns (es: seq<Event>)
    requires Good(s) && t < |s.dirs| && t in s.closed
    ensures |es| == |s.dirs[t]| && Schedulable(s, es) && SoundRun(s, es)
    ensures After(s, es).dirs == s.dirs[t := map[]]
    decreases |s.dirs[t]|
  {
    hide Good, Enabled, Apply, Sound, Typed;
    if s.dirs[t] == map[] {
      es := [];
    } else {
      var i :| i in s.dirs[t];
      var e := CloseSlot(t, i);
      CloseTakesSlot(s, t, i);
      TypedGood(s);
      StepGood(s, e);
      var r := Apply(s, e);
      assert |s.dirs[t] - {i}| == |s.dirs[t]| - 1 by { OneLess(s.dirs[t], i); }
      var rest := CloseEmpties(r, t);
      es := [e] + rest;
      assert es[1..] == rest;
    }
  }

  lemma OneLess(m: map<Idx, DS.DescId>, i: Idx)
    requires i in m
    ensures |m - {i}| == |m| - 1
  {
    assert (m - {i}).Keys == m.Keys - {i};
    assert |m.Keys| == |m| && |(m - {i}).Keys| == |m - {i}|;
  }

  // ---------------------------------------------------------------------------------------------
  // Leaving the cache

  /** A step on the way out: nobody notices. */
  ghost predicate Out(s: State, r: State, d: DS.DescId) {
    && d in r.descs && d in s.descs && r.dirs == s.dirs && r.descs.Keys == s.descs.Keys && r.closed == s.closed
    && forall e :: e in s.descs ==> Meaning(r, e) == Meaning(s, e)
  }

  lemma EvictLeaves(s: State, d: DS.DescId)
    requires Good(s) && InPhase(s, d, Active)
    ensures Enabled(s, Evict(d)) && Sound(s, Evict(d)) && Good(Apply(s, Evict(d)))
    ensures var r := Apply(s, Evict(d)); Out(s, r, d) && InPhase(r, d, Inactive) && r.pool == s.pool
  {
    StepGood(s, Evict(d));
    hide Good;
  }

  lemma WriteLeaves(s: State, d: DS.DescId, x: DS.Slot)
    requires Good(s) && InPhase(s, d, Inactive) && (DS.IsFree(s.pool, d) ==> x in s.pool.avail)
    ensures var e := StartWriteback(d, x, true); Enabled(s, e) && Sound(s, e) && Good(Apply(s, e))
    ensures var r := Apply(s, StartWriteback(d, x, true)); Out(s, r, d) && InPhase(r, d, Writeback)
  {
    StepGood(s, StartWriteback(d, x, true));
    hide Good, DS.Alloc, DS.SlotOf;
  }

  lemma FinishLeaves(s: State, d: DS.DescId)
    requires Good(s) && InPhase(s, d, Writeback)
    ensures var e := FinishWriteback(d); Enabled(s, e) && Sound(s, e) && Good(Apply(s, e))
    ensures var r := Apply(s, FinishWriteback(d)); Out(s, r, d) && r.descs[d].local.None?
  {
    StepGood(s, FinishWriteback(d));
    hide Good;
  }

  ghost predicate Leaves(s: State, es: seq<Event>, d: DS.DescId) {
    && Schedulable(s, es) && SoundRun(s, es) && Good(After(s, es)) && Out(s, After(s, es), d)
    && After(s, es).descs[d].local.None?
  }

  lemma OutAndOut(s: State, r: State, q: State, d: DS.DescId)
    requires Out(s, r, d) && Out(r, q, d)
    ensures Out(s, q, d)
  {
    hide Meaning;
  }

  lemma LeavesNext(s: State, e: Event, es: seq<Event>, d: DS.DescId)
    requires Good(s) && Enabled(s, e) && Sound(s, e) && Out(s, Apply(s, e), d) && Leaves(Apply(s, e), es, d)
    ensures Leaves(s, [e] + es, d)
  {
    hide Good, Enabled, Apply, Sound, Typed, Out;
    TypedGood(s);
    assert ([e] + es)[1..] == es;
    OutAndOut(s, Apply(s, e), After(Apply(s, e), es), d);
  }

  lemma GoneLeaves(s: State, d: DS.DescId)
    requires Good(s) && d in s.descs && s.descs[d].local.None?
    ensures Leaves(s, [], d)
  {
    hide Good, Meaning;
  }

  lemma WritingLeaves(s: State, d: DS.DescId) returns (es: seq<Event>)
    requires Good(s) && InPhase(s, d, Writeback)
    ensures |es| == 1 && Leaves(s, es, d)
  {
    hide Good, Enabled, Apply, Sound, Typed, Meaning, Leaves, InPhase;
    TypedGood(s);
    FinishLeaves(s, d);
    GoneLeaves(Apply(s, FinishWriteback(d)), d);
    LeavesNext(s, FinishWriteback(d), [], d);
    es := [FinishWriteback(d)] + [];
  }

  lemma InactiveLeaves(s: State, d: DS.DescId, x: DS.Slot) returns (es: seq<Event>)
    requires Good(s) && InPhase(s, d, Inactive) && (DS.IsFree(s.pool, d) ==> x in s.pool.avail)
    ensures |es| == 2 && Leaves(s, es, d)
  {
    hide Good, Enabled, Apply, Sound, Typed, Meaning, Leaves, InPhase;
    TypedGood(s);
    var e := StartWriteback(d, x, true);
    WriteLeaves(s, d, x);
    var rest := WritingLeaves(Apply(s, e), d);
    LeavesNext(s, e, rest, d);
    es := [e] + rest;
  }

  lemma ActiveLeaves(s: State, d: DS.DescId, x: DS.Slot) returns (es: seq<Event>)
    requires Good(s) && InPhase(s, d, Active) && (DS.IsFree(s.pool, d) ==> x in s.pool.avail)
    ensures |es| == 3 && Leaves(s, es, d)
  {
    hide Good, Enabled, Apply, Sound, Typed, Meaning, Leaves, InPhase;
    TypedGood(s);
    EvictLeaves(s, d);
    var rest := InactiveLeaves(Apply(s, Evict(d)), d, x);
    LeavesNext(s, Evict(d), rest, d);
    es := [Evict(d)] + rest;
  }

  /** Every block can leave the cache, as long as a donor has room for it: at most three events later its page is gone,
      and every block holds what it held. */
  lemma LeavesCache(s: State, d: DS.DescId, x: DS.Slot) returns (es: seq<Event>)
    requires Good(s) && d in s.descs && (DS.IsFree(s.pool, d) ==> x in s.pool.avail)
    ensures |es| <= 3 && Leaves(s, es, d)
  {
    hide Good, Leaves;
    if s.descs[d].local.None? {
      GoneLeaves(s, d);
      es := [];
    } else if InPhase(s, d, Active) {
      es := ActiveLeaves(s, d, x);
    } else if InPhase(s, d, Inactive) {
      es := InactiveLeaves(s, d, x);
    } else {
      es := WritingLeaves(s, d);
    }
  }
}
