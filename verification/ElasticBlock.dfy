/**
  Elastic block management in place: stretching a faulting block with its buddies level by level, and
  splitting a block once or all the way down.
 */
module ElasticBlock {
  import opened PowerOfTwo
  import opened ElasticGeometry
  import opened ElasticCounts
  import opened ElasticFlags

  datatype Option<T> = None | Some(value: T)

  function Min(a: nat, b: nat): nat {
    if a > b then b else a
  }

  /** The buddy to merge `c` with into the block headed by `s`. */
  function BuddyIndex(d: Group, s: nat, c: nat): nat
    requires s < |d|
  {
    if s == c then s + Pow2(d[s].order) else s
  }

  /** The checks on geometry and ceilings, made before anything of the buddy is read. */
  predicate BelowCeilings(d: Group, s: nat, c: nat)
    requires s < |d| && c < |d|
  {
    var top := Min(d[s].ceiling, d[c].ceiling);
    d[s].order < top && d[c].order < top
  }

  /** The checks on the buddy, repeated under its lock. */
  predicate Matches(d: Group, b: nat, c: nat, readOnly: bool)
    requires b < |d| && c < |d|
  {
    && d[b].state == Active && d[b].order == d[c].order
    && readOnly != (Dirty in d[b].flags)
    && Hpt in d[b].flags
    && (WProtect in d[c].flags <==> WProtect in d[b].flags)
    && d[b].flags !! {Stretched, Prefetched, Pinned}
  }

  /** What may be merged into a faulting block: mapped and active, dirty exactly if the fault writes, and neither
      pinned nor prefetched nor stretched itself. */
  predicate Joinable(d: Group, b: nat, readOnly: bool) {
    && b < |d| && d[b].state == Active && (Dirty in d[b].flags <==> !readOnly) && Hpt in d[b].flags
    && Stretched !in d[b].flags && Prefetched !in d[b].flags && Pinned !in d[b].flags
  }

  ghost predicate Mergeable(d: Group, s: nat, c: nat, readOnly: bool)
    requires s < |d| && c < |d|
  {
    && BelowCeilings(d, s, c)
    && var b := BuddyIndex(d, s, c);
       b < |d| && d[b].order < d[b].ceiling && Matches(d, b, c, readOnly)
  }

  /** The block of `h` can be merged with its buddy now. */
  ghost predicate CanMerge(d: Group, locked: set<nat>, h: nat, readOnly: bool)
    requires h < |d|
  {
    var s := BlockHead(h, d[h].order + 1);
    s < |d| && Mergeable(d, s, h, readOnly) && BuddyIndex(d, s, h) !in locked
  }

  lemma MergeableIsJoinable(d: Group, s: nat, c: nat, readOnly: bool)
    requires s < |d| && c < |d| && Mergeable(d, s, c, readOnly)
    ensures var b := BuddyIndex(d, s, c);
            b < |d| && d[b].order == d[c].order && d[b].state == Active && Joinable(d, b, readOnly)
            && (WProtect in d[c].flags <==> WProtect in d[b].flags)
  {
    hide BlockHead, Pow2;
  }

  /** What the checks on the two heads and the ceilings make sure of for the whole merged block. */
  lemma MergeableAreBuddies(d: Group, c: nat, readOnly: bool)
    requires Partition(d) && c < |d| && Head(d, c) == c && d[c].order < d[c].ceiling
    ensures var s := BlockHead(c, d[c].order + 1);
            && s < |d|
            && (BelowCeilings(d, s, c) ==> BuddyIndex(d, s, c) < |d|)
            && (Mergeable(d, s, c, readOnly) ==>
                  && Buddies(d, s, BuddyIndex(d, s, c)) && d[BuddyIndex(d, s, c)].state == Active
                  && (c == s || (c == s + Pow2(d[s].order) && BuddyIndex(d, s, c) == s))
                  && Head(d, BuddyIndex(d, s, c)) == BuddyIndex(d, s, c)
                  && (WProtect in d[s].flags <==> WProtect in d[s + Pow2(d[s].order)].flags)
                  && Joinable(d, BuddyIndex(d, s, c), readOnly))
  {
    hide OrdersUniform, CeilingsTiled, Matches, Joinable;
    var k := d[c].order;
    var s := BlockHead(c, k + 1);
    HeadOneUp(c, k);
    HeadOfHead(c, k + 1, k + 1);
    BuddyHalves(s, k);
    BlockNesting(c, c, k + 1, d[c].ceiling);
    if s < |d| && Mergeable(d, s, c, readOnly) {
      MergeableIsJoinable(d, s, c, readOnly);
    }
  }

  /** Flags other than dirtiness and the list marks have no part in the geometry. */
  lemma GeometryFrame(d: Group, e: Group)
    requires Geometry(d) && |e| == |d|
    requires forall i :: 0 <= i < |d| ==>
      && e[i].order == d[i].order && e[i].ceiling == d[i].ceiling && e[i].state == d[i].state
      && e[i].hasPage == d[i].hasPage && (Dirty in e[i].flags <==> Dirty in d[i].flags)
    ensures Geometry(e)
  {
    PartitionFrame(d, e);
    forall m | 0 <= m < |e|
      ensures Head(e, m) == Head(d, m)
    {
    }
  }

  lemma TalliesFrame(c: seq<int>, d: Group, e: Group)
    requires Tallies(c, d) && |e| == |d|
    requires forall i :: 0 <= i < |d| ==> e[i].order == d[i].order && e[i].ceiling == d[i].ceiling
    ensures Tallies(c, e)
  {
    forall o | 0 <= o < |c|
      ensures c[o] == HeadsIn(e, o, 0, |e|)
    {
      HeadsSame(d, e, o, 0, |d|);
    }
  }

  lemma StretchTallies(c: seq<int>, d: Group, s: nat, p: nat)
    requires Tallies(c, d) && Partition(d) && Buddies(d, s, p) && d[s].order + 1 < |c|
    ensures Tallies(Add(Add(c, d[s].order, -2), d[s].order + 1, 1), Stretch(d, s, p))
  {
    hide InBounds, OrdersUniform, CeilingsTiled, HeadsOnly, UsedResident, CleanMembers;
    StretchOrders(d, s, p);
    forall o | 0 <= o < |c|
      ensures Add(Add(c, d[s].order, -2), d[s].order + 1, 1)[o] == HeadsIn(Stretch(d, s, p), o, 0, |d|)
    {
      StretchCounts(d, Stretch(d, s, p), s, p, o);
    }
  }

  /** What the list counters count a block as. */
  function Pages(d: Group, h: nat, subblockSize: nat): nat
    requires h < |d|
  {
    Size(d, h) * subblockSize
  }

  lemma DoublePages(d: Group, h: nat, e: Group, s: nat, size: nat)
    requires h < |d| && s < |e| && e[s].order == d[h].order + 1
    ensures Pages(e, s, size) == Pages(d, h, size) + Pages(d, h, size)
  {
    assert Size(e, s) == Size(d, h) + Size(d, h);
    assert (Size(d, h) + Size(d, h)) * size == Size(d, h) * size + Size(d, h) * size;
  }

  /** No order fell, no subblock left a dirty block, and write protection is where it was. */
  ghost predicate GrownFrom(d: Group, e: Group) {
    && |e| == |d|
    && forall m :: 0 <= m < |d| ==>
         && e[m].order >= d[m].order
         && (Head(d, m) < |d| ==> Head(e, m) < |e|)
         && (Head(d, m) < |d| && UnderDirty(d, m) ==> UnderDirty(e, m))
         && (Head(d, m) < |d| ==> (Under(e, m, WProtect) <==> Under(d, m, WProtect)))
  }

  lemma GrowsAt(d: Group, e: Group, r: Group, m: nat)
    requires GrownFrom(d, e) && |r| == |e| && m < |d|
    requires r[m].order >= e[m].order && Head(e, m) < |e| && Head(r, m) < |r|
    requires (UnderDirty(e, m) ==> UnderDirty(r, m)) && (Under(r, m, WProtect) <==> Under(e, m, WProtect))
    ensures r[m].order >= d[m].order && (Head(d, m) < |d| && UnderDirty(d, m) ==> UnderDirty(r, m))
    ensures Head(d, m) < |d| ==> (Under(r, m, WProtect) <==> Under(d, m, WProtect))
  {
    hide BlockHead;
    assert e[m].order >= d[m].order;
  }

  lemma StretchOrder(e: Group, s: nat, p: nat, m: nat)
    requires Partition(e) && Buddies(e, s, p) && m < |e|
    ensures Stretch(e, s, p)[m].order >= e[m].order
  {
    StretchOrders(e, s, p);
    if s <= m < s + Pow2(e[s].order + 1) {
      HalfHead(e, s, p, m);
    }
  }

  lemma StretchGrowsAt(d: Group, e: Group, s: nat, p: nat, m: nat)
    requires GrownFrom(d, e) && Geometry(e) && Buddies(e, s, p) && m < |d|
    requires WProtect in e[s].flags <==> WProtect in e[s + Pow2(e[s].order)].flags
    ensures var r := Stretch(e, s, p);
            && r[m].order >= d[m].order && Head(r, m) < |r|
            && (Head(d, m) < |d| && UnderDirty(d, m) ==> UnderDirty(r, m))
            && (Head(d, m) < |d| ==> (Under(r, m, WProtect) <==> Under(d, m, WProtect)))
  {
    var r := Stretch(e, s, p);
    hide Partition, Buddies, GrownFrom, Stretch, Under, UnderDirty, BlockHead, HeadsOnly, UsedResident, CleanMembers;
    StretchOrder(e, s, p, m);
    StretchUnder(e, s, p, m, WProtect);
    StretchUnder(e, s, p, s, WProtect);
    StretchKeepsDirty(e, s, p, m);
    hide Geometry, Pow2;
    GrowsAt(d, e, r, m);
  }

  lemma StretchGrows(d: Group, e: Group, s: nat, p: nat)
    requires GrownFrom(d, e) && Geometry(e) && Buddies(e, s, p)
    requires WProtect in e[s].flags <==> WProtect in e[s + Pow2(e[s].order)].flags
    ensures GrownFrom(d, Stretch(e, s, p))
  {
    var r := Stretch(e, s, p);
    hide Geometry, Buddies, Stretch, Under, UnderDirty, BlockHead, Pow2;
    forall m | 0 <= m < |d|
      ensures r[m].order >= d[m].order && Head(r, m) < |r|
      ensures Head(d, m) < |d| && UnderDirty(d, m) ==> UnderDirty(r, m)
      ensures Head(d, m) < |d| ==> (Under(r, m, WProtect) <==> Under(d, m, WProtect))
    {
      StretchGrowsAt(d, e, s, p, m);
    }
  }

  /** The block of `h` in `e` is the faulting block `c` of `d` and whole blocks that may be merged into it; nothing else
      changed at all. */
  ghost predicate JoinedFrom(d: Group, e: Group, c: nat, h: nat, readOnly: bool) {
    && |e| == |d|
    && forall m: nat :: m < |d| ==>
         && (Head(e, m) != h ==> e[m] == d[m])
         && (Head(e, m) == h ==> Head(d, m) == c || Joinable(d, Head(d, m), readOnly))
  }

  lemma JoinedAt(d: Group, e: Group, c: nat, h: nat, readOnly: bool, m: nat)
    requires JoinedFrom(d, e, c, h, readOnly) && m < |d|
    ensures |e| == |d| && (Head(e, m) != h ==> e[m] == d[m])
    ensures Head(e, m) == h ==> Head(d, m) == c || Joinable(d, Head(d, m), readOnly)
  {
    hide BlockHead;
  }

  lemma JoinMoreAt(d: Group, e: Group, c: nat, h: nat, s: nat, readOnly: bool, m: nat)
    requires JoinedFrom(d, e, c, h, readOnly) && Partition(e) && h < |e| && Head(e, h) == h && s == BlockHead(h, e[h].order + 1) && s < |e|
    requires var b := BuddyIndex(e, s, h);
             Buddies(e, s, b) && Joinable(e, b, readOnly) && Head(e, b) == b && (h == s || h == s + Pow2(e[s].order))
    requires m < |e|
    ensures var r := Stretch(e, s, BuddyIndex(e, s, h));
            && (Head(r, m) != s ==> r[m] == d[m])
            && (Head(r, m) == s ==> Head(d, m) == c || Joinable(d, Head(d, m), readOnly))
  {
    var b := BuddyIndex(e, s, h);
    hide Partition, JoinedFrom, Joinable, Stretch, BlockHead;
    assert s <= h < s + Pow2(e[s].order + 1);
    JoinedAt(d, e, c, h, readOnly, m);
    JoinedAt(d, e, c, h, readOnly, b);
    if s <= m < s + Pow2(e[s].order + 1) {
      HalfHead(e, s, b, m);
      HeadMerged(e, s, b, m);
      if Head(e, m) != h {
        assert Head(e, m) == b && Head(d, m) == b;
        SameBlockJoins(d, e, b, readOnly);
      }
    } else {
      HeadElsewhere(e, s, b, m);
    }
  }

  lemma SameBlockJoins(d: Group, e: Group, b: nat, readOnly: bool)
    requires |e| == |d| && b < |d| && e[b] == d[b] && Joinable(e, b, readOnly)
    ensures Joinable(d, b, readOnly)
  {
  }

  lemma JoinMore(d: Group, e: Group, c: nat, h: nat, s: nat, readOnly: bool)
    requires JoinedFrom(d, e, c, h, readOnly) && Partition(e) && h < |e| && Head(e, h) == h && s == BlockHead(h, e[h].order + 1) && s < |e|
    requires var b := BuddyIndex(e, s, h);
             Buddies(e, s, b) && Joinable(e, b, readOnly) && Head(e, b) == b && (h == s || h == s + Pow2(e[s].order))
    ensures JoinedFrom(d, Stretch(e, s, BuddyIndex(e, s, h)), c, s, readOnly)
  {
    var r := Stretch(e, s, BuddyIndex(e, s, h));
    hide Partition, Buddies, Joinable, Stretch, BlockHead, BuddyIndex;
    forall m: nat | m < |d|
      ensures Head(r, m) != s ==> r[m] == d[m]
      ensures Head(r, m) == s ==> Head(d, m) == c || Joinable(d, Head(d, m), readOnly)
    {
      JoinMoreAt(d, e, c, h, s, readOnly, m);
    }
  }

  lemma RelistJoined(d: Group, e: Group, f: Group, c: nat, h: nat, readOnly: bool)
    requires JoinedFrom(d, e, c, h, readOnly) && |f| == |e|
    requires forall i: nat :: i < |e| ==> f[i].order == e[i].order && (Head(e, i) != h ==> f[i] == e[i])
    ensures JoinedFrom(d, f, c, h, readOnly)
  {
    hide Joinable, BlockHead;
    forall m: nat | m < |d|
      ensures Head(f, m) == Head(e, m)
    {
    }
  }

  lemma BuddyApart(e: Group, h: nat, s: nat)
    requires Partition(e) && h < |e| && Head(e, h) == h && s < |e| && s <= h && BuddyIndex(e, s, h) < |e|
    ensures Head(e, BuddyIndex(e, s, h)) != h
  {
    HeadInside(e, BuddyIndex(e, s, h));
  }

  lemma RelistMergeable(e: Group, f: Group, h: nat, s: nat, readOnly: bool)
    requires Partition(e) && |f| == |e| && h < |e| && Head(e, h) == h && s < |e| && s <= h
    requires forall i: nat :: i < |e| ==>
      f[i].order == e[i].order && f[i].ceiling == e[i].ceiling && (Head(e, i) != h ==> f[i] == e[i])
    requires f[h].flags - LIST_MARKS == e[h].flags - LIST_MARKS
    ensures Mergeable(f, s, h, readOnly) <==> Mergeable(e, s, h, readOnly)
  {
    assert WProtect in f[h].flags - LIST_MARKS <==> WProtect in e[h].flags - LIST_MARKS;
    if BuddyIndex(e, s, h) < |e| {
      BuddyApart(e, h, s);
    }
    hide Partition, BlockHead;
  }

  /** Putting a block on a list changes nothing about what it can be merged with. */
  lemma RelistCanMerge(e: Group, f: Group, locked: set<nat>, h: nat, readOnly: bool)
    requires Partition(e) && |f| == |e| && h < |e| && Head(e, h) == h
    requires forall i: nat :: i < |e| ==>
      f[i].order == e[i].order && f[i].ceiling == e[i].ceiling && (Head(e, i) != h ==> f[i] == e[i])
    requires f[h].flags - LIST_MARKS == e[h].flags - LIST_MARKS
    ensures CanMerge(f, locked, h, readOnly) <==> CanMerge(e, locked, h, readOnly)
  {
    var s := BlockHead(h, e[h].order + 1);
    HeadBounds(h, e[h].order + 1);
    hide Mergeable, Partition;
    if s < |e| {
      RelistMergeable(e, f, h, s, readOnly);
    }
  }

  lemma UsedAreResident(d: Group, h: nat)
    requires UsedResident(d) && h < |d| && d[h].state != Init
    ensures MembersResident(d, h)
  {
    forall x | 0 <= x < |d| && Head(d, x) == h
      ensures d[x].hasPage
    {
      assert InUse(d, Head(d, x));
    }
  }

  lemma RelistGrown(d: Group, e: Group, f: Group)
    requires GrownFrom(d, e) && |f| == |e|
    requires forall i :: 0 <= i < |e| ==> f[i].order == e[i].order && f[i].flags - LIST_MARKS == e[i].flags - LIST_MARKS
    ensures GrownFrom(d, f)
  {
    forall i | 0 <= i < |e|
      ensures Dirty in f[i].flags <==> Dirty in e[i].flags
      ensures WProtect in f[i].flags <==> WProtect in e[i].flags
    {
      assert Dirty in f[i].flags - LIST_MARKS <==> Dirty in e[i].flags - LIST_MARKS;
      assert WProtect in f[i].flags - LIST_MARKS <==> WProtect in e[i].flags - LIST_MARKS;
    }
    forall m | 0 <= m < |d|
      ensures f[m].order >= d[m].order
      ensures Head(d, m) < |d| ==> Head(f, m) < |f|
      ensures Head(d, m) < |d| && UnderDirty(d, m) ==> UnderDirty(f, m)
      ensures Head(d, m) < |d| ==> (Under(f, m, WProtect) <==> Under(d, m, WProtect))
    {
      assert e[m].order >= d[m].order && Head(f, m) == Head(e, m);
    }
  }

  /** The flags that relisting a grown block changes. */
  const LIST_MARKS := {Proactive, Stretched, PrefetchOnce}

  class BlockSet {
    const subblockSize: nat
    var gpas: Group
    var locked: set<nat>       // block locks held by anybody
    var blockCount: seq<int>   // blocks of each order
    var activeLen: int         // pages counted on the active list
    var proactiveLen: int

    ghost predicate Valid()
      reads this
    {
      Geometry(gpas) && Tallies(blockCount, gpas)
    }

    constructor (size: nat, d: Group, counts: seq<int>, active: int, proactive: int)
      requires Geometry(d) && Tallies(counts, d)
      ensures Valid() && gpas == d && locked == {} && blockCount == counts
      ensures activeLen == active && proactiveLen == proactive && subblockSize == size
    {
      subblockSize, gpas, locked, blockCount := size, d, {}, counts;
      activeLen, proactiveLen := active, proactive;
    }

    method RaiseOrders(s: nat, n: nat)
      requires s + n <= |gpas|
      modifies `gpas
      ensures gpas == Raised(old(gpas), s, n)
    {
      var i := 0;
      while i < n
        invariant 0 <= i <= n && s + n <= |gpas|
        invariant gpas == Raised(old(gpas), s, i)
      {
        gpas := gpas[s + i := gpas[s + i].(order := gpas[s + i].order + 1)];
        i := i + 1;
      }
    }

    /** One level up: every member's order, then the flags of the two halves, then the counters. */
    method StretchLevel(s: nat, p: nat)
      requires Valid() && Buddies(gpas, s, p)
      requires MembersResident(gpas, s) && MembersResident(gpas, s + Pow2(gpas[s].order))
      modifies `gpas, `blockCount
      ensures Valid() && gpas == Stretch(old(gpas), s, p) && MembersResident(gpas, s)
      ensures Weight(blockCount) == Weight(old(blockCount)) && |blockCount| == old(|blockCount|)
    {
      hide InBounds, OrdersUniform, CeilingsTiled, HeadsOnly, UsedResident, CleanMembers;
      ghost var d := gpas;
      StretchGeometry(d, s, p);
      var k := gpas[s].order;
      assert k + 1 < |blockCount|;
      StretchTallies(blockCount, d, s, p);
      StretchWeight(blockCount, k);
      RaiseOrders(s, Pow2(k + 1));
      gpas := FlagsMoved(gpas, s, p);
      assert gpas == Stretch(d, s, p);
      blockCount := Add(Add(blockCount, k, -2), k + 1, 1);
    }

    /** On success the buddy is returned locked. */
    method IsStretchable(s: nat, c: nat, readOnly: bool) returns (buddy: Option<nat>)
      requires s < |gpas| && c < |gpas| && (BelowCeilings(gpas, s, c) ==> BuddyIndex(gpas, s, c) < |gpas|)
      modifies `locked
      ensures buddy.Some? <==> Mergeable(gpas, s, c, readOnly) && BuddyIndex(gpas, s, c) !in old(locked)
      ensures buddy.Some? ==> buddy.value == BuddyIndex(gpas, s, c) && locked == old(locked) + {buddy.value}
      ensures buddy.None? ==> locked == old(locked)
    {
      var top := Min(gpas[s].ceiling, gpas[c].ceiling);
      if gpas[s].order >= top || gpas[c].order >= top {
        return None;
      }
      var b := if s == c then s + Pow2(gpas[s].order) else s;
      if gpas[b].order >= gpas[b].ceiling {
        return None;
      }
      if Prefetched in gpas[b].flags || Pinned in gpas[b].flags {
        return None;
      }
      if gpas[b].state != Active || gpas[c].order != gpas[b].order || b in locked {
        return None;
      }
      locked := locked + {b};
      if !Matches(gpas, b, c, readOnly) {
        locked := locked - {b};
        return None;
      }
      return Some(b);
    }

    /** Only the head of a block is listed, so the members leave their lists. */
    method DelistMembers(h: nat)
      requires h < |gpas| && h + Size(gpas, h) <= |gpas|
      modifies `gpas
      ensures |gpas| == old(|gpas|)
      ensures forall i :: 0 <= i < |gpas| ==>
        gpas[i] == if h < i < h + Size(old(gpas), h) && old(gpas)[i].listed
                   then old(gpas)[i].(listed := false, flags := old(gpas)[i].flags - {Proactive}) else old(gpas)[i]
    {
      var n := Pow2(gpas[h].order);
      var i := 1;
      while i < n
        invariant 1 <= i <= n && h + n <= |gpas| == old(|gpas|)
        invariant forall k :: 0 <= k < |gpas| ==>
          gpas[k] == if h < k < h + i && old(gpas)[k].listed
                     then old(gpas)[k].(listed := false, flags := old(gpas)[k].flags - {Proactive}) else old(gpas)[k]
      {
        if gpas[h + i].listed {
          gpas := gpas[h + i := gpas[h + i].(listed := false, flags := gpas[h + i].flags - {Proactive})];
        }
        i := i + 1;
      }
    }

    /** Puts the grown block back on a list, counted with its full size. */
    method Relist(h: nat)
      requires Valid() && h < |gpas| && Head(gpas, h) == h
      modifies `gpas, `activeLen, `proactiveLen
      ensures Valid() && |gpas| == old(|gpas|)
      ensures activeLen + proactiveLen == old(activeLen) + old(proactiveLen) + Pages(old(gpas), h, subblockSize)
      ensures forall i :: 0 <= i < |gpas| ==>
        && gpas[i].order == old(gpas)[i].order && gpas[i].hasPage == old(gpas)[i].hasPage
        && gpas[i].ceiling == old(gpas)[i].ceiling && gpas[i].state == old(gpas)[i].state
        && gpas[i].flags - LIST_MARKS == old(gpas)[i].flags - LIST_MARKS
        && (i == h || h < i < h + Size(old(gpas), h) ==> (gpas[i].listed <==> i == h))
        && (Head(old(gpas), i) != h ==> gpas[i] == old(gpas)[i])
      ensures Stretched in gpas[h].flags && PrefetchOnce in gpas[h].flags
    {
      hide InBounds, OrdersUniform, CeilingsTiled, HeadsOnly, UsedResident, CleanMembers;
      ghost var d := gpas;
      HeadInside(gpas, h);
      BlockMembers(gpas, h);
      gpas := gpas[h := gpas[h].(flags := gpas[h].flags + {Stretched, PrefetchOnce})];
      var len := Pow2(gpas[h].order) * subblockSize;
      if Proactive in gpas[h].flags {
        proactiveLen := proactiveLen + len;
      } else {
        activeLen := activeLen + len;
      }
      gpas := gpas[h := gpas[h].(listed := true)];
      DelistMembers(h);
      GeometryFrame(d, gpas);
      TalliesFrame(blockCount, d, gpas);
    }

    static lemma BlockMembers(d: Group, h: nat)
      requires Partition(d) && h < |d| && Head(d, h) == h
      ensures forall i: nat :: i < |d| && h <= i < h + Size(d, h) ==> Head(d, i) == h
    {
      forall i: nat | i < |d| && h <= i < h + Size(d, h)
        ensures Head(d, i) == h
      {
        MemberOf(d, h, i);
      }
    }

    /** Merges the locked `c` with its locked buddy `b` into the block headed by `s`. */
    method MergeInto(s: nat, b: nat, c: nat)
      requires Valid() && Buddies(gpas, s, b) && c < |gpas| && b == BuddyIndex(gpas, s, c)
      requires c == s || (c == s + Pow2(gpas[s].order) && b == s)
      requires MembersResident(gpas, s) && MembersResident(gpas, s + Pow2(gpas[s].order))
      modifies this
      ensures Valid() && gpas == Stretch(old(gpas), s, b) && MembersResident(gpas, s)
      ensures locked == old(locked) - {if c < b then b else c}
      ensures activeLen + proactiveLen == old(activeLen) + old(proactiveLen) - Pages(old(gpas), b, subblockSize)
      ensures Weight(blockCount) == Weight(old(blockCount)) && |blockCount| == old(|blockCount|)
    {
      hide InBounds, OrdersUniform, CeilingsTiled, HeadsOnly, UsedResident, CleanMembers;
      var secondary := if c < b then b else c;
      var size := Pow2(gpas[b].order) * subblockSize;
      if Proactive in gpas[b].flags {
        proactiveLen := proactiveLen - size;
      } else {
        activeLen := activeLen - size;
      }
      StretchLevel(s, b);
      locked := locked - {secondary};
    }

    /** One round of the stretching loop. */
    method TryLevel(c: nat, readOnly: bool) returns (s: nat, merged: bool)
      requires Valid() && c < |gpas| && Head(gpas, c) == c && c in locked && MembersResident(gpas, c)
      requires gpas[c].order < gpas[c].ceiling
      modifies this
      ensures Valid() && |gpas| == old(|gpas|) && |blockCount| == old(|blockCount|)
      ensures Weight(blockCount) == Weight(old(blockCount))
      ensures merged <==> CanMerge(old(gpas), old(locked), c, readOnly)
      ensures !merged ==> s == c && gpas == old(gpas) && locked == old(locked)
      ensures !merged ==> activeLen == old(activeLen) && proactiveLen == old(proactiveLen)
      ensures merged ==> s == BlockHead(c, old(gpas)[c].order + 1) && s < |gpas| && Head(gpas, s) == s && MembersResident(gpas, s)
      ensures merged ==> c == s || c == s + Pow2(old(gpas)[s].order)
      ensures merged ==> Buddies(old(gpas), s, BuddyIndex(old(gpas), s, c))
      ensures merged ==> gpas == Stretch(old(gpas), s, BuddyIndex(old(gpas), s, c))
      ensures merged ==> gpas[s].order == old(gpas)[c].order + 1 && gpas[s].state == old(gpas)[c].state
      ensures merged ==> Joinable(old(gpas), BuddyIndex(old(gpas), s, c), readOnly)
      ensures merged ==> Head(old(gpas), BuddyIndex(old(gpas), s, c)) == BuddyIndex(old(gpas), s, c)
      ensures merged ==> (WProtect in old(gpas)[s].flags <==> WProtect in old(gpas)[s + Pow2(old(gpas)[s].order)].flags)
      ensures merged ==> locked == old(locked) - {c} + {s} && (s == c || s !in old(locked))
      ensures merged ==> gpas[s].order <= gpas[s].ceiling < |blockCount|
      ensures merged ==>
        activeLen + proactiveLen == old(activeLen) + old(proactiveLen) - Pages(old(gpas), c, subblockSize)
    {
      hide InBounds, OrdersUniform, CeilingsTiled, HeadsOnly, UsedResident, CleanMembers;
      hide Tallies, Weight, MembersResident, Mergeable, Matches, BelowCeilings, Stretch, Joinable;
      s := BlockHead(c, gpas[c].order + 1);
      MergeableAreBuddies(gpas, c, readOnly);
      var buddy := IsStretchable(s, c, readOnly);
      if buddy == None {
        return c, false;
      }
      UsedAreResident(gpas, buddy.value);
      HeadMerged(gpas, s, buddy.value, s);
      StretchState(gpas, s, buddy.value);
      MergeInto(s, buddy.value, c);
      CeilingTallied(blockCount, gpas, s);
      return s, true;
    }

    static lemma GroupParts(d: Group)
      requires Geometry(d)
      ensures Partition(d)
    {
    }

    /** Relists the block grown from `c` of `d`. */
    method PutBack(h: nat, readOnly: bool, ghost d: Group, ghost c: nat)
      requires Valid() && h < |gpas| && Head(gpas, h) == h && GrownFrom(d, gpas) && JoinedFrom(d, gpas, c, h, readOnly)
      modifies `gpas, `activeLen, `proactiveLen
      ensures Valid() && |gpas| == old(|gpas|) && GrownFrom(d, gpas) && JoinedFrom(d, gpas, c, h, readOnly)
      ensures activeLen + proactiveLen == old(activeLen) + old(proactiveLen) + Pages(old(gpas), h, subblockSize)
      ensures forall i :: 0 <= i < |gpas| ==> gpas[i].order == old(gpas)[i].order
      ensures gpas[h].ceiling == old(gpas)[h].ceiling && gpas[h].state == old(gpas)[h].state
      ensures Stretched in gpas[h].flags && PrefetchOnce in gpas[h].flags
      ensures forall m :: h <= m < h + Size(gpas, h) && m < |gpas| ==> (gpas[m].listed <==> m == h)
      ensures CanMerge(gpas, locked, h, readOnly) <==> CanMerge(old(gpas), locked, h, readOnly)
    {
      hide Geometry, Tallies, GrownFrom, JoinedFrom, CanMerge, Pages;
      ghost var e := gpas;
      GroupParts(e);
      hide Partition;
      Relist(h);
      RelistGrown(d, e, gpas);
      RelistJoined(d, e, gpas, c, h, readOnly);
      RelistCanMerge(e, gpas, locked, h, readOnly);
    }

    /** Stretches the faulting block `c` as far as its buddies allow.  When it grew, everything but the new
        head is unlocked, the lists are longer by exactly the pages of the faulting block, and no subblock
        left a dirty block. */
    method StretchRep(c: nat, readOnly: bool, aggressiveness: nat) returns (grown: bool, head: nat)
      requires Valid() && c < |gpas| && Head(gpas, c) == c && c in locked && MembersResident(gpas, c)
      modifies this
      ensures Valid() && |gpas| == old(|gpas|)
      ensures head < |gpas| && Head(gpas, head) == head && Head(gpas, c) == head
      ensures grown <==> gpas[head].order > old(gpas)[c].order
      ensures !grown ==> head == c && gpas == old(gpas) && locked == old(locked)
      ensures gpas[head].state == old(gpas)[c].state
      ensures gpas[head].order == gpas[head].ceiling || !CanMerge(gpas, locked, head, readOnly)
        || (aggressiveness > 0 && gpas[head].order == old(gpas)[c].order + aggressiveness)
      ensures locked == old(locked) - {c} + {head}
      ensures activeLen + proactiveLen == old(activeLen) + old(proactiveLen)
        + if grown then Pages(old(gpas), c, subblockSize) else 0
      ensures Weight(blockCount) == Weight(old(blockCount))
      ensures GrownFrom(old(gpas), gpas) && JoinedFrom(old(gpas), gpas, c, head, readOnly)
      ensures grown ==> Stretched in gpas[head].flags && PrefetchOnce in gpas[head].flags
      ensures aggressiveness > 0 ==> gpas[head].order <= old(gpas)[c].order + aggressiveness
      ensures grown ==> forall m :: head <= m < head + Size(gpas, head) && m < |gpas| ==>
        (gpas[m].listed <==> m == head)
    {
      hide InBounds, OrdersUniform, CeilingsTiled, HeadsOnly, UsedResident, CleanMembers;
      hide Tallies, MembersResident, GrownFrom, JoinedFrom, Joinable, Weight, Stretch, Pages, Buddies, CanMerge;
      head := c;
      var level, origOrder := 0, gpas[c].order;
      ghost var d := gpas;
      Unchanged(d, c, readOnly);
      CeilingTallied(blockCount, d, c);
      while gpas[head].order < gpas[head].ceiling
        invariant Valid() && |gpas| == |d| && head < |gpas| && Head(gpas, head) == head && MembersResident(gpas, head)
        invariant locked == old(locked) - {c} + {head} && (head == c || head !in old(locked))
        invariant gpas[head].order == d[c].order + level
        invariant level == 0 ==> head == c && gpas == d
        invariant gpas[head].state == d[c].state
        invariant Head(gpas, c) == head && GrownFrom(d, gpas) && JoinedFrom(d, gpas, c, head, readOnly)
        invariant activeLen + proactiveLen
          == old(activeLen) + old(proactiveLen) - Pages(gpas, head, subblockSize) + Pages(d, c, subblockSize)
        invariant Weight(blockCount) == Weight(old(blockCount)) && |blockCount| == old(|blockCount|)
        invariant aggressiveness > 0 ==> level < aggressiveness
        invariant gpas[head].order <= gpas[head].ceiling < |blockCount|
        decreases |blockCount| - gpas[head].order
      {
        ghost var e := gpas;
        var s, merged := TryLevel(head, readOnly);
        if !merged {
          break;
        }
        LevelUp(d, e, c, head, s);
        GroupParts(e);
        JoinMore(d, e, c, head, s, readOnly);
        DoublePages(e, head, gpas, s, subblockSize);
        head, level := s, level + 1;
        if aggressiveness > 0 && level >= aggressiveness {
          break;
        }
      }
      grown := gpas[head].order != origOrder;
      if grown {
        PutBack(head, readOnly, d, c);
      }
    }

    static lemma CeilingTallied(counts: seq<int>, d: Group, c: nat)
      requires Geometry(d) && Tallies(counts, d) && c < |d|
      ensures d[c].order <= d[c].ceiling < |counts|
    {
    }

    static lemma Unchanged(d: Group, c: nat, readOnly: bool)
      ensures GrownFrom(d, d) && JoinedFrom(d, d, c, c, readOnly)
    {
      hide BlockHead;
    }

    static lemma LevelUp(d: Group, e: Group, c: nat, h: nat, s: nat)
      requires GrownFrom(d, e) && Geometry(e) && c < |e| && h < |e| && Head(e, h) == h && Head(e, c) == h
      requires s == BlockHead(h, e[h].order + 1) && s < |e|
      requires Buddies(e, s, BuddyIndex(e, s, h)) && (h == s || h == s + Pow2(e[s].order))
      requires WProtect in e[s].flags <==> WProtect in e[s + Pow2(e[s].order)].flags
      ensures var r := Stretch(e, s, BuddyIndex(e, s, h));
              GrownFrom(d, r) && Head(r, c) == s && r[c].ceiling == e[c].ceiling
    {
      var p := BuddyIndex(e, s, h);
      StretchGrows(d, e, s, p);
      HeadInside(e, c);
      HeadMerged(e, s, p, c);
      StretchOrders(e, s, p);
    }

    method SetBlockOrders(s: nat, n: nat, k: nat)
      requires s + n <= |gpas|
      modifies `gpas
      ensures gpas == SetOrders(old(gpas), s, n, k)
    {
      var i := 0;
      while i < n
        invariant 0 <= i <= n && s + n <= |gpas|
        invariant gpas == SetOrders(old(gpas), s, i, k)
      {
        gpas := gpas[s + i := gpas[s + i].(order := k)];
        i := i + 1;
      }
    }

    /** The orders of both halves, and a head for the upper one. */
    method SplitBlock(s: nat)
      requires s < |gpas| && gpas[s].order > 0 && s + Pow2(gpas[s].order) <= |gpas|
      modifies `gpas
      ensures gpas == Reduce(old(gpas), s)
    {
      var k := gpas[s].order;
      var buddy := s + Pow2(k - 1);
      var flags := gpas[s].flags;
      SetBlockOrders(s, Pow2(k), k - 1);
      gpas := gpas[buddy := gpas[buddy].(flags := flags, state := gpas[s].state)];
    }

    /** Splits the locked block `s` into two locked halves, or does nothing. */
    method ReduceOnce(s: nat) returns (ok: bool)
      requires Valid() && s < |gpas| && Head(gpas, s) == s && gpas[s].order > 0
      modifies `gpas, `locked, `blockCount
      ensures Valid() && Weight(blockCount) == Weight(old(blockCount))
      ensures s + Pow2(old(gpas)[s].order) <= old(|gpas|)
      ensures ok <==> s + Pow2(old(gpas)[s].order - 1) !in old(locked)
      ensures ok ==> gpas == Reduce(old(gpas), s) && locked == old(locked) + {s + Pow2(old(gpas)[s].order - 1)}
      ensures ok ==> SameUnder(old(gpas), gpas) && OthersKept(old(gpas), gpas)
      ensures !ok ==> gpas == old(gpas) && locked == old(locked) && blockCount == old(blockCount)
    {
      hide Geometry, Tallies, Weight, Add, Reduce, BlockHead, Pow2, SameUnder, OthersKept;
      ghost var d := gpas;
      ReduceGeometry(d, s);
      GroupParts(d);
      hide Partition;
      var k := gpas[s].order;
      var buddy := s + Pow2(k - 1);
      if buddy in locked {
        return false;
      }
      locked := locked + {buddy};
      ReduceTallies(blockCount, d, s);
      ReduceWeight(blockCount, k);
      ReduceKeepsFlags(d, s);
      SplitBlock(s);
      blockCount := Add(Add(blockCount, k, -1), k - 1, 2);
      return true;
    }

    static lemma ReduceTallies(c: seq<int>, d: Group, s: nat)
      requires Tallies(c, d) && Geometry(d) && s < |d| && Head(d, s) == s && d[s].order > 0
      ensures s + Pow2(d[s].order) <= |d| && d[s].order < |c|
      ensures Tallies(Add(Add(c, d[s].order, -1), d[s].order - 1, 2), Reduce(d, s))
    {
      hide InBounds, OrdersUniform, CeilingsTiled, HeadsOnly, UsedResident, CleanMembers;
      CeilingTallied(c, d, s);
      ReduceGeometry(d, s);
      forall o | 0 <= o < |c|
        ensures Add(Add(c, d[s].order, -1), d[s].order - 1, 2)[o] == HeadsIn(Reduce(d, s), o, 0, |d|)
      {
        ReduceCounts(d, s, o);
      }
    }

    static lemma CompleteTallies(c: seq<int>, d: Group, s: nat)
      requires Tallies(c, d) && Geometry(d) && s < |d| && Head(d, s) == s
      ensures d[s].order < |c|
      ensures Tallies(Add(Add(c, d[s].order, -1), 0, Size(d, s)), ReduceComplete(d, s))
    {
      hide InBounds, OrdersUniform, CeilingsTiled, HeadsOnly, UsedResident, CleanMembers;
      CeilingTallied(c, d, s);
      forall o | 0 <= o < |c|
        ensures Add(Add(c, d[s].order, -1), 0, Size(d, s))[o] == HeadsIn(ReduceComplete(d, s), o, 0, |d|)
      {
        CompleteCounts(d, s, o);
      }
    }

    /** Takes the locks of the members behind the head, or none of them. */
    method LockMembers(s: nat, n: nat) returns (ok: bool)
      requires n >= 1
      modifies `locked
      ensures ok <==> forall x :: s < x < s + n ==> x !in old(locked)
      ensures ok ==> forall x :: x in locked <==> x in old(locked) || s < x < s + n
      ensures !ok ==> locked == old(locked)
    {
      var i := 1;
      while i < n
        invariant 1 <= i <= n
        invariant forall x :: s < x < s + i ==> x !in old(locked)
        invariant forall x :: x in locked <==> x in old(locked) || s < x < s + i
      {
        if s + i in locked {
          var j := 1;
          while j < i
            invariant 1 <= j <= i
            invariant forall x :: x in locked <==> x in old(locked) || s + j <= x < s + i
          {
            locked := locked - {s + j};
            j := j + 1;
          }
          return false;
        }
        locked := locked + {s + i};
        i := i + 1;
      }
      return true;
    }

    /** Splits the locked block `s` into single descriptors, all locked, or does nothing. */
    method TryReduceComplete(s: nat) returns (ok: bool)
      requires Valid() && s < |gpas| && Head(gpas, s) == s
      modifies `gpas, `locked, `blockCount
      ensures Valid() && Weight(blockCount) == Weight(old(blockCount))
      ensures ok <==> forall x :: s < x < s + Size(old(gpas), s) ==> x !in old(locked)
      ensures ok ==> gpas == ReduceComplete(old(gpas), s) && OthersKept(old(gpas), gpas)
      ensures ok && MembersResident(old(gpas), s) ==> SameUnder(old(gpas), gpas)
      ensures ok ==> forall x :: x in locked <==> x in old(locked) || s < x < s + Size(old(gpas), s)
      ensures !ok ==> gpas == old(gpas) && locked == old(locked) && blockCount == old(blockCount)
    {
      hide InBounds, OrdersUniform, CeilingsTiled, HeadsOnly, UsedResident, CleanMembers;
      ghost var d := gpas;
      var k, n := gpas[s].order, Pow2(gpas[s].order);
      ok := LockMembers(s, n);
      if !ok {
        return;
      }
      HeadInside(d, s);
      CompleteGeometry(d, s);
      CompleteKeepsFlagsIff(d, s);
      hide SameUnder, OthersKept;
      CompleteTallies(blockCount, d, s);
      CompleteWeight(blockCount, k);
      SplitMembers(s, n);
      blockCount := Add(Add(blockCount, k, -1), 0, n);
    }

    method SplitMembers(s: nat, n: nat)
      requires s < |gpas| && n == Size(gpas, s) && s + n <= |gpas|
      modifies `gpas
      ensures gpas == ReduceComplete(old(gpas), s)
    {
      var flags, state := gpas[s].flags, gpas[s].state;
      var i := 0;
      while i < n
        invariant 0 <= i <= n && |gpas| == old(|gpas|)
        invariant forall k :: 0 <= k < |gpas| && !(s <= k < s + i) ==> gpas[k] == old(gpas)[k]
        invariant forall k :: s <= k < s + i ==> gpas[k] == ReduceComplete(old(gpas), s)[k]
      {
        var g := s + i;
        gpas := gpas[g := gpas[g].(order := 0)];
        if g != s && gpas[g].hasPage {
          gpas := gpas[g := gpas[g].(flags := flags, state := state)];
        }
        i := i + 1;
      }
    }
  }
}
