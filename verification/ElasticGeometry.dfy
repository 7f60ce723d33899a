/**
  The geometry of elastic blocks as a value: descriptors with an order each, merged with their buddy or
  split again one level at a time.

  Orders are relative to the subblock order, so a block of order k is 2^k descriptors.
 */
module ElasticGeometry {
  import opened PowerOfTwo

  datatype Flag =
    | Dirty | Referenced | Promote | Proactive | Hpt | WProtect | Prefetched | Pinned | Stretched
    | PrefetchOnce | Stale | Touched

  datatype RState = Init | Active | Inactive | Writeback

  datatype Desc = Desc(order: nat, ceiling: nat, flags: set<Flag>, state: RState, hasPage: bool, listed: bool)

  type Group = seq<Desc>

  function Head(d: Group, m: nat): nat
    requires m < |d|
  {
    BlockHead(m, d[m].order)
  }

  function Size(d: Group, h: nat): nat
    requires h < |d|
  {
    Pow2(d[h].order)
  }

  // ---------------------------------------------------------------------------------------------
  // The partition

  ghost predicate OrdersUniform(d: Group) {
    forall m, x :: 0 <= m < |d| && 0 <= x < |d| && BlockHead(x, d[m].order) == Head(d, m) ==> d[x].order == d[m].order
  }

  /** Ceilings are set region by region, and a region is cut into aligned blocks. */
  ghost predicate CeilingsTiled(d: Group) {
    forall m, x :: 0 <= m < |d| && 0 <= x < |d| && BlockHead(x, d[m].ceiling) == BlockHead(m, d[m].ceiling) ==>
      d[x].ceiling == d[m].ceiling
  }

  ghost predicate InBounds(d: Group) {
    forall m :: 0 <= m < |d| ==>
      d[m].order <= d[m].ceiling && BlockHead(m, d[m].ceiling) + Pow2(d[m].ceiling) <= |d|
  }

  /** Blocks are aligned, uniform in order, within every member's ceiling. */
  ghost predicate Partition(d: Group) {
    InBounds(d) && OrdersUniform(d) && CeilingsTiled(d)
  }

  ghost predicate HeadsOnly(d: Group) {
    forall m :: 0 <= m < |d| && Head(d, m) != m ==> d[m].state == Init
  }

  predicate UnderDirty(d: Group, m: nat)
    requires m < |d| && Head(d, m) < |d|
  {
    Dirty in d[Head(d, m)].flags
  }

  predicate InUse(d: Group, h: nat)
    requires h < |d|
  {
    Dirty in d[h].flags || d[h].state != Init
  }

  /** A block that is dirty or in some state is resident: its subblocks have local pages. */
  ghost predicate UsedResident(d: Group) {
    forall m :: 0 <= m < |d| && Head(d, m) < |d| && InUse(d, Head(d, m)) ==> d[m].hasPage
  }

  /** What a member without a page kept from an earlier geometry is never dirtiness. */
  ghost predicate CleanMembers(d: Group) {
    forall m :: 0 <= m < |d| && !d[m].hasPage ==> Dirty !in d[m].flags
  }

  ghost predicate Geometry(d: Group) {
    Partition(d) && HeadsOnly(d) && UsedResident(d) && CleanMembers(d)
  }

  /** The partition is a matter of orders and ceilings alone. */
  lemma PartitionFrame(d: Group, e: Group)
    requires Partition(d) && |e| == |d|
    requires forall i :: 0 <= i < |d| ==> e[i].order == d[i].order && e[i].ceiling == d[i].ceiling
    ensures Partition(e)
  {
    forall m, x | 0 <= m < |e| && 0 <= x < |e| && BlockHead(x, e[m].order) == Head(e, m)
      ensures e[x].order == e[m].order
    {
      assert BlockHead(x, d[m].order) == Head(d, m);
    }
    forall m, x | 0 <= m < |e| && 0 <= x < |e| && BlockHead(x, e[m].ceiling) == BlockHead(m, e[m].ceiling)
      ensures e[x].ceiling == e[m].ceiling
    {
      assert BlockHead(x, d[m].ceiling) == BlockHead(m, d[m].ceiling);
    }
  }

  lemma HeadInside(d: Group, m: nat)
    requires Partition(d) && m < |d|
    ensures Head(d, m) <= m < Head(d, m) + Size(d, m) <= |d|
    ensures d[Head(d, m)].order == d[m].order && Head(d, Head(d, m)) == Head(d, m)
  {
    HeadBounds(m, d[m].order);
    HeadOfHead(m, d[m].order, d[m].order);
    BlockNesting(m, m, d[m].order, d[m].ceiling);
  }

  lemma MemberOf(d: Group, h: nat, x: nat)
    requires Partition(d) && h < |d| && Head(d, h) == h && h <= x < h + Size(d, h)
    ensures x < |d| && d[x].order == d[h].order && Head(d, x) == h
  {
    HeadInside(d, h);
    HeadUnique(h, x, d[h].order);
  }

  lemma CeilingCovers(d: Group, h: nat, k: nat, x: nat)
    requires Partition(d) && h < |d| && k <= d[h].ceiling && BlockHead(x, k) == BlockHead(h, k)
    ensures x < |d| && d[x].ceiling == d[h].ceiling
  {
    BlockNesting(h, x, k, d[h].ceiling);
    HeadBounds(x, d[h].ceiling);
  }

  // ---------------------------------------------------------------------------------------------
  // Stretch: one level

  function Raised(d: Group, s: nat, n: nat): (r: Group)
    ensures |r| == |d|
  {
    seq(|d|, i requires 0 <= i < |d| =>
      if s <= i < s + n then d[i].(order := d[i].order + 1) else d[i])
  }

  /** `p` is the buddy found on a list, `s` the head of the merged block. */
  function FlagsMoved(d: Group, s: nat, p: nat): (r: Group)
    requires s < |d| && p < |d|
    requires s == p ==> d[s].order > 0 && s + Pow2(d[s].order - 1) < |d|
    ensures |r| == |d|
  {
    if s != p then
      d[s := d[s].(flags := d[s].flags + (d[p].flags - {Proactive, Promote}))]
       [p := d[p].(state := Init, flags := d[p].flags - {Hpt, Promote, Referenced, Dirty})]
    else
      var m := s + Pow2(d[s].order - 1);
      d[s := d[s].(state := d[m].state, flags := d[s].flags + (d[m].flags * {Dirty}))]
       [m := d[m].(state := Init, flags := d[m].flags - {Dirty})]
  }

  /** Two buddies of one order: `s` the lower, `p` either. */
  ghost predicate Buddies(d: Group, s: nat, p: nat) {
    && s < |d| && p < |d|
    && var k := d[s].order;
       && BlockHead(s, k + 1) == s && s + Pow2(k + 1) <= |d|
       && (p == s || p == s + Pow2(k)) && d[s + Pow2(k)].order == k
       && k + 1 <= d[s].ceiling
  }

  function Stretch(d: Group, s: nat, p: nat): (r: Group)
    requires s < |d| && p < |d| && s + Pow2(d[s].order) < |d|
    ensures |r| == |d|
  {
    FlagsMoved(Raised(d, s, Pow2(d[s].order + 1)), s, p)
  }

  lemma StretchOrders(d: Group, s: nat, p: nat)
    requires Partition(d) && Buddies(d, s, p)
    ensures var r := Stretch(d, s, p);
            forall i :: 0 <= i < |d| ==>
              && r[i].order == (if s <= i < s + Pow2(d[s].order + 1) then d[s].order + 1 else d[i].order)
              && r[i].ceiling == d[i].ceiling && r[i].hasPage == d[i].hasPage && r[i].listed == d[i].listed
  {
    hide InBounds, OrdersUniform, CeilingsTiled;
    var k := d[s].order;
    BuddyHalves(s, k);
    forall i | s <= i < s + Pow2(k + 1)
      ensures d[i].order == k
    {
      if i < s + Pow2(k) {
        MemberOf(d, s, i);
      } else {
        MemberOf(d, s + Pow2(k), i);
      }
    }
  }

  /** A block that is not one of the two lies apart from the merged one. */
  lemma OutsideMerged(d: Group, s: nat, p: nat, m: nat, x: nat)
    requires Partition(d) && Buddies(d, s, p) && m < |d| && x < |d|
    requires !(s <= m < s + Pow2(d[s].order + 1)) && BlockHead(x, d[m].order) == Head(d, m)
    ensures !(s <= x < s + Pow2(d[s].order + 1))
  {
    var k := d[s].order;
    if s <= x < s + Pow2(k + 1) {
      BuddyHalves(s, k);
      if x < s + Pow2(k) {
        MemberOf(d, s, x);
      } else {
        MemberOf(d, s + Pow2(k), x);
      }
      assert d[x].order == d[m].order;
      HeadUnique(s, x, k + 1);
      BlockNesting(x, m, k, k + 1);
      HeadBounds(m, k + 1);
    }
  }

  lemma StretchInBounds(d: Group, s: nat, p: nat, m: nat)
    requires Partition(d) && Buddies(d, s, p) && m < |d|
    ensures var r := Stretch(d, s, p);
            r[m].order <= r[m].ceiling && BlockHead(m, r[m].ceiling) + Pow2(r[m].ceiling) <= |d|
  {
    var k := d[s].order;
    StretchOrders(d, s, p);
    if s <= m < s + Pow2(k + 1) {
      HeadUnique(s, m, k + 1);
      CeilingCovers(d, s, k + 1, m);
    }
  }

  lemma StretchUniform(d: Group, s: nat, p: nat, m: nat, x: nat)
    requires Partition(d) && Buddies(d, s, p) && m < |d| && x < |d|
    requires BlockHead(x, Stretch(d, s, p)[m].order) == Head(Stretch(d, s, p), m)
    ensures Stretch(d, s, p)[x].order == Stretch(d, s, p)[m].order
  {
    var k := d[s].order;
    StretchOrders(d, s, p);
    if s <= m < s + Pow2(k + 1) {
      HeadUnique(s, m, k + 1);
      HeadBounds(x, k + 1);
    } else {
      OutsideMerged(d, s, p, m, x);
    }
  }

  lemma StretchPartition(d: Group, s: nat, p: nat)
    requires Partition(d) && Buddies(d, s, p)
    ensures Partition(Stretch(d, s, p))
  {
    var r := Stretch(d, s, p);
    forall m | 0 <= m < |d|
      ensures r[m].order <= r[m].ceiling && BlockHead(m, r[m].ceiling) + Pow2(r[m].ceiling) <= |d|
    {
      StretchInBounds(d, s, p, m);
    }
    forall m, x | 0 <= m < |d| && 0 <= x < |d| && BlockHead(x, r[m].order) == Head(r, m)
      ensures r[x].order == r[m].order
    {
      StretchUniform(d, s, p, m, x);
    }
    assert CeilingsTiled(r) by {
      StretchCeilings(d, s, p);
    }
  }

  lemma StretchCeilings(d: Group, s: nat, p: nat)
    requires Partition(d) && Buddies(d, s, p)
    ensures CeilingsTiled(Stretch(d, s, p))
  {
    hide InBounds, OrdersUniform;
    var r := Stretch(d, s, p);
    StretchOrders(d, s, p);
    forall m, x | 0 <= m < |d| && 0 <= x < |d| && BlockHead(x, r[m].ceiling) == BlockHead(m, r[m].ceiling)
      ensures r[x].ceiling == r[m].ceiling
    {
      assert BlockHead(x, d[m].ceiling) == BlockHead(m, d[m].ceiling);
    }
  }

  /** Which head a member of the merged block had before. */
  lemma HalfHead(d: Group, s: nat, p: nat, m: nat)
    requires Partition(d) && Buddies(d, s, p) && s <= m < s + Pow2(d[s].order + 1)
    ensures m < |d| && BlockHead(m, d[s].order + 1) == s && d[m].order == d[s].order
    ensures Head(d, m) == if m < s + Pow2(d[s].order) then s else s + Pow2(d[s].order)
  {
    hide InBounds, OrdersUniform, CeilingsTiled;
    var k := d[s].order;
    BuddyHalves(s, k);
    HeadUnique(s, m, k + 1);
    if m < s + Pow2(k) {
      MemberOf(d, s, m);
    } else {
      MemberOf(d, s + Pow2(k), m);
    }
  }

  lemma HeadElsewhere(d: Group, s: nat, p: nat, m: nat)
    requires Partition(d) && Buddies(d, s, p) && m < |d| && !(s <= m < s + Pow2(d[s].order + 1))
    ensures Head(d, m) < |d| && !(s <= Head(d, m) < s + Pow2(d[s].order + 1))
    ensures Head(Stretch(d, s, p), m) == Head(d, m)
    ensures Stretch(d, s, p)[m] == d[m] && Stretch(d, s, p)[Head(d, m)] == d[Head(d, m)]
  {
    hide InBounds, OrdersUniform, CeilingsTiled;
    HeadInside(d, m);
    OutsideMerged(d, s, p, m, Head(d, m));
  }

  lemma HeadMerged(d: Group, s: nat, p: nat, m: nat)
    requires Partition(d) && Buddies(d, s, p) && s <= m < s + Pow2(d[s].order + 1)
    ensures m < |d| && Head(Stretch(d, s, p), m) == s && Stretch(d, s, p)[m].order == d[s].order + 1
  {
    hide InBounds, OrdersUniform, CeilingsTiled;
    HalfHead(d, s, p, m);
    StretchOrders(d, s, p);
  }

  lemma MergedFlags(d: Group, s: nat, p: nat)
    requires Partition(d) && Buddies(d, s, p)
    ensures Dirty in Stretch(d, s, p)[s].flags <==> Dirty in d[s].flags || Dirty in d[s + Pow2(d[s].order)].flags
    ensures Stretch(d, s, p)[s + Pow2(d[s].order)].state == Init
    ensures Dirty !in Stretch(d, s, p)[s + Pow2(d[s].order)].flags
    ensures forall m :: 0 <= m < |d| && m != s && m != s + Pow2(d[s].order) ==>
      Stretch(d, s, p)[m].flags == d[m].flags && Stretch(d, s, p)[m].state == d[m].state
  {
    hide InBounds, OrdersUniform, CeilingsTiled;
    StretchOrders(d, s, p);
  }

  /** Merging never loses dirtiness, whichever half carried it and whichever was on a list; and it makes
      nothing dirty outside the merged block. */
  lemma StretchKeepsDirty(d: Group, s: nat, p: nat, m: nat)
    requires Geometry(d) && Buddies(d, s, p) && m < |d|
    ensures var r := Stretch(d, s, p);
            && Head(r, m) < |d| && Head(d, m) < |d|
            && (UnderDirty(d, m) ==> UnderDirty(r, m))
            && (UnderDirty(r, m) && !(s <= m < s + Pow2(d[s].order + 1)) ==> UnderDirty(d, m))
  {
    hide InBounds, OrdersUniform, CeilingsTiled;
    if s <= m < s + Pow2(d[s].order + 1) {
      HalfHead(d, s, p, m);
      HeadMerged(d, s, p, m);
      MergedFlags(d, s, p);
    } else {
      HeadElsewhere(d, s, p, m);
    }
  }

  lemma StretchHeadsOnly(d: Group, s: nat, p: nat, m: nat)
    requires Geometry(d) && Buddies(d, s, p) && m < |d| && Head(Stretch(d, s, p), m) != m
    ensures Stretch(d, s, p)[m].state == Init
  {
    hide InBounds, OrdersUniform, CeilingsTiled;
    if s <= m < s + Pow2(d[s].order + 1) {
      HalfHead(d, s, p, m);
      HeadMerged(d, s, p, m);
      MergedFlags(d, s, p);
    } else {
      HeadElsewhere(d, s, p, m);
    }
  }

  ghost predicate MembersResident(d: Group, h: nat) {
    forall x :: 0 <= x < |d| && Head(d, x) == h ==> d[x].hasPage
  }

  lemma StretchResident(d: Group, s: nat, p: nat, m: nat)
    requires Geometry(d) && Buddies(d, s, p) && m < |d|
    requires MembersResident(d, s) && MembersResident(d, s + Pow2(d[s].order))
    ensures var r := Stretch(d, s, p);
            && Head(r, m) < |d|
            && (Head(r, m) == s || InUse(r, Head(r, m)) ==> r[m].hasPage)
            && (!r[m].hasPage ==> Dirty !in r[m].flags)
  {
    hide InBounds, OrdersUniform, CeilingsTiled, HeadsOnly;
    StretchOrders(d, s, p);
    MergedFlags(d, s, p);
    if s <= m < s + Pow2(d[s].order + 1) {
      HalfHead(d, s, p, m);
      HeadMerged(d, s, p, m);
    } else {
      HeadElsewhere(d, s, p, m);
    }
  }

  /** One level of stretching keeps the whole geometry. */
  lemma StretchGeometry(d: Group, s: nat, p: nat)
    requires Geometry(d) && Buddies(d, s, p)
    requires MembersResident(d, s) && MembersResident(d, s + Pow2(d[s].order))
    ensures Geometry(Stretch(d, s, p))
    ensures MembersResident(Stretch(d, s, p), s)
  {
    hide InBounds, OrdersUniform, CeilingsTiled;
    var r := Stretch(d, s, p);
    StretchPartition(d, s, p);
    forall m | 0 <= m < |d| && Head(r, m) != m
      ensures r[m].state == Init
    {
      StretchHeadsOnly(d, s, p, m);
    }
    forall m | 0 <= m < |d|
      ensures Head(r, m) < |d| && (Head(r, m) == s || InUse(r, Head(r, m)) ==> r[m].hasPage)
      ensures !r[m].hasPage ==> Dirty !in r[m].flags
    {
      StretchResident(d, s, p, m);
    }
  }

  // ---------------------------------------------------------------------------------------------
  // Reduce

  function SetOrders(d: Group, s: nat, n: nat, k: nat): (r: Group)
    ensures |r| == |d|
  {
    seq(|d|, i requires 0 <= i < |d| => if s <= i < s + n then d[i].(order := k) else d[i])
  }

  /** Split once: the upper half gets a head of its own with the flags and the state of the old one. */
  function Reduce(d: Group, s: nat): (r: Group)
    requires s < |d| && d[s].order > 0 && s + Pow2(d[s].order - 1) < |d|
    ensures |r| == |d|
  {
    var k := d[s].order - 1;
    var e := SetOrders(d, s, Pow2(k + 1), k);
    var b := s + Pow2(k);
    e[b := e[b].(flags := d[s].flags, state := d[s].state)]
  }

  /** Split all the way down: members without a local page get an order only. */
  function ReduceComplete(d: Group, s: nat): (r: Group)
    requires s < |d|
    ensures |r| == |d|
  {
    seq(|d|, i requires 0 <= i < |d| =>
      if !(s <= i < s + Pow2(d[s].order)) then d[i]
      else if i == s || !d[i].hasPage then d[i].(order := 0)
      else d[i].(order := 0, flags := d[s].flags, state := d[s].state))
  }

  lemma OutsideSplit(d: Group, s: nat, m: nat, x: nat)
    requires Partition(d) && s < |d| && Head(d, s) == s && m < |d| && x < |d|
    requires !(s <= m < s + Size(d, s)) && BlockHead(x, d[m].order) == Head(d, m)
    ensures !(s <= x < s + Size(d, s))
  {
    if s <= x < s + Size(d, s) {
      MemberOf(d, s, x);
      assert d[x].order == d[m].order;
      HeadBounds(m, d[m].order);
    }
  }

  lemma ReduceOrders(d: Group, s: nat, i: nat)
    requires Partition(d) && s < |d| && Head(d, s) == s && d[s].order > 0 && i < |d|
    ensures s + Pow2(d[s].order) <= |d|
    ensures var r := Reduce(d, s);
            && r[i].order == (if s <= i < s + Size(d, s) then d[s].order - 1 else d[i].order)
            && r[i].ceiling == d[i].ceiling && r[i].hasPage == d[i].hasPage
  {
    HeadInside(d, s);
  }

  lemma ReducePartition(d: Group, s: nat)
    requires Partition(d) && s < |d| && Head(d, s) == s && d[s].order > 0
    ensures s + Pow2(d[s].order) <= |d| && Partition(Reduce(d, s))
  {
    HeadInside(d, s);
    var r, k := Reduce(d, s), d[s].order - 1;
    forall m | 0 <= m < |d|
      ensures r[m].order <= r[m].ceiling && r[m].ceiling == d[m].ceiling
    {
      ReduceOrders(d, s, m);
      if s <= m < s + Size(d, s) {
        MemberOf(d, s, m);
      }
    }
    forall m, x | 0 <= m < |d| && 0 <= x < |d| && BlockHead(x, r[m].order) == Head(r, m)
      ensures r[x].order == r[m].order
    {
      ReduceOrders(d, s, m);
      ReduceOrders(d, s, x);
      if s <= m < s + Size(d, s) {
        BlockNesting(m, x, k, k + 1);
        MemberOf(d, s, m);
        HeadBounds(x, k + 1);
      } else {
        OutsideSplit(d, s, m, x);
      }
    }
  }

  lemma ReduceHead(d: Group, s: nat, m: nat)
    requires Partition(d) && s < |d| && Head(d, s) == s && d[s].order > 0 && m < |d|
    ensures s + Pow2(d[s].order) <= |d| && Head(d, m) < |d|
    ensures Head(Reduce(d, s), m) ==
      if s <= m < s + Size(d, s) then (if m < s + Pow2(d[s].order - 1) then s else s + Pow2(d[s].order - 1))
      else Head(d, m)
    ensures if s <= m < s + Size(d, s) then Head(d, m) == s else !(s <= Head(d, m) < s + Size(d, s))
  {
    hide InBounds, OrdersUniform, CeilingsTiled;
    ReduceOrders(d, s, m);
    HeadInside(d, m);
    var k := d[s].order - 1;
    BuddyHalves(s, k);
    if s <= m < s + Size(d, s) {
      MemberOf(d, s, m);
      if m < s + Pow2(k) {
        HeadUnique(s, m, k);
      } else {
        HeadUnique(s + Pow2(k), m, k);
      }
    } else {
      OutsideSplit(d, s, m, Head(d, m));
    }
  }

  /** Splitting moves no subblock in or out of dirtiness. */
  lemma ReduceKeepsDirty(d: Group, s: nat, m: nat)
    requires Geometry(d) && s < |d| && Head(d, s) == s && d[s].order > 0 && m < |d|
    ensures s + Pow2(d[s].order) <= |d| && Head(d, m) < |d| && Head(Reduce(d, s), m) < |d|
    ensures UnderDirty(Reduce(d, s), m) <==> UnderDirty(d, m)
  {
    hide InBounds, OrdersUniform, CeilingsTiled;
    ReduceHead(d, s, m);
  }

  lemma ReduceGeometry(d: Group, s: nat)
    requires Geometry(d) && s < |d| && Head(d, s) == s && d[s].order > 0
    ensures s + Pow2(d[s].order) <= |d| && Geometry(Reduce(d, s))
  {
    hide InBounds, OrdersUniform, CeilingsTiled;
    ReducePartition(d, s);
    var r := Reduce(d, s);
    forall m | 0 <= m < |d|
      ensures Head(r, m) != m ==> r[m].state == Init
      ensures Head(r, m) < |d| && InUse(r, Head(r, m)) ==> r[m].hasPage
      ensures !r[m].hasPage ==> Dirty !in r[m].flags
    {
      ReduceOrders(d, s, m);
      ReduceHead(d, s, m);
    }
  }

  lemma CompleteHead(d: Group, s: nat, m: nat)
    requires Partition(d) && s < |d| && Head(d, s) == s && m < |d|
    ensures Head(d, m) < |d|
    ensures Head(ReduceComplete(d, s), m) == if s <= m < s + Size(d, s) then m else Head(d, m)
    ensures if s <= m < s + Size(d, s) then Head(d, m) == s && d[m].order == d[s].order
            else !(s <= Head(d, m) < s + Size(d, s))
  {
    hide InBounds, OrdersUniform, CeilingsTiled;
    HeadInside(d, m);
    if s <= m < s + Size(d, s) {
      MemberOf(d, s, m);
    } else {
      OutsideSplit(d, s, m, Head(d, m));
    }
  }

  lemma CompleteKeepsDirty(d: Group, s: nat, m: nat)
    requires Geometry(d) && s < |d| && Head(d, s) == s && m < |d|
    ensures Head(d, m) < |d| && Head(ReduceComplete(d, s), m) < |d|
    ensures UnderDirty(d, m) ==> UnderDirty(ReduceComplete(d, s), m)
  {
    hide InBounds, OrdersUniform, CeilingsTiled;
    CompleteHead(d, s, m);
  }

  lemma CompletePartition(d: Group, s: nat)
    requires Partition(d) && s < |d| && Head(d, s) == s
    ensures Partition(ReduceComplete(d, s))
  {
    var r := ReduceComplete(d, s);
    forall m, x | 0 <= m < |d| && 0 <= x < |d| && BlockHead(x, r[m].order) == Head(r, m)
      ensures r[x].order == r[m].order
    {
      CompleteHead(d, s, m);
      if !(s <= m < s + Size(d, s)) {
        OutsideSplit(d, s, m, x);
      }
    }
  }

  lemma CompleteGeometry(d: Group, s: nat)
    requires Geometry(d) && s < |d| && Head(d, s) == s
    ensures Geometry(ReduceComplete(d, s))
  {
    hide InBounds, OrdersUniform, CeilingsTiled;
    CompletePartition(d, s);
    var r := ReduceComplete(d, s);
    forall m | 0 <= m < |d|
      ensures Head(r, m) != m ==> r[m].state == Init
      ensures Head(r, m) < |d| && InUse(r, Head(r, m)) ==> r[m].hasPage
      ensures !r[m].hasPage ==> Dirty !in r[m].flags
    {
      CompleteHead(d, s, m);
    }
  }
}
