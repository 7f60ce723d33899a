/**
  The slots a fork copies are one range, the forked views moved out to block boundaries; the child names its groups
  whole exactly when neither end of that range falls inside a group its parent names.
 */
module ForkRange {
  import opened PowerOfTwo
  import opened ViewIntervals
  import opened Regions
  import opened CloseDirectory
  import opened CloseSafety
  import opened CloseRuns

  // ---------------------------------------------------------------------------------------------
  // Groups are runs of positions

  lemma MatesBetween(m: Space, p: nat, x: nat, q: nat)
    requires ValidSpace(m) && Mates(m, p, q) && p <= x <= q
    ensures Mates(m, p, x) && Mates(m, x, q)
  {
    var i :| 0 <= i < |m.regions| && SameGroup(m.shape, m.regions[i], p, q);
    assert Cut(m.shape, m.regions[i]);
    GroupInsideRegion(m.shape, m.regions[i], p);
    GroupInsideRegion(m.shape, m.regions[i], q);
    GroupMembersAgree(m.shape, m.regions[i], p, x);
    assert SameGroup(m.shape, m.regions[i], p, x) && SameGroup(m.shape, m.regions[i], x, q);
  }

  /** An index falls inside a group exactly when it is off the grid the group's region is walked on. */
  lemma InsideIsOffGrid(m: Space, i: nat, x: nat)
    requires ValidSpace(m) && i < |m.regions| && Holds(m.regions[i], x)
    ensures x > 0 && Mates(m, x - 1, x) <==> HeadIndex(m.shape, x, m.regions[i].order) < x
  {
    var r := m.regions[i];
    assert Cut(m.shape, r);
    GroupInsideRegion(m.shape, r, x);
    if HeadIndex(m.shape, x, r.order) < x {
      GroupMembersAgree(m.shape, r, x, x - 1);
      assert SameGroup(m.shape, r, x - 1, x);
    }
    if x > 0 && Mates(m, x - 1, x) {
      var j :| 0 <= j < |m.regions| && SameGroup(m.shape, m.regions[j], x - 1, x);
      RegionsAreApart(m.shape, m.regions);
      assert Holds(m.regions[j], x);
      OnlyOne(m.regions, i, j, x);
      GroupInsideRegion(m.shape, r, x - 1);
    }
  }

  // ---------------------------------------------------------------------------------------------
  // What is copied is one range

  lemma HeadsRise(m: Space, heads: seq<nat>, p: nat, q: nat)
    requires BlocksOf(m, heads) && p <= q < |heads|
    ensures heads[p] <= heads[q]
  {
    hide Mates;
  }

  /** The halves lie end to end. */
  lemma {:induction false} HalvesRise(m: Space, halves: seq<Half>, k: nat)
    requires Forkable(m, halves) && k < |halves|
    ensures FirstIndex(m, halves[0].iv) <= FirstIndex(m, halves[k].iv)
    ensures EndIndex(m, halves[k].iv) <= EndIndex(m, halves[|halves| - 1].iv)
    decreases |halves|
  {
    var last := |halves| - 1;
    if k == last {
      if last > 0 {
        HalvesRise(m, halves[..last], last - 1);
        NextHalf(m, halves, last - 1);
      }
    } else {
      HalvesRise(m, halves[..last], k);
      NextHalf(m, halves, last - 1);
    }
  }

  lemma NextHalf(m: Space, halves: seq<Half>, k: nat)
    requires Forkable(m, halves) && k + 1 < |halves|
    ensures FirstIndex(m, halves[k].iv) <= FirstIndex(m, halves[k + 1].iv) <= EndIndex(m, halves[k].iv)
    ensures EndIndex(m, halves[k].iv) <= EndIndex(m, halves[k + 1].iv)
  {
    var a, b := halves[k].iv, halves[k + 1].iv;
    ViewIndices(m, a);
    ViewIndices(m, b);
    DivRises(a.start, a.end, m.sb);
    DivRises(a.end, a.end + m.sb - 1, m.sb);
    DivRises(a.end + m.sb - 1, b.end + m.sb - 1, m.sb);
  }

  lemma DivRises(x: nat, y: nat, d: nat)
    requires d > 0 && x <= y
    ensures x / d <= y / d
  {
    var q, p := x / d, y / d;
    assert x == q * d + x % d && y == p * d + y % d;
    if p < q {
      MulMonotone(p + 1, q, d);
    }
  }

  /** Every subblock of the forked range is under one of its halves. */
  lemma {:induction false} RangeIsViewed(m: Space, halves: seq<Half>, p: nat)
    requires Forkable(m, halves) && FirstIndex(m, halves[0].iv) <= p < EndIndex(m, halves[|halves| - 1].iv)
    ensures exists k: nat :: k < |halves| && UnderView(m, halves[k].iv, p)
    decreases |halves|
  {
    var last := |halves| - 1;
    if p >= FirstIndex(m, halves[last].iv) {
      assert UnderView(m, halves[last].iv, p);
    } else {
      NextHalf(m, halves, last - 1);
      var front := halves[..last];
      RangeIsViewed(m, front, p);
      var k: nat :| k < |front| && UnderView(m, front[k].iv, p);
      assert UnderView(m, halves[k].iv, p);
    }
  }

  lemma CopiedIsInside(m: Space, halves: seq<Half>, heads: seq<nat>, q: nat)
    requires BlocksOf(m, heads) && Forkable(m, halves) && q < |heads| && IsCopied(m, halves, heads, q)
    ensures CopyStart(m, halves, heads) <= q < CopyEnd(m, halves, heads)
  {
    var k: nat, p: nat :| k < |halves| && p < |heads| && UnderView(m, halves[k].iv, p) && heads[p] == heads[q];
    HalvesRise(m, halves, k);
    ViewIndices(m, halves[0].iv);
    ViewIndices(m, halves[|halves| - 1].iv);
    var lo, x := FirstIndex(m, halves[0].iv), EndIndex(m, halves[|halves| - 1].iv) - 1;
    hide Mates, IsCopied;
    HeadsRise(m, heads, lo, p);
    var b := CopyEnd(m, halves, heads);
    SameBlock(m, heads, p, x, q);
    if b < |heads| {
      SameBlock(m, heads, p, b, q);
    }
  }

  lemma SameBlock(m: Space, heads: seq<nat>, p: nat, x: nat, q: nat)
    requires BlocksOf(m, heads) && p < |heads| && x < |heads| && q < |heads|
    ensures p <= x <= q && heads[p] == heads[q] ==> heads[x] == heads[q]
  {
    hide Mates;
  }

  lemma InsideIsCopied(m: Space, halves: seq<Half>, heads: seq<nat>, q: nat)
    requires BlocksOf(m, heads) && Forkable(m, halves)
    requires CopyStart(m, halves, heads) <= q < CopyEnd(m, halves, heads)
    ensures q < |heads| && IsCopied(m, halves, heads, q)
  {
    ViewIndices(m, halves[0].iv);
    ViewIndices(m, halves[|halves| - 1].iv);
    HalvesRise(m, halves, 0);
    var lo, x := FirstIndex(m, halves[0].iv), EndIndex(m, halves[|halves| - 1].iv) - 1;
    hide Mates;
    var p := if q < lo then lo else if q > x then x else q;
    assert heads[p] == heads[q];
    RangeIsViewed(m, halves, p);
  }

  /** The positions copied are those between the two ends. */
  lemma CopiedIsRange(m: Space, halves: seq<Half>, heads: seq<nat>, q: nat)
    requires BlocksOf(m, heads) && Forkable(m, halves) && q < |heads|
    ensures IsCopied(m, halves, heads, q) <==> CopyStart(m, halves, heads) <= q < CopyEnd(m, halves, heads)
  {
    hide IsCopied, CopyStart, CopyEnd;
    if IsCopied(m, halves, heads, q) {
      CopiedIsInside(m, halves, heads, q);
    } else if CopyStart(m, halves, heads) <= q < CopyEnd(m, halves, heads) {
      InsideIsCopied(m, halves, heads, q);
    }
  }

  // ---------------------------------------------------------------------------------------------
  // Whole groups

  /** The slots of a range. */
  function Between(slots: seq<Slot>, a: nat, b: nat): (r: seq<Slot>)
    ensures |r| == |slots| && forall q :: 0 <= q < |r| ==> r[q] == if a <= q < b then slots[q] else None
  {
    seq(|slots|, q requires 0 <= q < |slots| => if a <= q < b then slots[q] else None)
  }

  lemma BetweenWholeIff(m: Space, slots: seq<Slot>, a: nat, b: nat)
    requires ValidSpace(m) && WholeSlots(m, slots) && a < b
    ensures WholeSlots(m, Between(slots, a, b)) <==> !FallsInside(m, slots, a) && !FallsInside(m, slots, b)
  {
    var r := Between(slots, a, b);
    hide ValidSpace, Mates;
    if FallsInside(m, slots, a) {
      assert r[a - 1] == None && r[a] == slots[a];
    } else if FallsInside(m, slots, b) {
      assert slots[b - 1] == slots[b] && r[b - 1] == slots[b - 1] && r[b] == None;
    } else if !WholeSlots(m, r) {
      var p: nat, q: nat :| p < |r| && q < |r| && Mates(m, p, q) && r[p] != r[q];
      MatesInside(m, p, q);
      var lo, hi := if p < q then p else q, if p < q then q else p;
      assert slots[lo] == slots[hi] && Mates(m, lo, hi);
      var x := if lo < a <= hi then a else b;
      CutBetween(m, slots, lo, x, hi);
    }
  }

  /** A boundary between two positions of a named group falls inside it. */
  lemma CutBetween(m: Space, slots: seq<Slot>, p: nat, x: nat, q: nat)
    requires ValidSpace(m) && WholeSlots(m, slots) && p < x <= q < |slots| && Mates(m, p, q) && slots[p].Some?
    ensures FallsInside(m, slots, x)
  {
    MatesBetween(m, p, x, q);
    MatesBetween(m, p, x - 1, x);
    hide Mates, ValidSpace;
    assert slots[x] == slots[p];
  }

  lemma ChildIsBetween(m: Space, slots: seq<Slot>, halves: seq<Half>, heads: seq<nat>)
    requires BlocksOf(m, heads) && Forkable(m, halves) && |slots| == |heads|
    ensures CopiedSlots(m, slots, halves, heads) == Between(slots, CopyStart(m, halves, heads), CopyEnd(m, halves, heads))
    ensures CopyStart(m, halves, heads) < CopyEnd(m, halves, heads) <= |slots|
  {
    var r := CopiedSlots(m, slots, halves, heads);
    ViewIndices(m, halves[0].iv);
    HalvesRise(m, halves, 0);
    assert CopyStart(m, halves, heads) <= FirstIndex(m, halves[0].iv);
    forall q | 0 <= q < |r|
      ensures r[q] == Between(slots, CopyStart(m, halves, heads), CopyEnd(m, halves, heads))[q]
    {
      CopiedIsRange(m, halves, heads, q);
    }
  }

  /** A fork names the child's groups whole exactly when neither end of the copied range falls inside a group that
      the parent names. */
  lemma ForkWholeIff(m: Space, slots: seq<Slot>, halves: seq<Half>, heads: seq<nat>)
    requires ValidSpace(m) && WholeSlots(m, slots) && BlocksOf(m, heads) && Forkable(m, halves)
    ensures WholeSlots(m, CopiedSlots(m, slots, halves, heads)) <==>
              && !FallsInside(m, slots, CopyStart(m, halves, heads))
              && !FallsInside(m, slots, CopyEnd(m, halves, heads))
  {
    ChildIsBetween(m, slots, halves, heads);
    hide BlocksOf, Forkable, CopyStart, CopyEnd, CopiedSlots, Between, WholeSlots, FallsInside;
    BetweenWholeIff(m, slots, CopyStart(m, halves, heads), CopyEnd(m, halves, heads));
  }

  /** Where no block reaches across an end of the forked range, as a split of that range leaves it, the ends are those
      of the views in subblocks. */
  lemma EndsOfSplit(m: Space, halves: seq<Half>, heads: seq<nat>)
    requires BlocksOf(m, heads) && Forkable(m, halves)
    requires var lo, hi := FirstIndex(m, halves[0].iv), EndIndex(m, halves[|halves| - 1].iv);
             (lo < |heads| ==> heads[lo] == lo) && (hi < |heads| ==> heads[hi] == hi)
    ensures CopyStart(m, halves, heads) == FirstIndex(m, halves[0].iv)
    ensures CopyEnd(m, halves, heads) == EndIndex(m, halves[|halves| - 1].iv)
  {
    ViewIndices(m, halves[0].iv);
    ViewIndices(m, halves[|halves| - 1].iv);
    var hi := EndIndex(m, halves[|halves| - 1].iv);
    hide Mates;
    assert hi < |heads| ==> heads[hi] != heads[hi - 1];
  }
}
