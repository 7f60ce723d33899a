/**
  The per-order block counters: what they count, and what merging and splitting do to them.
 */
module ElasticCounts {
  import opened PowerOfTwo
  import opened ElasticGeometry

  /** Heads of order `o` among the descriptors `lo..hi`. */
  function HeadsIn(d: Group, o: nat, lo: nat, hi: nat): (r: nat)
    requires lo <= hi <= |d|
    ensures r <= hi - lo
    decreases hi - lo
  {
    if lo == hi then 0
    else HeadsIn(d, o, lo, hi - 1) + if d[hi - 1].order == o && Head(d, hi - 1) == hi - 1 then 1 else 0
  }

  lemma {:induction false} HeadsSplit(d: Group, o: nat, lo: nat, mid: nat, hi: nat)
    requires lo <= mid <= hi <= |d|
    ensures HeadsIn(d, o, lo, hi) == HeadsIn(d, o, lo, mid) + HeadsIn(d, o, mid, hi)
    decreases hi - mid
  {
    if mid < hi {
      HeadsSplit(d, o, lo, mid, hi - 1);
    }
  }

  lemma {:induction false} HeadsSame(d: Group, e: Group, o: nat, lo: nat, hi: nat)
    requires lo <= hi <= |d| && |e| == |d|
    requires forall i :: lo <= i < hi ==> e[i].order == d[i].order
    ensures HeadsIn(e, o, lo, hi) == HeadsIn(d, o, lo, hi)
    decreases hi - lo
  {
    if lo < hi {
      HeadsSame(d, e, o, lo, hi - 1);
    }
  }

  lemma {:induction false} NoHeads(d: Group, o: nat, lo: nat, hi: nat)
    requires lo <= hi <= |d|
    requires forall i :: lo <= i < hi ==> d[i].order == o ==> Head(d, i) != i
    ensures HeadsIn(d, o, lo, hi) == 0
    decreases hi - lo
  {
    if lo < hi {
      NoHeads(d, o, lo, hi - 1);
    }
  }

  /** A block has one head. */
  lemma BlockHasOneHead(d: Group, o: nat, h: nat)
    requires Partition(d) && h < |d| && Head(d, h) == h
    ensures h + Size(d, h) <= |d|
    ensures HeadsIn(d, o, h, h + Size(d, h)) == if d[h].order == o then 1 else 0
  {
    hide InBounds, OrdersUniform, CeilingsTiled;
    HeadInside(d, h);
    HeadsSplit(d, o, h, h + 1, h + Size(d, h));
    forall i | h + 1 <= i < h + Size(d, h)
      ensures Head(d, i) == h
    {
      MemberOf(d, h, i);
    }
    NoHeads(d, o, h + 1, h + Size(d, h));
    assert HeadsIn(d, o, h, h + 1) == HeadsIn(d, o, h, h) + if d[h].order == o then 1 else 0;
  }

  /** Only the descriptors in `lo..hi` changed order. */
  lemma CountsElsewhere(d: Group, e: Group, o: nat, lo: nat, hi: nat)
    requires lo <= hi <= |d| && |e| == |d|
    requires forall i :: 0 <= i < |d| && !(lo <= i < hi) ==> e[i].order == d[i].order
    ensures HeadsIn(e, o, 0, |e|) - HeadsIn(d, o, 0, |d|) == HeadsIn(e, o, lo, hi) - HeadsIn(d, o, lo, hi)
  {
    HeadsSplit(d, o, 0, lo, |d|);
    HeadsSplit(d, o, lo, hi, |d|);
    HeadsSplit(e, o, 0, lo, |e|);
    HeadsSplit(e, o, lo, hi, |e|);
    HeadsSame(d, e, o, 0, lo);
    HeadsSame(d, e, o, hi, |d|);
  }

  lemma TwoHeads(d: Group, o: nat, s: nat, k: nat)
    requires Partition(d) && s + Pow2(k) < |d| && BlockHead(s, k + 1) == s
    requires d[s].order == k && d[s + Pow2(k)].order == k
    ensures s + Pow2(k) + Pow2(k) <= |d|
    ensures HeadsIn(d, o, s, s + Pow2(k) + Pow2(k)) == if o == k then 2 else 0
  {
    hide InBounds, OrdersUniform, CeilingsTiled;
    var b := s + Pow2(k);
    BuddyHalves(s, k);
    assert Head(d, s) == s && Head(d, b) == b;
    BlockHasOneHead(d, o, s);
    BlockHasOneHead(d, o, b);
    HeadsSplit(d, o, s, b, b + Pow2(k));
  }

  lemma MergedHeads(d: Group, s: nat, p: nat, o: nat)
    requires Partition(d) && Buddies(d, s, p)
    ensures HeadsIn(Stretch(d, s, p), o, s, s + Pow2(d[s].order + 1)) == if o == d[s].order + 1 then 1 else 0
  {
    hide InBounds, OrdersUniform, CeilingsTiled;
    StretchPartition(d, s, p);
    HeadMerged(d, s, p, s);
    BlockHasOneHead(Stretch(d, s, p), o, s);
  }

  lemma StretchElsewhereCounts(d: Group, r: Group, s: nat, p: nat, o: nat)
    requires Partition(d) && Buddies(d, s, p) && r == Stretch(d, s, p)
    ensures HeadsIn(r, o, 0, |d|) - HeadsIn(d, o, 0, |d|)
      == HeadsIn(r, o, s, s + Pow2(d[s].order + 1)) - HeadsIn(d, o, s, s + Pow2(d[s].order + 1))
  {
    hide InBounds, OrdersUniform, CeilingsTiled;
    StretchOrders(d, s, p);
    CountsElsewhere(d, r, o, s, s + Pow2(d[s].order + 1));
  }

  lemma PairHeads(d: Group, s: nat, p: nat, o: nat)
    requires Partition(d) && Buddies(d, s, p)
    ensures HeadsIn(d, o, s, s + Pow2(d[s].order + 1)) == if o == d[s].order then 2 else 0
  {
    hide InBounds, OrdersUniform, CeilingsTiled;
    TwoHeads(d, o, s, d[s].order);
    assert Pow2(d[s].order + 1) == Pow2(d[s].order) + Pow2(d[s].order);
  }

  /** Two blocks of one order become one of the next. */
  lemma StretchCounts(d: Group, r: Group, s: nat, p: nat, o: nat)
    requires Partition(d) && Buddies(d, s, p) && r == Stretch(d, s, p)
    ensures HeadsIn(r, o, 0, |d|) == HeadsIn(d, o, 0, |d|)
      + (if o == d[s].order + 1 then 1 else 0) - (if o == d[s].order then 2 else 0)
  {
    hide InBounds, OrdersUniform, CeilingsTiled;
    StretchElsewhereCounts(d, r, s, p, o);
    PairHeads(d, s, p, o);
    MergedHeads(d, s, p, o);
  }

  lemma SplitHeads(d: Group, s: nat, o: nat)
    requires Partition(d) && s < |d| && Head(d, s) == s && d[s].order > 0
    ensures s + Pow2(d[s].order) <= |d|
    ensures HeadsIn(Reduce(d, s), o, s, s + Size(d, s)) == if o == d[s].order - 1 then 2 else 0
  {
    hide InBounds, OrdersUniform, CeilingsTiled;
    ReducePartition(d, s);
    ReduceOrders(d, s, s);
    ReduceOrders(d, s, s + Pow2(d[s].order - 1));
    TwoHeads(Reduce(d, s), o, s, d[s].order - 1);
  }

  lemma ReduceCounts(d: Group, s: nat, o: nat)
    requires Partition(d) && s < |d| && Head(d, s) == s && d[s].order > 0
    ensures s + Pow2(d[s].order) <= |d|
    ensures HeadsIn(Reduce(d, s), o, 0, |d|) == HeadsIn(d, o, 0, |d|)
      + (if o == d[s].order - 1 then 2 else 0) - (if o == d[s].order then 1 else 0)
  {
    hide InBounds, OrdersUniform, CeilingsTiled;
    SplitHeads(d, s, o);
    BlockHasOneHead(d, o, s);
    forall i | 0 <= i < |d| && !(s <= i < s + Size(d, s))
      ensures Reduce(d, s)[i].order == d[i].order
    {
      ReduceOrders(d, s, i);
    }
    CountsElsewhere(d, Reduce(d, s), o, s, s + Size(d, s));
  }

  lemma {:induction false} Singles(d: Group, o: nat, lo: nat, hi: nat)
    requires lo <= hi <= |d| && forall i :: lo <= i < hi ==> d[i].order == 0
    ensures HeadsIn(d, o, lo, hi) == if o == 0 then hi - lo else 0
    decreases hi - lo
  {
    if lo < hi {
      Singles(d, o, lo, hi - 1);
    }
  }

  lemma CompleteCounts(d: Group, s: nat, o: nat)
    requires Partition(d) && s < |d| && Head(d, s) == s
    ensures HeadsIn(ReduceComplete(d, s), o, 0, |d|) == HeadsIn(d, o, 0, |d|)
      + (if o == 0 then Size(d, s) else 0) - (if o == d[s].order then 1 else 0)
  {
    hide InBounds, OrdersUniform, CeilingsTiled;
    BlockHasOneHead(d, o, s);
    CountsElsewhere(d, ReduceComplete(d, s), o, s, s + Size(d, s));
    Singles(ReduceComplete(d, s), o, s, s + Size(d, s));
  }

  // ---------------------------------------------------------------------------------------------
  // The counters

  /** The number of descriptors the counters account for. */
  function Weight(c: seq<int>): int {
    if c == [] then 0 else Weight(c[..|c| - 1]) + c[|c| - 1] * Pow2(|c| - 1)
  }

  function Add(c: seq<int>, o: nat, n: int): (r: seq<int>)
    requires o < |c|
    ensures |r| == |c|
  {
    c[o := c[o] + n]
  }

  lemma Expand(a: int, n: int, p: int)
    ensures (a + n) * p == a * p + n * p
  {
  }

  lemma {:induction false} AddWeight(c: seq<int>, o: nat, n: int)
    requires o < |c|
    ensures Weight(Add(c, o, n)) == Weight(c) + n * Pow2(o)
    decreases |c|
  {
    var last := |c| - 1;
    if o == last {
      Expand(c[o], n, Pow2(o));
      assert Add(c, o, n)[..last] == c[..last];
    } else {
      AddWeight(c[..last], o, n);
      assert Add(c, o, n)[..last] == Add(c[..last], o, n);
    }
  }

  ghost predicate Tallies(c: seq<int>, d: Group) {
    && (forall o :: 0 <= o < |c| ==> c[o] == HeadsIn(d, o, 0, |d|))
    && (forall i :: 0 <= i < |d| ==> d[i].ceiling < |c|)
  }

  /** What a merge does to the counters leaves their weight alone. */
  lemma StretchWeight(c: seq<int>, k: nat)
    requires k + 1 < |c|
    ensures Weight(Add(Add(c, k, -2), k + 1, 1)) == Weight(c)
  {
    AddWeight(c, k, -2);
    AddWeight(Add(c, k, -2), k + 1, 1);
  }

  lemma ReduceWeight(c: seq<int>, k: nat)
    requires 0 < k < |c|
    ensures Weight(Add(Add(c, k, -1), k - 1, 2)) == Weight(c)
  {
    AddWeight(c, k, -1);
    AddWeight(Add(c, k, -1), k - 1, 2);
  }

  lemma CompleteWeight(c: seq<int>, k: nat)
    requires k < |c|
    ensures Weight(Add(Add(c, k, -1), 0, Pow2(k))) == Weight(c)
  {
    AddWeight(c, k, -1);
    AddWeight(Add(c, k, -1), 0, Pow2(k));
    assert Pow2(0) == 1;
  }

  /** Descriptors covered by the blocks whose heads lie below `hi`, a block boundary. */
  function Covered(d: Group, hi: nat): nat
    requires hi <= |d|
  {
    if hi == 0 then 0
    else Covered(d, hi - 1) + if Head(d, hi - 1) == hi - 1 then Pow2(d[hi - 1].order) else 0
  }

  lemma {:induction false} CoveredInside(d: Group, h: nat, x: nat)
    requires Partition(d) && h < |d| && Head(d, h) == h && h < x <= h + Size(d, h) <= |d|
    ensures Covered(d, x) == Covered(d, h) + Size(d, h)
    decreases x
  {
    if x > h + 1 {
      MemberOf(d, h, x - 1);
      CoveredInside(d, h, x - 1);
    }
  }

  /** The blocks cover the descriptors exactly: nothing twice, nothing missing. */
  lemma {:induction false} BlocksCoverAll(d: Group, hi: nat)
    requires Partition(d) && hi <= |d| && (hi < |d| ==> Head(d, hi) == hi)
    ensures Covered(d, hi) == hi
    decreases hi
  {
    if hi > 0 {
      var h := Head(d, hi - 1);
      HeadInside(d, hi - 1);
      if hi < h + Size(d, h) {
        MemberOf(d, h, hi);
        assert false;
      }
      CoveredInside(d, h, hi);
      BlocksCoverAll(d, h);
    }
  }

  /** The heads of every order below `hi`, as counters. */
  function CountsTo(d: Group, n: nat, hi: nat): (r: seq<int>)
    requires hi <= |d|
    ensures |r| == n && forall o :: 0 <= o < n ==> r[o] == HeadsIn(d, o, 0, hi)
  {
    seq(n, o requires 0 <= o < n => HeadsIn(d, o, 0, hi))
  }

  lemma {:induction false} NoWeight(c: seq<int>)
    requires forall o :: 0 <= o < |c| ==> c[o] == 0
    ensures Weight(c) == 0
    decreases |c|
  {
    if c != [] {
      NoWeight(c[..|c| - 1]);
    }
  }

  lemma {:induction false} WeightIsCovered(d: Group, n: nat, hi: nat)
    requires hi <= |d| && forall i :: 0 <= i < |d| ==> d[i].order < n
    ensures Weight(CountsTo(d, n, hi)) == Covered(d, hi)
    decreases hi
  {
    if hi == 0 {
      NoWeight(CountsTo(d, n, 0));
    } else {
      var o := d[hi - 1].order;
      WeightIsCovered(d, n, hi - 1);
      if Head(d, hi - 1) == hi - 1 {
        AddWeight(CountsTo(d, n, hi - 1), o, 1);
        assert CountsTo(d, n, hi) == Add(CountsTo(d, n, hi - 1), o, 1);
      } else {
        assert CountsTo(d, n, hi) == CountsTo(d, n, hi - 1);
      }
    }
  }

  /** Counters that count the blocks weigh exactly the descriptors there are. */
  lemma TalliesWeigh(c: seq<int>, d: Group)
    requires Tallies(c, d) && Partition(d)
    ensures Weight(c) == |d|
  {
    assert c == CountsTo(d, |c|, |d|);
    forall i | 0 <= i < |d|
      ensures d[i].order < |c|
    {
      assert d[i].order <= d[i].ceiling;
    }
    hide InBounds, OrdersUniform, CeilingsTiled, Tallies;
    WeightIsCovered(d, |c|, |d|);
    BlocksCoverAll(d, |d|);
  }
}
