/**
  Descriptor regions: how a namespace is cut so that no block straddles its ends.

  Positions in the directory are counted in subblocks from the first one.  Descriptors of a region are
  allocated in groups of `Pow2(order)`, orders being relative to the subblock order.
 */
module Regions {
  import opened PowerOfTwo

  datatype Region = Region(start: nat, end: nat, order: nat, partial: bool)

  /** What the boundaries are computed from. */
  datatype Shape = Shape(
    len: nat,            // subblocks in the directory
    order: nat,          // order of a whole block
    alignedStart: nat,   // subblocks before the first block boundary
    alignedEnd: nat,     // subblocks up to the last block boundary
    partialHead: bool,   // the first subblock is mapped only in part
    partialTail: bool)

  // ---------------------------------------------------------------------------------------------
  // Subblocks at the two ends

  function SbAtHead(start: nat, size: nat, partial: bool): nat
    requires size > 0
  {
    var h := if start % size > 0 then size - start % size else 0;
    if h == 0 && partial then size else h
  }

  function SbAtTail(end: nat, size: nat, partial: bool): nat
    requires size > 0
  {
    var t := end % size;
    if t == 0 && partial then size else t
  }

  /** The shape of the vma `[vmStart, vmEnd)`, in pages, with `sb` pages to a subblock. */
  function ShapeOf(vmStart: nat, vmEnd: nat, sb: nat, order: nat): Shape
    requires sb > 0 && vmStart < vmEnd
  {
    var first, last := vmStart / sb, (vmEnd + sb - 1) / sb;
    var partialHead, partialTail := vmStart % sb != 0, vmEnd % sb != 0;
    var size := Pow2(order);
    var len := if first < last then last - first else 0;
    var head, tail := SbAtHead(first, size, partialHead), SbAtTail(last, size, partialTail);
    Shape(len, order, head, if tail < len then len - tail else 0, partialHead, partialTail)
  }

  /** What the shapes that occur have in common. */
  ghost predicate ProperShape(s: Shape) {
    && s.len > 0 && s.alignedEnd <= s.len
    && (s.partialHead ==> s.alignedStart >= 1)
    && (s.partialTail ==> s.alignedEnd < s.len)
    && (s.alignedStart < s.alignedEnd ==> (s.alignedEnd - s.alignedStart) % Pow2(s.order) == 0)
  }

  /** The two aligned ends are block boundaries of the address space. */
  lemma HeadEndsOnBoundary(start: nat, size: nat, partial: bool) returns (q: nat)
    requires size > 0
    ensures start + SbAtHead(start, size, partial) == q * size
  {
    var a := start / size;
    assert start == a * size + start % size;
    if SbAtHead(start, size, partial) == 0 {
      q := a;
    } else {
      q := a + 1;
      assert (a + 1) * size == a * size + size;
    }
  }

  lemma TailStartsOnBoundary(end: nat, size: nat, partial: bool) returns (q: int)
    requires size > 0
    ensures end - SbAtTail(end, size, partial) == q * size
  {
    var c := end / size;
    assert end == c * size + end % size;
    if SbAtTail(end, size, partial) == end % size {
      q := c;
    } else {
      q := c - 1;
      assert (c - 1) * size == c * size - size;
    }
  }

  lemma FactorSign(q: int, size: nat)
    requires size > 0
    ensures q * size >= 0 ==> q >= 0
    ensures q * size > 0 ==> q > 0
  {
  }

  lemma MultipleIsWhole(n: nat, q: int, size: nat)
    requires size > 0 && n == q * size
    ensures n % size == 0
  {
    FactorSign(q, size);
    QuotientUnique(n, size, q);
  }

  lemma LenPositive(vmStart: nat, vmEnd: nat, sb: nat)
    requires sb > 0 && vmStart < vmEnd
    ensures vmStart / sb < (vmEnd + sb - 1) / sb
  {
    var a, b := vmStart / sb, (vmEnd + sb - 1) / sb;
    assert vmStart == a * sb + vmStart % sb && vmEnd + sb - 1 == b * sb + (vmEnd + sb - 1) % sb;
    Distribute(b, a, sb);
    FactorSign(b - a, sb);
  }

  lemma ShapeIsProper(vmStart: nat, vmEnd: nat, sb: nat, order: nat)
    requires sb > 0 && vmStart < vmEnd
    ensures ProperShape(ShapeOf(vmStart, vmEnd, sb, order))
  {
    var s, size := ShapeOf(vmStart, vmEnd, sb, order), Pow2(order);
    var first, last := vmStart / sb, (vmEnd + sb - 1) / sb;
    LenPositive(vmStart, vmEnd, sb);
    if s.alignedStart < s.alignedEnd {
      var p := HeadEndsOnBoundary(first, size, s.partialHead);
      var q := TailStartsOnBoundary(last, size, s.partialTail);
      assert s.alignedEnd - s.alignedStart == q * size - p * size;
      Distribute(q, p, size);
      MultipleIsWhole(s.alignedEnd - s.alignedStart, q - p, size);
    }
  }

  // ---------------------------------------------------------------------------------------------
  // Regions from boundaries

  function RegionFor(s: Shape, start: nat, end: nat): Region {
    Region(start, end,
           if end <= s.alignedStart || start >= s.alignedEnd then 0 else s.order,
           (s.partialHead && end <= 1) || (s.partialTail && start + 1 >= s.len))
  }

  /** The boundaries that matter: wherever blocks must not reach across. */
  ghost predicate Separates(s: Shape, x: nat) {
    || (s.partialHead && x == 1) || (s.partialTail && x + 1 == s.len)
    || x == s.alignedStart || x == s.alignedEnd
  }

  /** Regions end to end from 0, none empty, cut at every boundary inside. */
  ghost predicate EndToEnd(rs: seq<Region>, to: nat) {
    && (forall i :: 0 <= i < |rs| ==> rs[i].start < rs[i].end)
    && (forall i :: 0 <= i < |rs| - 1 ==> rs[i].end == rs[i + 1].start)
    && (if rs == [] then to == 0 else rs[0].start == 0 && rs[|rs| - 1].end == to)
  }

  ghost predicate Cut(s: Shape, r: Region) {
    && r == RegionFor(s, r.start, r.end) && r.start < r.end <= s.len
    && (r.start == 0 || Separates(s, r.start)) && (r.end == s.len || Separates(s, r.end))
    && forall x :: r.start < x < r.end ==> !Separates(s, x)
  }

  /** How many regions hold a position. */
  function Hits(rs: seq<Region>, x: nat): nat {
    if rs == [] then 0 else (if rs[0].start <= x < rs[0].end then 1 else 0) + Hits(rs[1..], x)
  }

  lemma {:induction false} HitsConcat(a: seq<Region>, b: seq<Region>, x: nat)
    ensures Hits(a + b, x) == Hits(a, x) + Hits(b, x)
  {
    if a == [] {
      assert a + b == b;
    } else {
      assert (a + b)[1..] == a[1..] + b;
      HitsConcat(a[1..], b, x);
    }
  }

  lemma {:induction false} EndToEndHits(rs: seq<Region>, to: nat, x: nat)
    requires EndToEnd(rs, to)
    ensures Hits(rs, x) == if x < to then 1 else 0
    decreases |rs|
  {
    if rs != [] {
      var last := |rs| - 1;
      var init := rs[..last];
      EndToEndHits(init, rs[last].start, x);
      HitsConcat(init, [rs[last]], x);
      assert rs == init + [rs[last]];
    }
  }

  /** A region with whole blocks is exactly the aligned middle of the namespace. */
  lemma BlocksFillTheMiddle(s: Shape, r: Region)
    requires ProperShape(s) && Cut(s, r) && r.order > 0
    ensures r.start == s.alignedStart && r.end == s.alignedEnd
    ensures (r.end - r.start) % Pow2(r.order) == 0
  {
    assert !(r.start < s.alignedStart < r.end) by {
      if r.start < s.alignedStart < r.end {
        assert Separates(s, s.alignedStart);
      }
    }
    assert !(r.start < s.alignedEnd < r.end) by {
      if r.start < s.alignedEnd < r.end {
        assert Separates(s, s.alignedEnd);
      }
    }
  }

  /** A region flagged partial is one subblock at an end, and never part of a larger block. */
  lemma PartialIsSingle(s: Shape, r: Region)
    requires ProperShape(s) && Cut(s, r) && r.partial
    ensures r.end == r.start + 1 && r.order == 0
    ensures (s.partialHead && r.start == 0) || (s.partialTail && r.end == s.len)
  {
  }

  // ---------------------------------------------------------------------------------------------
  // The group a subblock belongs to

  /** The index arithmetic: groups count from the aligned start for what lies behind it. */
  function HeadIndex(s: Shape, index: nat, order: nat): int {
    var off := if s.alignedStart <= index then index - s.alignedStart else index;
    index - off % Pow2(order)
  }

  /** The grid a region is walked on. */
  predicate OnGrid(r: Region, i: int) {
    r.start <= i && (i - r.start) % Pow2(r.order) == 0
  }

  lemma PlusMultiple(q: int, k: int, size: nat)
    ensures q * size + k * size == (q + k) * size
  {
  }

  lemma GroupFits(n: nat, size: nat, x: nat)
    requires size > 0 && n % size == 0 && x < n
    ensures (x - x % size) % size == 0 && x - x % size + size <= n
  {
    var q, p := n / size, x / size;
    assert n == q * size && x == p * size + x % size;
    Distribute(q, p, size);
    FactorSign(q - p, size);
    PlusMultiple(p, 1, size);
    PlusMultiple(q - p - 1, p + 1, size);
    assert (q - p - 1) * size >= 0;
    QuotientUnique(p * size, size, p);
  }

  /** The group derived from an index lies inside the region of that index, on the grid the region is walked
      on, and contains the index. */
  lemma GroupInsideRegion(s: Shape, r: Region, index: nat)
    requires ProperShape(s) && Cut(s, r) && r.start <= index < r.end
    ensures var h := HeadIndex(s, index, r.order);
            && OnGrid(r, h) && h <= index < h + Pow2(r.order) && h + Pow2(r.order) <= r.end
  {
    hide Cut, ProperShape, Pow2;
    if r.order > 0 {
      BlocksFillTheMiddle(s, r);
      var n, x, size := r.end - r.start, index - r.start, Pow2(r.order);
      GroupFits(n, size, x);
      assert HeadIndex(s, index, r.order) - r.start == x - x % size;
    } else {
      SingleGroup(s, r, index);
    }
  }

  lemma SingleGroup(s: Shape, r: Region, index: nat)
    requires r.order == 0 && r.start <= index < r.end
    ensures Pow2(r.order) == 1 && HeadIndex(s, index, r.order) == index && OnGrid(r, index)
  {
  }

  /** Every member of a group derives the same head: deriving by index is deriving by group. */
  lemma GroupMembersAgree(s: Shape, r: Region, index: nat, other: nat)
    requires ProperShape(s) && Cut(s, r) && r.start <= index < r.end
    requires var h := HeadIndex(s, index, r.order); h <= other < h + Pow2(r.order)
    ensures HeadIndex(s, other, r.order) == HeadIndex(s, index, r.order)
  {
    GroupInsideRegion(s, r, index);
    if r.order > 0 {
      BlocksFillTheMiddle(s, r);
      var size := Pow2(r.order);
      var q := (index - r.start) / size;
      assert index - r.start == q * size + (index - r.start) % size;
      QuotientUnique(other - r.start, size, q);
    } else {
      assert Pow2(0) == 1;
    }
  }

  /** Within a group the descriptors are contiguous in memory from an address that is a multiple of the group:
      the head found from the address is at the position found from the index. */
  lemma AddressAndIndexAgree(s: Shape, r: Region, index: nat, base: nat, k: nat)
    requires ProperShape(s) && Cut(s, r) && r.start <= index < r.end && k <= r.order
    requires BlockHead(base, r.order) == base
    ensures var h := HeadIndex(s, index, r.order);
            && h <= index
            && BlockHead(base + (index - h), k) - base == HeadIndex(s, index, k) - h
  {
    var h, size := HeadIndex(s, index, r.order), Pow2(k);
    GroupInsideRegion(s, r, index);
    if r.order > 0 {
      BlocksFillTheMiddle(s, r);
      HeadIsModulo(base + (index - h), k);
      AlignedWeaken(base, k, r.order);
      HeadIsModulo(base, k);
      OnFinerGrid(h - r.start, k, r.order);
      SameRemainder(base, h - r.start, index - h, size);
    } else {
      assert Pow2(0) == 1;
    }
  }

  lemma OnFinerGrid(x: nat, k: nat, order: nat)
    requires k <= order && x % Pow2(order) == 0
    ensures x % Pow2(k) == 0
  {
    HeadIsModulo(x, order);
    AlignedWeaken(x, k, order);
    HeadIsModulo(x, k);
  }

  lemma MultipleDrops(a: nat, d: nat, size: nat)
    requires size > 0 && a % size == 0
    ensures (a + d) % size == d % size
  {
    var p, r := a / size, d / size;
    assert a == p * size && d == r * size + d % size;
    PlusMultiple(p, r, size);
    QuotientUnique(a + d, size, p + r);
  }

  lemma SameRemainder(a: nat, b: nat, d: nat, size: nat)
    requires size > 0 && a % size == 0 && b % size == 0
    ensures (a + d) % size == (b + d) % size
  {
    MultipleDrops(a, d, size);
    MultipleDrops(b, d, size);
  }

  // ---------------------------------------------------------------------------------------------
  // Building the regions

  /** The values before `n` are in ascending order. */
  ghost predicate Ascending(a: seq<nat>) {
    forall i, j :: 0 <= i < j < |a| ==> a[i] <= a[j]
  }

  method Swap<T>(a: array<T>, i: nat, j: nat)
    requires i < a.Length && j < a.Length
    modifies a
    ensures multiset(a[..]) == multiset(old(a[..]))
    ensures a[i] == old(a[j]) && a[j] == old(a[i])
    ensures forall k :: 0 <= k < a.Length && k != i && k != j ==> a[k] == old(a[k])
  {
    a[i], a[j] := a[j], a[i];
  }

  method IndexOfSmallest(a: array<nat>, i: nat) returns (min: nat)
    requires i < a.Length
    ensures i <= min < a.Length && forall q :: i <= q < a.Length ==> a[min] <= a[q]
  {
    min := i;
    var j := i + 1;
    while j < a.Length
      invariant i <= min < j <= a.Length
      invariant forall q :: i <= q < j ==> a[min] <= a[q]
    {
      if a[min] > a[j] {
        min := j;
      }
      j := j + 1;
    }
  }

  method SortBoundaries(a: array<nat>)
    modifies a
    ensures Ascending(a[..]) && multiset(a[..]) == multiset(old(a[..]))
  {
    var i := 0;
    while i < a.Length
      invariant 0 <= i <= a.Length && multiset(a[..]) == multiset(old(a[..]))
      invariant forall p, q :: 0 <= p < i && p < q < a.Length ==> a[p] <= a[q]
    {
      var min := IndexOfSmallest(a, i);
      Swap(a, i, min);
      i := i + 1;
    }
  }

  function Span(r: Region): int {
    r.end - r.start
  }

  method IndexOfLargest(a: array<Region>, i: nat) returns (max: nat)
    requires i < a.Length
    ensures i <= max < a.Length && forall q :: i <= q < a.Length ==> Span(a[max]) >= Span(a[q])
  {
    max := i;
    var j := i + 1;
    while j < a.Length
      invariant i <= max < j <= a.Length
      invariant forall q :: i <= q < j ==> Span(a[max]) >= Span(a[q])
    {
      if Span(a[max]) < Span(a[j]) {
        max := j;
      }
      j := j + 1;
    }
  }

  /** Largest region first. */
  method SortRegions(a: array<Region>)
    modifies a
    ensures multiset(a[..]) == multiset(old(a[..]))
    ensures forall i, j :: 0 <= i < j < a.Length ==> Span(a[i]) >= Span(a[j])
  {
    hide Span;
    var i := 0;
    while i < a.Length
      invariant 0 <= i <= a.Length && multiset(a[..]) == multiset(old(a[..]))
      invariant forall p, q :: 0 <= p < i && p < q < a.Length ==> Span(a[p]) >= Span(a[q])
    {
      var max := IndexOfLargest(a, i);
      Swap(a, i, max);
      i := i + 1;
    }
  }

  /** The boundaries in the order they are collected. */
  function Boundaries(s: Shape): seq<nat> {
    (if s.partialHead then [1] else [])
    + (if s.partialTail && s.len > 1 then [s.len - 1] else [])
    + (if 0 < s.alignedStart < s.len then [s.alignedStart] else [])
    + (if 0 < s.alignedEnd < s.len then [s.alignedEnd] else [])
    + [s.len]
  }

  lemma BoundariesSeparate(s: Shape, x: nat)
    requires ProperShape(s)
    ensures x in Boundaries(s) <==> 0 < x <= s.len && (x == s.len || Separates(s, x))
  {
  }

  lemma TakeOutHits(b: seq<Region>, i: nat, x: nat)
    requires i < |b|
    ensures Hits(b, x) == Hits(b[..i] + b[i + 1..], x) + if b[i].start <= x < b[i].end then 1 else 0
  {
    HitsConcat(b[..i], b[i + 1..], x);
    HitsConcat(b[..i], b[i..], x);
    assert b == b[..i] + b[i..] && b[i..][1..] == b[i + 1..];
  }

  lemma TakeOut(b: seq<Region>, i: nat)
    requires i < |b|
    ensures multiset(b[..i] + b[i + 1..]) == multiset(b) - multiset{b[i]}
  {
    assert b == b[..i] + [b[i]] + b[i + 1..];
  }

  lemma {:induction false} HitsOfPermutation(a: seq<Region>, b: seq<Region>, x: nat)
    requires multiset(a) == multiset(b)
    ensures Hits(a, x) == Hits(b, x)
  {
    assert |multiset(a)| == |a| && |multiset(b)| == |b|;
    if a != [] {
      assert a[0] in multiset(b);
      var i :| 0 <= i < |b| && b[i] == a[0];
      TakeOut(a, 0);
      TakeOut(b, i);
      TakeOutHits(a, 0, x);
      TakeOutHits(b, i, x);
      HitsOfPermutation(a[..0] + a[1..], b[..i] + b[i + 1..], x);
    }
  }

  /** The region list of a namespace: every position in exactly one region, every region cut at the
      boundaries, the largest first. */
  ghost predicate RegionsOf(s: Shape, rs: seq<Region>) {
    && (forall x: nat :: Hits(rs, x) == if x < s.len then 1 else 0)
    && (forall i :: 0 <= i < |rs| ==> Cut(s, rs[i]))
    && (forall i, j :: 0 <= i < j < |rs| ==> Span(rs[i]) >= Span(rs[j]))
  }

  lemma PermutedRegions(s: Shape, a: seq<Region>, b: seq<Region>)
    requires EndToEnd(a, s.len) && (forall i :: 0 <= i < |a| ==> Cut(s, a[i])) && multiset(a) == multiset(b)
    requires forall i, j :: 0 <= i < j < |b| ==> Span(b[i]) >= Span(b[j])
    ensures RegionsOf(s, b)
  {
    forall x: nat
      ensures Hits(b, x) == if x < s.len then 1 else 0
    {
      EndToEndHits(a, s.len, x);
      HitsOfPermutation(a, b, x);
    }
    forall i | 0 <= i < |b|
      ensures Cut(s, b[i])
    {
      assert b[i] in multiset(a);
    }
  }

  ghost predicate ListsBoundaries(s: Shape, boundary: seq<nat>) {
    && Ascending(boundary)
    && forall x: nat :: x in boundary <==> 0 < x <= s.len && (x == s.len || Separates(s, x))
  }

  lemma SortedBoundaries(s: Shape, boundary: seq<nat>)
    requires ProperShape(s) && Ascending(boundary) && multiset(boundary) == multiset(Boundaries(s))
    ensures ListsBoundaries(s, boundary)
  {
    forall x: nat
      ensures x in boundary <==> 0 < x <= s.len && (x == s.len || Separates(s, x))
    {
      BoundariesSeparate(s, x);
      assert x in boundary <==> x in multiset(boundary);
      assert x in Boundaries(s) <==> x in multiset(Boundaries(s));
    }
  }

  /** Nothing separates strictly between one boundary and the next. */
  lemma NextIsCut(s: Shape, boundary: seq<nat>, i: nat, at: nat)
    requires ListsBoundaries(s, boundary) && i < |boundary| && at < boundary[i]
    requires at == 0 || at in boundary
    requires forall k :: 0 <= k < i ==> boundary[k] <= at
    ensures Cut(s, RegionFor(s, at, boundary[i]))
  {
    assert boundary[i] in boundary;
    forall x: nat | at < x < boundary[i]
      ensures !Separates(s, x)
    {
      assert x !in boundary;
    }
  }

  lemma Appended(rs: seq<Region>, at: nat, r: Region)
    requires EndToEnd(rs, at) && r.start == at < r.end
    ensures EndToEnd(rs + [r], r.end)
  {
  }

  /** Skips duplicates while turning sorted boundaries into regions. */
  method BuildRegions(s: Shape, boundary: seq<nat>) returns (rs: seq<Region>)
    requires ProperShape(s) && ListsBoundaries(s, boundary)
    ensures EndToEnd(rs, s.len) && forall i :: 0 <= i < |rs| ==> Cut(s, rs[i])
  {
    hide Cut, EndToEnd;
    rs := [];
    var at: nat, i := 0, 0;
    assert EndToEnd(rs, at) by {
      NoRegions();
    }
    while i < |boundary|
      invariant 0 <= i <= |boundary| && EndToEnd(rs, at)
      invariant forall k :: 0 <= k < |rs| ==> Cut(s, rs[k])
      invariant forall k :: 0 <= k < i ==> boundary[k] <= at
      invariant forall k :: i <= k < |boundary| ==> at <= boundary[k]
      invariant at == 0 || at in boundary
      invariant rs == [] <==> at == 0
    {
      assert boundary[i] in boundary;
      if rs == [] || at != boundary[i] {
        NextIsCut(s, boundary, i, at);
        Appended(rs, at, RegionFor(s, at, boundary[i]));
        rs := rs + [RegionFor(s, at, boundary[i])];
        at := boundary[i];
      }
      i := i + 1;
    }
    assert s.len in boundary;
  }

  lemma NoRegions()
    ensures EndToEnd([], 0)
  {
  }

  method SetGpadescRegions(s: Shape) returns (regions: array<Region>)
    requires ProperShape(s)
    ensures fresh(regions) && RegionsOf(s, regions[..])
  {
    var bs := Boundaries(s);
    var boundary := new nat[|bs|](i requires 0 <= i < |bs| => bs[i]);
    assert boundary[..] == bs;
    SortBoundaries(boundary);
    SortedBoundaries(s, boundary[..]);
    var rs := BuildRegions(s, boundary[..]);
    regions := new Region[|rs|](i requires 0 <= i < |rs| => rs[i]);
    assert regions[..] == rs;
    SortRegions(regions);
    PermutedRegions(s, rs, regions[..]);
  }

  /** The region of an index: the largest is tried first, the others in turn. */
  method GetRegion(s: Shape, regions: array<Region>, index: nat) returns (r: int)
    requires RegionsOf(s, regions[..])
    ensures if index < s.len then 0 <= r < regions.Length && regions[r].start <= index < regions[r].end else r == -1
  {
    r := 0;
    while r < regions.Length
      invariant 0 <= r <= regions.Length
      invariant forall k :: 0 <= k < r ==> !(regions[k].start <= index < regions[k].end)
    {
      if regions[r].start <= index < regions[r].end {
        HitPositive(regions[..], r, index);
        return;
      }
      r := r + 1;
    }
    NoHit(regions[..], index);
    return -1;
  }

  lemma {:induction false} NoHit(rs: seq<Region>, x: nat)
    requires forall k :: 0 <= k < |rs| ==> !(rs[k].start <= x < rs[k].end)
    ensures Hits(rs, x) == 0
  {
    if rs != [] {
      NoHit(rs[1..], x);
    }
  }

  lemma {:induction false} HitPositive(rs: seq<Region>, i: nat, x: nat)
    requires i < |rs| && rs[i].start <= x < rs[i].end
    ensures Hits(rs, x) > 0
  {
    if i > 0 {
      HitPositive(rs[1..], i - 1, x);
    }
  }

  /** Two regions of a namespace never share a position. */
  lemma {:induction false} HitsTwice(rs: seq<Region>, i: nat, j: nat, x: nat)
    requires i < j < |rs| && rs[i].start <= x < rs[i].end && rs[j].start <= x < rs[j].end
    ensures Hits(rs, x) >= 2
  {
    if i > 0 {
      HitsTwice(rs[1..], i - 1, j - 1, x);
    } else {
      HitPositive(rs[1..], j - 1, x);
    }
  }

  /** For every vma and every order: the regions partition the directory, whole blocks fill exactly the aligned
      middle, and partial subblocks stand alone. */
  lemma RegionsPartition(vmStart: nat, vmEnd: nat, sb: nat, order: nat, rs: seq<Region>, x: nat)
    requires sb > 0 && vmStart < vmEnd && RegionsOf(ShapeOf(vmStart, vmEnd, sb, order), rs)
    ensures var s := ShapeOf(vmStart, vmEnd, sb, order);
            && (x < s.len ==> exists i :: 0 <= i < |rs| && rs[i].start <= x < rs[i].end)
            && (forall i, j :: 0 <= i < j < |rs| ==>
                  !(rs[i].start <= x < rs[i].end && rs[j].start <= x < rs[j].end))
            && (forall i :: 0 <= i < |rs| && rs[i].order > 0 ==>
                  rs[i].start == s.alignedStart && rs[i].end == s.alignedEnd && Span(rs[i]) % Pow2(rs[i].order) == 0)
            && (forall i :: 0 <= i < |rs| && rs[i].partial ==> Span(rs[i]) == 1 && rs[i].order == 0)
  {
    var s := ShapeOf(vmStart, vmEnd, sb, order);
    ShapeIsProper(vmStart, vmEnd, sb, order);
    if forall i :: 0 <= i < |rs| ==> !(rs[i].start <= x < rs[i].end) {
      NoHit(rs, x);
    }
    forall i, j | 0 <= i < j < |rs|
      ensures !(rs[i].start <= x < rs[i].end && rs[j].start <= x < rs[j].end)
    {
      if rs[i].start <= x < rs[i].end && rs[j].start <= x < rs[j].end {
        HitsTwice(rs, i, j, x);
      }
    }
    forall i | 0 <= i < |rs|
      ensures rs[i].order > 0 ==>
        rs[i].start == s.alignedStart && rs[i].end == s.alignedEnd && Span(rs[i]) % Pow2(rs[i].order) == 0
      ensures rs[i].partial ==> Span(rs[i]) == 1 && rs[i].order == 0
    {
      if rs[i].order > 0 {
        BlocksFillTheMiddle(s, rs[i]);
      }
    }
  }
}
