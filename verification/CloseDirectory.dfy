/**
  Closing a vmr: which descriptor groups its close walks, which of them it may release while other views
  of the namespace live on, and when a group's memory is given back.
 */
module CloseDirectory {
  import opened PowerOfTwo
  import opened ViewIntervals
  import opened Regions
  import ViewList

  type Vmr = nat
  type GroupId = nat

  /** A slot names the descriptor at its own position in some group; all slots of a group name one group. */
  type Slot = Option<GroupId>

  datatype Option<T> = None | Some(value: T)

  datatype Desc = Desc(pos: nat, id: GroupId)

  // ---------------------------------------------------------------------------------------------
  // The walk and the release decision

  /** `vmRefcnt`: references left.  The walk range is the closing view in subblocks, rounded out; the release
      range is what no surviving view covers, rounded in, or a query per group when it is not one range. */
  datatype Walk = Walk(vmRefcnt: nat, idxStart: nat, idxEnd: nat, uncStart: nat, uncEnd: nat, perBlock: bool)

  function CeilDiv(x: nat, d: nat): nat
    requires d > 0
  {
    (x + d - 1) / d
  }

  /** The decision `close_and_free_gpas` makes from the views that survive. */
  function PlanWalk(views: seq<View>, view: Interval, vmRefcnt: nat, len: nat, sb: nat): Walk
    requires sb > 0
  {
    if vmRefcnt == 0 then Walk(0, 0, len, 0, 0, false)
    else
      var lo, hi := view.start / sb, CeilDiv(view.end, sb);
      match Uncovered(views, view.start, view.end)
      case Fine(a, b) =>
        if a < b then Walk(vmRefcnt, lo, hi, CeilDiv(a, sb), b / sb, false) else Walk(vmRefcnt, lo, hi, 0, 0, false)
      case Several(_) => Walk(vmRefcnt, lo, hi, 0, 0, true)
  }

  /** Is the group `[h, h + n)` released? */
  ghost predicate Releases(w: Walk, views: seq<View>, sb: nat, h: nat, n: nat) {
    || w.vmRefcnt == 0
    || (if w.perBlock then !Met(views, h * sb, (h + n) * sb) else w.uncStart <= h && h + n <= w.uncEnd)
  }

  /** Is it walked? */
  predicate Walks(w: Walk, h: nat, n: nat) {
    w.idxStart < h + n && h < w.idxEnd
  }

  lemma MulMonotone(a: nat, b: nat, m: nat)
    requires a <= b
    ensures a * m <= b * m
  {
  }

  lemma RoundIn(a: nat, b: nat, h: nat, k: nat, sb: nat)
    requires sb > 0 && CeilDiv(a, sb) <= h && k <= b / sb
    ensures a <= h * sb && k * sb <= b
  {
    var q, p := CeilDiv(a, sb), b / sb;
    assert a + sb - 1 == q * sb + (a + sb - 1) % sb && b == p * sb + b % sb;
    MulMonotone(q, h, sb);
    MulMonotone(k, p, sb);
  }

  /** While views survive, a group is released only if none of them meets any of its pages. */
  lemma ReleaseIsSafe(views: seq<View>, view: Interval, vmRefcnt: nat, len: nat, sb: nat, h: nat, n: nat, p: nat)
    requires WellFormed(views) && view.start < view.end && sb > 0 && vmRefcnt > 0 && n > 0
    requires Releases(PlanWalk(views, view, vmRefcnt, len, sb), views, sb, h, n)
    requires h * sb <= p < (h + n) * sb
    ensures !Seen(views, p)
  {
    UncoveredIsExact(views, view.start, view.end);
    match Uncovered(views, view.start, view.end) {
      case Fine(a, b) =>
        if a < b {
          RoundIn(a, b, h, h + n, sb);
          assert Bare(views, view.start, view.end, p);
        } else {
          assert false;
        }
      case Several(_) =>
        MetIsSeen(views, h * sb, (h + n) * sb);
    }
  }

  lemma RoundInward(a: nat, b: nat, h: nat, k: nat, sb: nat)
    requires sb > 0 && a <= h * sb && k * sb <= b
    ensures CeilDiv(a, sb) <= h && k <= b / sb
  {
    var q, p := CeilDiv(a, sb), b / sb;
    assert a + sb - 1 == q * sb + (a + sb - 1) % sb && b == p * sb + b % sb;
    Distribute(q, h, sb);
    Distribute(k, p, sb);
    if q > h {
      MulMonotone(1, q - h, sb);
    }
    if k > p {
      MulMonotone(1, k - p, sb);
    }
  }

  /** And inside the closing view every group that no surviving view meets is released, whether what is left uncovered
      is one range or several. */
  lemma UnseenIsReleased(views: seq<View>, view: Interval, vmRefcnt: nat, len: nat, sb: nat, h: nat, n: nat)
    requires WellFormed(views) && view.start < view.end && sb > 0 && vmRefcnt > 0 && n > 0
    requires view.start <= h * sb && (h + n) * sb <= view.end
    requires forall x: nat :: h * sb <= x < (h + n) * sb ==> !Seen(views, x)
    ensures Releases(PlanWalk(views, view, vmRefcnt, len, sb), views, sb, h, n)
  {
    MulMonotone(h + 1, h + n, sb);
    assert (h + 1) * sb == h * sb + sb;
    UncoveredIsExact(views, view.start, view.end);
    match Uncovered(views, view.start, view.end) {
      case Fine(a, b) =>
        assert Bare(views, view.start, view.end, h * sb);
        assert Bare(views, view.start, view.end, (h + n) * sb - 1);
        RoundInward(a, b, h, h + n, sb);
      case Several(_) =>
        MetIsSeen(views, h * sb, (h + n) * sb);
    }
  }

  lemma RoundOut(x: nat, lo: nat, hi: nat, sb: nat)
    requires sb > 0 && lo <= x < hi
    ensures lo / sb <= x / sb < CeilDiv(hi, sb)
  {
    var q, p, r := lo / sb, x / sb, CeilDiv(hi, sb);
    assert lo == q * sb + lo % sb && x == p * sb + x % sb && hi + sb - 1 == r * sb + (hi + sb - 1) % sb;
    Distribute(p, q, sb);
    Distribute(r, p, sb);
    FactorAbove(p - q, sb);
    FactorAbove(r - p, sb);
  }

  lemma WalkRange(views: seq<View>, view: Interval, vmRefcnt: nat, len: nat, sb: nat)
    requires view.start < view.end && sb > 0 && vmRefcnt > 0
    ensures var w := PlanWalk(views, view, vmRefcnt, len, sb);
            w.idxStart == view.start / sb && w.idxEnd == CeilDiv(view.end, sb)
  {
  }

  lemma StartOfSubblock(start: nat, end: nat, h: nat, sb: nat)
    requires sb > 0 && start / sb < h < CeilDiv(end, sb)
    ensures start <= h * sb < end && h * sb / sb == h
  {
    var lo, hi := start / sb, CeilDiv(end, sb);
    assert start == lo * sb + start % sb && end + sb - 1 == hi * sb + (end + sb - 1) % sb;
    Distribute(h, lo, sb);
    Distribute(hi, h, sb);
    MulMonotone(1, h - lo, sb);
    MulMonotone(1, hi - h, sb);
    QuotientUnique(h * sb, sb, h);
  }

  /** While views survive, only groups with a page of the closing view are walked. */
  lemma WalkMeetsView(views: seq<View>, view: Interval, vmRefcnt: nat, len: nat, sb: nat, h: nat, n: nat) returns (x: nat)
    requires view.start < view.end && sb > 0 && vmRefcnt > 0 && n > 0
    requires Walks(PlanWalk(views, view, vmRefcnt, len, sb), h, n)
    ensures view.start <= x < view.end && h <= x / sb < h + n
  {
    WalkRange(views, view, vmRefcnt, len, sb);
    hide PlanWalk;
    if h <= view.start / sb {
      x := view.start;
    } else {
      StartOfSubblock(view.start, view.end, h, sb);
      x := h * sb;
    }
  }

  lemma FactorAbove(q: int, size: nat)
    requires size > 0
    ensures q * size > 0 - size ==> q >= 0
    ensures q * size > 0 ==> q > 0
  {
  }

  /** Whatever the coverage says, every group with a page of the closing view is walked. */
  lemma EveryPageWalked(views: seq<View>, view: Interval, vmRefcnt: nat, len: nat, sb: nat, h: nat, n: nat, p: nat)
    requires sb > 0 && view.start <= p < view.end && CeilDiv(view.end, sb) <= len
    requires h <= p / sb < h + n
    ensures Walks(PlanWalk(views, view, vmRefcnt, len, sb), h, n)
  {
    RoundOut(p, view.start, view.end, sb);
  }

  /** The last close walks and releases everything. */
  lemma LastCloseReleasesAll(views: seq<View>, view: Interval, len: nat, sb: nat, h: nat, n: nat)
    requires sb > 0 && n > 0 && h + n <= len
    ensures var w := PlanWalk(views, view, 0, len, sb); Walks(w, h, n) && Releases(w, views, sb, h, n)
  {
  }

  // ---------------------------------------------------------------------------------------------
  // The grid

  lemma GridStep(x: nat, size: nat, q: nat)
    requires size > 0 && x == q * size
    ensures (x + size) % size == 0 && x % size == 0
  {
    assert x + size == (q + 1) * size;
    QuotientUnique(x, size, q);
    QuotientUnique(x + size, size, q + 1);
  }

  lemma DownIsMultiple(x: nat, size: nat)
    requires size > 0
    ensures (x - x % size) % size == 0 && x - x % size <= x < x - x % size + size
  {
    var q := x / size;
    assert x == q * size + x % size;
    QuotientUnique(q * size, size, q);
  }

  /** `x & ~(size - 1)` for a power of two. */
  function Down(x: nat, size: nat): nat
    requires size > 0
  {
    DownIsMultiple(x, size);
    x - x % size
  }

  /** Where the clipped walk of a region starts and ends. */
  function ClipStart(r: Region, idxStart: nat): nat {
    if idxStart > r.start then r.start + Down(idxStart - r.start, Pow2(r.order)) else r.start
  }

  function ClipEnd(r: Region, idxEnd: nat): nat
    requires r.start <= idxEnd
  {
    if idxEnd < r.end then
      r.start + Down(idxEnd - r.start + Pow2(r.order) - 1, Pow2(r.order))
    else r.end
  }

  /** Two multiples less than one step apart are the same. */
  lemma MultiplesApart(x: nat, y: nat, size: nat)
    requires size > 0 && x % size == 0 && y % size == 0 && x < y
    ensures x + size <= y
  {
    var p, q := x / size, y / size;
    assert x == p * size && y == q * size;
    Distribute(q, p, size);
    FactorAbove(q - p, size);
    assert q - p >= 1;
    MulMonotone(1, q - p, size);
  }

  lemma FrontOfWalk(r: Region, idxStart: nat, h: nat)
    requires r.start <= h && OnGrid(r, h)
    ensures ClipStart(r, idxStart) <= h <==> idxStart < h + Pow2(r.order)
    ensures OnGrid(r, ClipStart(r, idxStart))
  {
    hide Pow2;
    if idxStart > r.start {
      ClippedFront(h - r.start, idxStart - r.start, Pow2(r.order));
    } else {
      DownIsMultiple(0, Pow2(r.order));
    }
  }

  lemma BackOfWalk(r: Region, idxEnd: nat, h: nat)
    requires r.start <= h < r.end && OnGrid(r, h) && (r.end - r.start) % Pow2(r.order) == 0 && r.start < idxEnd
    ensures h < ClipEnd(r, idxEnd) <==> h < idxEnd
    ensures ClipEnd(r, idxEnd) <= r.end && OnGrid(r, ClipEnd(r, idxEnd))
  {
    hide Pow2;
    if idxEnd < r.end {
      ClippedBack(h - r.start, idxEnd - r.start, r.end - r.start, Pow2(r.order));
    }
  }

  /** The clipped walk visits exactly the groups of the region that meet the walk range. */
  lemma ClippedWalk(r: Region, w: Walk, h: nat)
    requires r.start <= h < r.end && OnGrid(r, h) && (r.end - r.start) % Pow2(r.order) == 0 && r.start < w.idxEnd
    ensures ClipStart(r, w.idxStart) <= h < ClipEnd(r, w.idxEnd) <==> Walks(w, h, Pow2(r.order))
  {
    FrontOfWalk(r, w.idxStart, h);
    BackOfWalk(r, w.idxEnd, h);
  }

  lemma ClippedFront(h: nat, x: nat, size: nat)
    requires size > 0 && h % size == 0
    ensures x - x % size <= h <==> x < h + size
    ensures (x - x % size) % size == 0
  {
    DownIsMultiple(x, size);
    var a := x - x % size;
    if a < h {
      MultiplesApart(a, h, size);
    } else if h < a {
      MultiplesApart(h, a, size);
    }
  }

  lemma ClippedBack(h: nat, x: nat, n: nat, size: nat)
    requires size > 0 && h % size == 0 && n % size == 0 && x < n
    ensures var y := x + size - 1; (h < y - y % size <==> h < x) && y - y % size <= n && (y - y % size) % size == 0
  {
    var y := x + size - 1;
    DownIsMultiple(y, size);
    var b := y - y % size;
    if h < b {
      MultiplesApart(h, b, size);
    }
    if n < b {
      MultiplesApart(n, b, size);
    }
  }

  // ---------------------------------------------------------------------------------------------
  // Descriptors

  /** The descriptors, shared by all directories: how many slots name each, which vmrs its mapping records and
      its owner name, and which have been given back. */
  datatype Descs = Descs(refcnt: map<Desc, int>, names: map<Desc, set<Vmr>>, freed: set<Desc>)

  function Ref(ds: Descs, d: Desc): int {
    if d in ds.refcnt then ds.refcnt[d] else 0
  }

  function Names(ds: Descs, d: Desc): set<Vmr> {
    if d in ds.names then ds.names[d] else {}
  }

  function Strip(ds: Descs, d: Desc, v: Vmr): Descs {
    ds.(names := ds.names[d := Names(ds, d) - {v}])
  }

  function Drop(ds: Descs, d: Desc): Descs {
    ds.(refcnt := ds.refcnt[d := Ref(ds, d) - 1])
  }

  predicate InGroup(d: Desc, id: GroupId, h: nat, n: nat) {
    d.id == id && h <= d.pos < h + n
  }

  /** What putting a group does to the descriptors. */
  ghost predicate GroupPut(a: Descs, b: Descs, v: Vmr, id: GroupId, h: nat, n: nat, release: bool) {
    && (forall d: Desc :: Ref(b, d) == Ref(a, d) - if release && InGroup(d, id, h, n) then 1 else 0)
    && (forall d: Desc :: Names(b, d) == if InGroup(d, id, h, n) then Names(a, d) - {v} else Names(a, d))
    && (forall d: Desc :: d in b.freed <==>
          d in a.freed || (release && InGroup(d, id, h, n) && Ref(a, Desc(h, id)) == 1))
  }

  function GroupSet(id: GroupId, h: nat, n: nat): (r: set<Desc>)
    ensures forall d: Desc :: d in r <==> InGroup(d, id, h, n)
  {
    if n == 0 then {} else GroupSet(id, h, n - 1) + {Desc(h + n - 1, id)}
  }

  /** What one region's walk does, up to position `hi`, pointwise. */
  ghost predicate Gone(s: Shape, r: Region, w: Walk, views: seq<View>, sb: nat, p: nat) {
    var h := HeadIndex(s, p, r.order);
    r.start <= p < r.end && 0 <= h && Walks(w, h, Pow2(r.order)) && Releases(w, views, sb, h, Pow2(r.order))
  }

  ghost predicate Visited(s: Shape, r: Region, w: Walk, p: nat) {
    var h := HeadIndex(s, p, r.order);
    r.start <= p < r.end && 0 <= h && Walks(w, h, Pow2(r.order))
  }

  predicate Named(dir: seq<Slot>, d: Desc) {
    d.pos < |dir| && dir[d.pos] == Some(d.id)
  }

  predicate SameGroup(s: Shape, r: Region, p: nat, q: nat) {
    r.start <= p < r.end && r.start <= q < r.end && HeadIndex(s, p, r.order) == HeadIndex(s, q, r.order)
  }

  /** Members of a group share their slots' contents, and their counts. */
  ghost predicate GroupsWhole(s: Shape, r: Region, dir: seq<Slot>, ds: Descs) {
    && r.end <= |dir|
    && forall p: nat, q: nat ::
         SameGroup(s, r, p, q) ==>
           dir[p] == dir[q] && (dir[p].Some? ==> Ref(ds, Desc(p, dir[p].value)) == Ref(ds, Desc(q, dir[p].value)))
  }

  /** What the walk of a region has done up to position `hi`: slots released, records stripped, references
      dropped, groups given back. */
  ghost predicate RegionDone(s: Shape, r: Region, w: Walk, views: seq<View>, sb: nat, v: Vmr, hi: nat,
      dir0: seq<Slot>, ds0: Descs, dir: seq<Slot>, ds: Descs)
  {
    && |dir| == |dir0|
    && (forall p :: 0 <= p < |dir| ==> dir[p] == if p < hi && Gone(s, r, w, views, sb, p) then None else dir0[p])
    && (forall d: Desc :: Ref(ds, d) ==
          Ref(ds0, d) - if Named(dir0, d) && d.pos < hi && Gone(s, r, w, views, sb, d.pos) then 1 else 0)
    && (forall d: Desc :: Names(ds, d) ==
          if Named(dir0, d) && d.pos < hi && Visited(s, r, w, d.pos) then Names(ds0, d) - {v} else Names(ds0, d))
    && (forall d: Desc :: d in ds.freed <==>
          d in ds0.freed || (Named(dir0, d) && d.pos < hi && Gone(s, r, w, views, sb, d.pos) && Ref(ds0, d) == 1))
  }

  /** A group of the grid is the positions that derive its head. */
  lemma GroupIsRange(s: Shape, r: Region, h: nat, p: nat)
    requires ProperShape(s) && Cut(s, r) && r.start <= h < r.end && OnGrid(r, h) && r.start <= p < r.end
    ensures HeadIndex(s, p, r.order) == h <==> h <= p < h + Pow2(r.order)
    ensures h + Pow2(r.order) <= r.end
  {
    hide Cut, ProperShape, Pow2;
    GroupInsideRegion(s, r, p);
    GroupInsideRegion(s, r, h);
    var g, size := HeadIndex(s, p, r.order), Pow2(r.order);
    if g < h {
      MultiplesApart(g - r.start, h - r.start, size);
    } else if h < g {
      MultiplesApart(h - r.start, g - r.start, size);
    }
    var k := HeadIndex(s, h, r.order);
    if k < h {
      MultiplesApart(k - r.start, h - r.start, size);
    }
  }

  /** Before the clipped walk nothing is visited, and after it nothing more. */
  lemma NotVisited(s: Shape, r: Region, w: Walk, p: nat)
    requires ProperShape(s) && Cut(s, r) && r.start <= p < r.end && r.start < w.idxEnd
    ensures Visited(s, r, w, p) <==> ClipStart(r, w.idxStart) <= HeadIndex(s, p, r.order) < ClipEnd(r, w.idxEnd)
  {
    hide Pow2;
    GroupInsideRegion(s, r, p);
    RegionIsWhole(s, r);
    ClippedWalk(r, w, HeadIndex(s, p, r.order));
  }

  lemma RegionIsWhole(s: Shape, r: Region)
    requires ProperShape(s) && Cut(s, r)
    ensures (r.end - r.start) % Pow2(r.order) == 0
  {
    if r.order > 0 {
      BlocksFillTheMiddle(s, r);
    } else {
      assert Pow2(0) == 1;
    }
  }

  /** Facts about the group at `i` when the walk reaches it. */
  lemma AtGroup(s: Shape, r: Region, w: Walk, views: seq<View>, sb: nat, i: nat, p: nat)
    requires ProperShape(s) && Cut(s, r) && OnGrid(r, i) && r.start <= i < r.end && r.start < w.idxEnd
    requires ClipStart(r, w.idxStart) <= i < ClipEnd(r, w.idxEnd) && i <= p < i + Pow2(r.order)
    ensures i + Pow2(r.order) <= r.end && SameGroup(s, r, i, p)
    ensures Visited(s, r, w, p) && (Gone(s, r, w, views, sb, p) <==> Releases(w, views, sb, i, Pow2(r.order)))
  {
    hide Cut, ProperShape, Pow2, Releases;
    GroupIsRange(s, r, i, i);
    GroupIsRange(s, r, i, p);
    NotVisited(s, r, w, p);
  }

  /** The state of the walk, with what surrounds it. */
  ghost predicate Walking(s: Shape, r: Region, w: Walk, i: nat) {
    && ProperShape(s) && Cut(s, r) && OnGrid(r, i) && r.start <= i < r.end && r.start < w.idxEnd
    && ClipStart(r, w.idxStart) <= i < ClipEnd(r, w.idxEnd)
  }

  /** An empty group: nothing names it, so nothing is to be done. */
  lemma SkipStep(s: Shape, r: Region, w: Walk, views: seq<View>, sb: nat, v: Vmr, i: nat,
      dir0: seq<Slot>, ds0: Descs, dir: seq<Slot>, ds: Descs)
    requires Walking(s, r, w, i) && GroupsWhole(s, r, dir0, ds0) && r.end <= |dir0|
    requires RegionDone(s, r, w, views, sb, v, i, dir0, ds0, dir, ds) && dir[i] == None
    ensures RegionDone(s, r, w, views, sb, v, i + Pow2(r.order), dir0, ds0, dir, ds)
  {
    hide Cut, ProperShape, Pow2, Releases, Gone, Visited;
    forall p | i <= p < i + Pow2(r.order)
      ensures p < |dir0| && dir0[p] == None
    {
      AtGroup(s, r, w, views, sb, i, p);
    }
  }

  lemma GroupStep(s: Shape, r: Region, w: Walk, views: seq<View>, sb: nat, v: Vmr, i: nat, id: GroupId, release: bool,
      dir0: seq<Slot>, ds0: Descs, dir: seq<Slot>, ds: Descs, dir1: seq<Slot>, ds1: Descs)
    requires Walking(s, r, w, i) && GroupsWhole(s, r, dir0, ds0) && r.end <= |dir0|
    requires RegionDone(s, r, w, views, sb, v, i, dir0, ds0, dir, ds) && dir[i] == Some(id)
    requires release <==> Releases(w, views, sb, i, Pow2(r.order))
    requires |dir1| == |dir| && GroupPut(ds, ds1, v, id, i, Pow2(r.order), release)
    requires forall p :: 0 <= p < |dir| ==> dir1[p] == if release && i <= p < i + Pow2(r.order) then None else dir[p]
    ensures RegionDone(s, r, w, views, sb, v, i + Pow2(r.order), dir0, ds0, dir1, ds1)
  {
    hide Cut, ProperShape, Pow2, Releases, Gone, Visited;
    forall p | i <= p < i + Pow2(r.order)
      ensures p < |dir0| && dir0[p] == Some(id) && Ref(ds0, Desc(p, id)) == Ref(ds0, Desc(i, id))
      ensures Visited(s, r, w, p) && (Gone(s, r, w, views, sb, p) <==> release)
    {
      AtGroup(s, r, w, views, sb, i, p);
    }
    forall d: Desc
      ensures Named(dir0, d) && i <= d.pos < i + Pow2(r.order) <==> InGroup(d, id, i, Pow2(r.order))
    {
    }
  }

  lemma WholeRegion(s: Shape, r: Region, dir: seq<Slot>, ds: Descs)
    requires ProperShape(s) && Cut(s, r) && GroupsWhole(s, r, dir, ds)
    ensures r.start < r.end <= |dir|
  {
  }

  /** The walk range misses the region. */
  lemma Untouched(s: Shape, r: Region, w: Walk, views: seq<View>, sb: nat, v: Vmr, dir: seq<Slot>, ds: Descs, hi: nat)
    requires ProperShape(s) && Cut(s, r) && (w.idxEnd <= r.start || w.idxStart >= r.end)
    ensures RegionDone(s, r, w, views, sb, v, hi, dir, ds, dir, ds)
  {
    hide Cut, ProperShape, Pow2, Releases;
    forall p: nat
      ensures !Visited(s, r, w, p)
    {
      if r.start <= p < r.end {
        GroupInsideRegion(s, r, p);
      }
    }
    assert forall p: nat :: Gone(s, r, w, views, sb, p) ==> Visited(s, r, w, p);
  }

  /** Nothing before the clipped start is visited. */
  lemma WalkEnds(s: Shape, r: Region, w: Walk, views: seq<View>, sb: nat, v: Vmr, dir: seq<Slot>, ds: Descs)
    requires ProperShape(s) && Cut(s, r) && r.start < w.idxEnd && w.idxStart < r.end
    ensures var i := ClipStart(r, w.idxStart);
            && OnGrid(r, i) && r.start <= i < r.end && ClipEnd(r, w.idxEnd) <= r.end
            && RegionDone(s, r, w, views, sb, v, i, dir, ds, dir, ds)
  {
    hide Cut, ProperShape, Pow2, Releases;
    var i := ClipStart(r, w.idxStart);
    RegionStartsOnGrid(s, r);
    FrontOfWalk(r, w.idxStart, r.start);
    BackOfWalk(r, w.idxEnd, r.start);
    DownIsMultiple(if w.idxStart > r.start then w.idxStart - r.start else 0, Pow2(r.order));
    forall p: nat | p < i
      ensures !Visited(s, r, w, p)
    {
      if r.start <= p < r.end {
        NotVisited(s, r, w, p);
        GroupInsideRegion(s, r, p);
      }
    }
    assert forall p: nat :: Gone(s, r, w, views, sb, p) ==> Visited(s, r, w, p);
  }

  lemma RegionStartsOnGrid(s: Shape, r: Region)
    requires ProperShape(s) && Cut(s, r)
    ensures OnGrid(r, r.start) && r.start < r.end && (r.end - r.start) % Pow2(r.order) == 0
  {
    RegionIsWhole(s, r);
  }

  lemma GroupIsNamed(s: Shape, r: Region, w: Walk, views: seq<View>, sb: nat, v: Vmr, i: nat,
      dir0: seq<Slot>, ds0: Descs, dir: seq<Slot>, ds: Descs)
    requires Walking(s, r, w, i) && GroupsWhole(s, r, dir0, ds0) && r.end <= |dir0|
    requires RegionDone(s, r, w, views, sb, v, i, dir0, ds0, dir, ds)
    ensures i + Pow2(r.order) <= |dir| && forall p :: i <= p < i + Pow2(r.order) ==> dir[p] == dir[i]
  {
    hide Cut, ProperShape, Pow2, Releases, Gone, Visited;
    AtGroup(s, r, w, views, sb, i, i);
    forall p | i <= p < i + Pow2(r.order)
      ensures dir[p] == dir[i]
    {
      AtGroup(s, r, w, views, sb, i, p);
    }
  }

  lemma NextGroup(r: Region, i: nat)
    requires OnGrid(r, i)
    ensures OnGrid(r, i + Pow2(r.order))
  {
    var x, size := i - r.start, Pow2(r.order);
    var q := x / size;
    assert x == q * size;
    GridStep(x, size, q);
  }

  /** Nothing from the clipped end on is visited. */
  lemma Finished(s: Shape, r: Region, w: Walk, views: seq<View>, sb: nat, v: Vmr, i: nat,
      dir0: seq<Slot>, ds0: Descs, dir: seq<Slot>, ds: Descs)
    requires ProperShape(s) && Cut(s, r) && r.start < w.idxEnd && ClipEnd(r, w.idxEnd) <= i && OnGrid(r, i)
    requires RegionDone(s, r, w, views, sb, v, i, dir0, ds0, dir, ds)
    ensures RegionDone(s, r, w, views, sb, v, r.end, dir0, ds0, dir, ds)
  {
    hide Cut, ProperShape, Pow2, Releases;
    forall p: nat | i <= p
      ensures !Visited(s, r, w, p)
    {
      if r.start <= p < r.end {
        NotVisited(s, r, w, p);
        GroupInsideRegion(s, r, p);
        LaterGroup(s, r, i, p);
      }
    }
    assert forall p: nat :: Gone(s, r, w, views, sb, p) ==> Visited(s, r, w, p);
    hide Gone, Visited;
  }

  lemma LaterGroup(s: Shape, r: Region, i: nat, p: nat)
    requires ProperShape(s) && Cut(s, r) && OnGrid(r, i) && r.start <= i <= p < r.end
    ensures i <= HeadIndex(s, p, r.order)
  {
    hide Cut, ProperShape, Pow2;
    GroupInsideRegion(s, r, p);
    var h := HeadIndex(s, p, r.order);
    if h < i {
      MultiplesApart(h - r.start, i - r.start, Pow2(r.order));
    }
  }

  // ---------------------------------------------------------------------------------------------
  // All regions

  predicate Holds(r: Region, p: nat) {
    r.start <= p < r.end
  }

  ghost predicate Apart(rs: seq<Region>) {
    forall i, j, p: nat :: 0 <= i < j < |rs| && Holds(rs[i], p) ==> !Holds(rs[j], p)
  }

  lemma RegionsAreApart(s: Shape, rs: seq<Region>)
    requires RegionsOf(s, rs)
    ensures Apart(rs)
  {
    forall i, j, p: nat | 0 <= i < j < |rs| && Holds(rs[i], p)
      ensures !Holds(rs[j], p)
    {
      if Holds(rs[j], p) {
        HitsTwice(rs, i, j, p);
      }
    }
  }

  /** A directory over its regions: each group named whole, and its members counted alike. */
  ghost predicate Consistent(s: Shape, rs: seq<Region>, dir: seq<Slot>, ds: Descs) {
    && ProperShape(s) && Apart(rs) && |dir| == s.len
    && (forall i :: 0 <= i < |rs| ==> Cut(s, rs[i]) && GroupsWhole(s, rs[i], dir, ds))
  }

  ghost predicate GoneBy(s: Shape, rs: seq<Region>, k: nat, w: Walk, views: seq<View>, sb: nat, p: nat) {
    exists j :: 0 <= j < k && j < |rs| && Gone(s, rs[j], w, views, sb, p)
  }

  ghost predicate VisitedBy(s: Shape, rs: seq<Region>, k: nat, w: Walk, p: nat) {
    exists j :: 0 <= j < k && j < |rs| && Visited(s, rs[j], w, p)
  }

  /** What walking the first `k` regions has done, pointwise. */
  ghost predicate AllDone(s: Shape, rs: seq<Region>, w: Walk, views: seq<View>, sb: nat, v: Vmr, k: nat,
      dir0: seq<Slot>, ds0: Descs, dir: seq<Slot>, ds: Descs)
  {
    && |dir| == |dir0|
    && (forall p :: 0 <= p < |dir| ==> dir[p] == if GoneBy(s, rs, k, w, views, sb, p) then None else dir0[p])
    && (forall d: Desc :: Ref(ds, d) ==
          Ref(ds0, d) - if Named(dir0, d) && GoneBy(s, rs, k, w, views, sb, d.pos) then 1 else 0)
    && (forall d: Desc :: Names(ds, d) ==
          if Named(dir0, d) && VisitedBy(s, rs, k, w, d.pos) then Names(ds0, d) - {v} else Names(ds0, d))
    && (forall d: Desc :: d in ds.freed <==>
          d in ds0.freed || (Named(dir0, d) && GoneBy(s, rs, k, w, views, sb, d.pos) && Ref(ds0, d) == 1))
  }

  lemma NothingDone(s: Shape, rs: seq<Region>, w: Walk, views: seq<View>, sb: nat, v: Vmr, dir: seq<Slot>, ds: Descs)
    ensures AllDone(s, rs, w, views, sb, v, 0, dir, ds, dir, ds)
  {
  }

  lemma NotYet(s: Shape, rs: seq<Region>, k: nat, w: Walk, views: seq<View>, sb: nat, p: nat)
    requires Apart(rs) && k < |rs| && rs[k].start <= p < rs[k].end
    ensures !GoneBy(s, rs, k, w, views, sb, p) && !VisitedBy(s, rs, k, w, p)
  {
    forall j | 0 <= j < k
      ensures !Visited(s, rs[j], w, p) && !Gone(s, rs[j], w, views, sb, p)
    {
      assert Holds(rs[k], p);
      assert !Holds(rs[j], p);
    }
  }

  lemma RegionStillWhole(s: Shape, rs: seq<Region>, w: Walk, views: seq<View>, sb: nat, v: Vmr, k: nat,
      dir0: seq<Slot>, ds0: Descs, dir: seq<Slot>, ds: Descs)
    requires Consistent(s, rs, dir0, ds0) && k < |rs| && AllDone(s, rs, w, views, sb, v, k, dir0, ds0, dir, ds)
    ensures GroupsWhole(s, rs[k], dir, ds) && Cut(s, rs[k])
  {
    hide Cut, ProperShape, GoneBy, VisitedBy, Apart;
    var r := rs[k];
    assert GroupsWhole(s, r, dir0, ds0) && Cut(s, r);
    forall p: nat | r.start <= p < r.end
      ensures !GoneBy(s, rs, k, w, views, sb, p)
    {
      NotYet(s, rs, k, w, views, sb, p);
    }
  }

  lemma OneMore(s: Shape, rs: seq<Region>, k: nat, w: Walk, views: seq<View>, sb: nat, p: nat)
    requires k < |rs|
    ensures GoneBy(s, rs, k + 1, w, views, sb, p) <==> GoneBy(s, rs, k, w, views, sb, p) || Gone(s, rs[k], w, views, sb, p)
    ensures VisitedBy(s, rs, k + 1, w, p) <==> VisitedBy(s, rs, k, w, p) || Visited(s, rs[k], w, p)
    ensures Apart(rs) && Visited(s, rs[k], w, p) ==> !GoneBy(s, rs, k, w, views, sb, p) && !VisitedBy(s, rs, k, w, p)
    ensures Gone(s, rs[k], w, views, sb, p) ==> Visited(s, rs[k], w, p)
    ensures Visited(s, rs[k], w, p) ==> p < rs[k].end
  {
    if Visited(s, rs[k], w, p) && Apart(rs) {
      NotYet(s, rs, k, w, views, sb, p);
    }
  }

  lemma AnotherRegion(s: Shape, rs: seq<Region>, w: Walk, views: seq<View>, sb: nat, v: Vmr, k: nat,
      dir0: seq<Slot>, ds0: Descs, dir: seq<Slot>, ds: Descs, dir1: seq<Slot>, ds1: Descs)
    requires Apart(rs) && k < |rs|
    requires AllDone(s, rs, w, views, sb, v, k, dir0, ds0, dir, ds)
    requires RegionDone(s, rs[k], w, views, sb, v, rs[k].end, dir, ds, dir1, ds1)
    ensures AllDone(s, rs, w, views, sb, v, k + 1, dir0, ds0, dir1, ds1)
  {
    hide GoneBy, VisitedBy, Gone, Visited, Apart;
    forall p: nat
      ensures GoneBy(s, rs, k + 1, w, views, sb, p) <==> GoneBy(s, rs, k, w, views, sb, p) || Gone(s, rs[k], w, views, sb, p)
      ensures VisitedBy(s, rs, k + 1, w, p) <==> VisitedBy(s, rs, k, w, p) || Visited(s, rs[k], w, p)
      ensures Visited(s, rs[k], w, p) ==> !GoneBy(s, rs, k, w, views, sb, p) && !VisitedBy(s, rs, k, w, p)
      ensures Gone(s, rs[k], w, views, sb, p) ==> Visited(s, rs[k], w, p)
      ensures Visited(s, rs[k], w, p) ==> p < rs[k].end
    {
      OneMore(s, rs, k, w, views, sb, p);
    }
  }

  // ---------------------------------------------------------------------------------------------
  // What of a group under the closing view goes

  /** Page `x` of the namespace lies in the group of position `p`. */
  predicate PageOfGroup(s: Shape, r: Region, sb: nat, p: nat, x: nat)
    requires sb > 0
  {
    SameGroup(s, r, p, x / sb)
  }

  ghost predicate GroupInView(s: Shape, r: Region, view: Interval, sb: nat, p: nat)
    requires sb > 0
  {
    forall x: nat :: PageOfGroup(s, r, sb, p, x) ==> view.start <= x < view.end
  }

  ghost predicate GroupSeen(s: Shape, r: Region, views: seq<View>, sb: nat, p: nat)
    requires sb > 0
  {
    exists x: nat :: PageOfGroup(s, r, sb, p, x) && Seen(views, x)
  }

  lemma SubblockRange(h: nat, k: nat, x: nat, sb: nat)
    requires sb > 0
    ensures h <= x / sb < k <==> h * sb <= x < k * sb
  {
    var q := x / sb;
    assert x == q * sb + x % sb;
    Distribute(q, h, sb);
    Distribute(k, q, sb);
    FactorAbove(q - h, sb);
    FactorAbove(k - q, sb);
    MulMonotone(0, if q >= h then q - h else 0, sb);
    MulMonotone(1, if k > q then k - q else 1, sb);
  }

  /** The pages of a group are one range. */
  lemma PagesOfGroup(s: Shape, r: Region, sb: nat, p: nat, x: nat)
    requires ProperShape(s) && Cut(s, r) && Holds(r, p) && sb > 0
    ensures var h := HeadIndex(s, p, r.order);
            && 0 <= h && Holds(r, h)
            && (PageOfGroup(s, r, sb, p, x) <==> h * sb <= x < (h + Pow2(r.order)) * sb)
  {
    hide Cut, ProperShape, Pow2, HeadIndex;
    GroupInsideRegion(s, r, p);
    var h, n, q := HeadIndex(s, p, r.order), Pow2(r.order), x / sb;
    SubblockRange(h, h + n, x, sb);
    if h <= q < h + n {
      GroupMembersAgree(s, r, p, q);
    } else if Holds(r, q) {
      GroupInsideRegion(s, r, q);
    }
  }

  lemma PagesFill(s: Shape, r: Region, view: Interval, sb: nat, p: nat)
    requires ProperShape(s) && Cut(s, r) && Holds(r, p) && sb > 0 && GroupInView(s, r, view, sb, p)
    ensures var h, n := HeadIndex(s, p, r.order), Pow2(r.order);
            && 0 <= h && n > 0 && view.start <= h * sb < (h + n) * sb <= view.end
            && forall x: nat :: PageOfGroup(s, r, sb, p, x) <==> h * sb <= x < (h + n) * sb
  {
    hide Cut, ProperShape, PageOfGroup, Pow2;
    GroupInsideRegion(s, r, p);
    var h, n := HeadIndex(s, p, r.order), Pow2(r.order);
    forall x: nat
      ensures PageOfGroup(s, r, sb, p, x) <==> h * sb <= x < (h + n) * sb
    {
      PagesOfGroup(s, r, sb, p, x);
    }
    Distribute(h + n, h, sb);
    MulMonotone(1, n, sb);
    assert PageOfGroup(s, r, sb, p, h * sb) && PageOfGroup(s, r, sb, p, (h + n) * sb - 1);
  }

  /** Inside the closing view a group goes exactly when no surviving view meets it. */
  lemma GoneIff(s: Shape, r: Region, views: seq<View>, view: Interval, left: nat, len: nat, sb: nat, p: nat)
    requires ProperShape(s) && Cut(s, r) && Holds(r, p)
    requires WellFormed(views) && view.start < view.end && sb > 0 && left > 0 && GroupInView(s, r, view, sb, p)
    ensures Gone(s, r, PlanWalk(views, view, left, len, sb), views, sb, p) <==> !GroupSeen(s, r, views, sb, p)
  {
    PagesFill(s, r, view, sb, p);
    var h, n := HeadIndex(s, p, r.order), Pow2(r.order);
    hide Cut, ProperShape, WellFormed, PageOfGroup, PlanWalk, Releases, Pow2, HeadIndex, Walks, GroupInView, Seen;
    WalksInside(views, view, left, len, sb, h, n);
    if Releases(PlanWalk(views, view, left, len, sb), views, sb, h, n) {
      forall x: nat | PageOfGroup(s, r, sb, p, x)
        ensures !Seen(views, x)
      {
        ReleaseIsSafe(views, view, left, len, sb, h, n, x);
      }
    } else if !GroupSeen(s, r, views, sb, p) {
      forall x: nat | h * sb <= x < (h + n) * sb
        ensures !Seen(views, x)
      {
        assert PageOfGroup(s, r, sb, p, x);
      }
      UnseenIsReleased(views, view, left, len, sb, h, n);
    }
  }

  lemma WalksInside(views: seq<View>, view: Interval, left: nat, len: nat, sb: nat, h: nat, n: nat)
    requires sb > 0 && left > 0 && n > 0 && view.start <= h * sb < view.end
    ensures Walks(PlanWalk(views, view, left, len, sb), h, n)
  {
    WalkRange(views, view, left, len, sb);
    RoundOut(h * sb, view.start, view.end, sb);
    QuotientUnique(h * sb, sb, h);
    hide PlanWalk;
  }

  /** What a close does while views survive, told by pages: of the groups inside the closing view it clears the slots of
      those no surviving view meets, and of no others; and a reference is dropped exactly with its slot. */
  lemma ClearedIff(s: Shape, rs: seq<Region>, views: seq<View>, view: Interval, left: nat, sb: nat, v: Vmr,
      dir0: seq<Slot>, ds0: Descs, dir: seq<Slot>, ds: Descs, i: nat, p: nat)
    requires Consistent(s, rs, dir0, ds0) && WellFormed(views) && view.start < view.end && sb > 0 && left > 0
    requires AllDone(s, rs, PlanWalk(views, view, left, |dir0|, sb), views, sb, v, |rs|, dir0, ds0, dir, ds)
    requires i < |rs| && p < |dir0| && dir0[p].Some? && Holds(rs[i], p) && GroupInView(s, rs[i], view, sb, p)
    ensures |dir| == |dir0| && (dir[p] == None <==> !GroupSeen(s, rs[i], views, sb, p))
  {
    var w := PlanWalk(views, view, left, |dir0|, sb);
    assert ProperShape(s) && Cut(s, rs[i]);
    GoneIff(s, rs[i], views, view, left, |dir0|, sb, p);
    hide Cut, ProperShape, WellFormed, PlanWalk, GroupsWhole, GroupInView, GroupSeen;
    if GoneBy(s, rs, |rs|, w, views, sb, p) {
      var j :| 0 <= j < |rs| && Gone(s, rs[j], w, views, sb, p);
      assert Holds(rs[j], p);
    }
  }

  lemma DroppedWithSlot(s: Shape, rs: seq<Region>, w: Walk, views: seq<View>, sb: nat, v: Vmr,
      dir0: seq<Slot>, ds0: Descs, dir: seq<Slot>, ds: Descs)
    requires AllDone(s, rs, w, views, sb, v, |rs|, dir0, ds0, dir, ds)
    ensures forall d: Desc :: Ref(ds, d) == Ref(ds0, d) - if Named(dir0, d) && !Named(dir, d) then 1 else 0
  {
    hide GoneBy, VisitedBy, Ref;
  }

  class Vmdesc {
    const shape: Shape
    const regions: seq<Region>
    const sb: nat
    var dir: seq<Slot>
    var descs: Descs   // the descriptors this directory names, and those of its forks

    constructor (s: Shape, rs: seq<Region>, size: nat, slots: seq<Slot>, d: Descs)
      ensures shape == s && regions == rs && sb == size && dir == slots && descs == d
    {
      shape, regions, sb, dir, descs := s, rs, size, slots, d;
    }

    /** Strips `v` off every member of the group; a released group also leaves its slots one after the other, and is
        given back when that was its last directory.  `taken`: how many slots could be taken before an empty one. */
    method PutGroup(v: Vmr, id: GroupId, h: nat, n: nat, release: bool) returns (taken: nat)
      requires n > 0 && h + n <= |dir|
      modifies `dir, `descs
      ensures taken <= n && (taken < n ==> release && old(dir)[h + taken] == None)
      ensures release ==> forall p :: h <= p < h + taken ==> old(dir)[p].Some?
      ensures |dir| == old(|dir|)
      ensures forall p :: 0 <= p < |dir| ==> dir[p] == if release && h <= p < h + taken then None else old(dir)[p]
      ensures forall d: Desc ::
        Ref(descs, d) == Ref(old(descs), d) - if release && h <= d.pos < h + taken && Named(old(dir), d) then 1 else 0
      ensures (forall p :: h <= p < h + n ==> old(dir)[p] == Some(id)) ==>
                taken == n && GroupPut(old(descs), descs, v, id, h, n, release)
    {
      var refcnt := Ref(descs, Desc(h, id)) - if release then 1 else 0;
      var k := 0;
      while k < n
        invariant 0 <= k <= n && |dir| == old(|dir|)
        invariant release ==> forall p :: h <= p < h + k ==> old(dir)[p].Some?
        invariant forall p :: 0 <= p < |dir| ==> dir[p] == if release && h <= p < h + k then None else old(dir)[p]
        invariant forall d: Desc ::
          Ref(descs, d) == Ref(old(descs), d) - if release && h <= d.pos < h + k && Named(old(dir), d) then 1 else 0
        invariant forall d: Desc ::
          Names(descs, d) == if InGroup(d, id, h, k) then Names(old(descs), d) - {v} else Names(old(descs), d)
        invariant descs.freed == old(descs).freed
      {
        descs := Strip(descs, Desc(h + k, id), v);
        if release {
          if dir[h + k] == None {
            return k;
          }
          descs := Drop(descs, Desc(h + k, dir[h + k].value));
          dir := dir[h + k := None];
        }
        k := k + 1;
      }
      if release && refcnt == 0 {
        descs := descs.(freed := descs.freed + GroupSet(id, h, n));
      }
      taken := n;
    }

    /** Walks one region's groups that meet the walk range. */
    method FreeRegion(ri: nat, v: Vmr, w: Walk, list: ViewList.Vmdesc)
      requires list.Valid() && ri < |regions| && ProperShape(shape) && Cut(shape, regions[ri]) && sb > 0
      requires GroupsWhole(shape, regions[ri], dir, descs)
      modifies `dir, `descs
      ensures RegionDone(shape, regions[ri], w, list.Views(), sb, v, regions[ri].end, old(dir), old(descs), dir, descs)
    {
      hide Cut, ProperShape, RegionDone, GroupsWhole, GroupPut, WellFormed, Met, ClipStart, ClipEnd, Pow2, OnGrid, Gone, Visited, Named, Ref, Names;
      var r := regions[ri];
      ghost var views := list.Views();
      RegionIsWhole(shape, r);
      WholeRegion(shape, r, dir, descs);
      if w.idxEnd <= r.start || w.idxStart >= r.end {
        Untouched(shape, r, w, views, sb, v, dir, descs, r.end);
        return;
      }
      var n := Pow2(r.order);
      var i, end := ClipStart(r, w.idxStart), ClipEnd(r, w.idxEnd);
      WalkEnds(shape, r, w, views, sb, v, dir, descs);
      while i < end
        invariant OnGrid(r, i) && r.start <= i && (i < end ==> i < r.end) && ClipStart(r, w.idxStart) <= i
        invariant RegionDone(shape, r, w, views, sb, v, i, old(dir), old(descs), dir, descs) && |dir| == old(|dir|)
        invariant list.Valid() && list.Views() == views
        decreases end - i
      {
        assert Walking(shape, r, w, i);
        if dir[i] == None {
          SkipStep(shape, r, w, views, sb, v, i, old(dir), old(descs), dir, descs);
        } else {
          var release := w.vmRefcnt == 0;
          if w.vmRefcnt > 0 {
            if w.perBlock {
              var covered := list.IsCovered(i * sb, (i + n) * sb);
              release := !covered;
            } else {
              release := w.uncStart <= i && i + n <= w.uncEnd;
            }
          }
          ghost var dir1, descs1 := dir, descs;
          GroupIsNamed(shape, r, w, views, sb, v, i, old(dir), old(descs), dir, descs);
          var _ := PutGroup(v, dir[i].value, i, n, release);
          GroupStep(shape, r, w, views, sb, v, i, dir1[i].value, release, old(dir), old(descs), dir1, descs1, dir, descs);
        }
        NextGroup(r, i);
        i := i + n;
      }
      Finished(shape, r, w, views, sb, v, i, old(dir), old(descs), dir, descs);
    }

    /** Walks every region. */
    method WalkRegions(v: Vmr, w: Walk, list: ViewList.Vmdesc)
      requires list.Valid() && sb > 0 && Consistent(shape, regions, dir, descs)
      modifies `dir, `descs
      ensures AllDone(shape, regions, w, list.Views(), sb, v, |regions|, old(dir), old(descs), dir, descs)
    {
      hide Cut, ProperShape, RegionDone, GroupsWhole, WellFormed;
      ghost var views := list.Views();
      NothingDone(shape, regions, w, views, sb, v, dir, descs);
      var ri := 0;
      while ri < |regions|
        invariant 0 <= ri <= |regions| && list.Valid() && list.Views() == views
        invariant AllDone(shape, regions, w, views, sb, v, ri, old(dir), old(descs), dir, descs)
      {
        ghost var dir1, descs1 := dir, descs;
        RegionStillWhole(shape, regions, w, views, sb, v, ri, old(dir), old(descs), dir, descs);
        FreeRegion(ri, v, w, list);
        AnotherRegion(shape, regions, w, views, sb, v, ri, old(dir), old(descs), dir1, descs1, dir, descs);
        ri := ri + 1;
      }
    }

    /** The whole close: the view and the reference go first, then the directory is walked with what the
        surviving views say. */
    method Close(v: Vmr, view: Interval, refcount: nat, list: ViewList.Vmdesc) returns (left: nat, w: Walk)
      requires list.Valid() && sb > 0 && Consistent(shape, regions, dir, descs)
      requires refcount > 0 && view.start < view.end
      modifies this, list, list.nodes
      ensures list.Valid() && list.Views() == Deleted(old(list.Views()), view) && left == refcount - 1
      ensures w == PlanWalk(list.Views(), view, left, |old(dir)|, sb)
      ensures AllDone(shape, regions, w, list.Views(), sb, v, |regions|, old(dir), old(descs), dir, descs)
      ensures forall d: Desc ::
        Ref(descs, d) == Ref(old(descs), d) - if Named(old(dir), d) && !Named(dir, d) then 1 else 0
      ensures left > 0 ==> forall i: nat, p: nat ::
        i < |regions| && p < |old(dir)| && old(dir)[p].Some? && Holds(regions[i], p) && GroupInView(shape, regions[i], view, sb, p) ==>
          |dir| == |old(dir)| && (dir[p] == None <==> !GroupSeen(shape, regions[i], list.Views(), sb, p))
    {
      hide Consistent, AllDone, Deleted, PlanWalk, ViewList.Vmdesc.Valid, ViewList.Vmdesc.Views, ViewList.Vmdesc.CutOut;
      var _ := list.Del(view.start, view.end);
      left := refcount - 1;
      w := Plan(view, left, list);
      WalkRegions(v, w, list);
      DroppedWithSlot(shape, regions, w, list.Views(), sb, v, old(dir), old(descs), dir, descs);
      ViewsAreOrdered(list);
      AllCleared(list.Views(), view, left, v, old(dir), old(descs), dir, descs);
    }

    static lemma ViewsAreOrdered(list: ViewList.Vmdesc)
      requires list.Valid()
      ensures WellFormed(list.Views())
    {
    }

    lemma AllCleared(views: seq<View>, view: Interval, left: nat, v: Vmr,
        dir0: seq<Slot>, ds0: Descs, dir1: seq<Slot>, ds1: Descs)
      requires Consistent(shape, regions, dir0, ds0) && WellFormed(views) && view.start < view.end && sb > 0
      requires AllDone(shape, regions, PlanWalk(views, view, left, |dir0|, sb), views, sb, v, |regions|, dir0, ds0, dir1, ds1)
      ensures left > 0 ==> forall i: nat, p: nat ::
        i < |regions| && p < |dir0| && dir0[p].Some? && Holds(regions[i], p) && GroupInView(shape, regions[i], view, sb, p) ==>
          |dir1| == |dir0| && (dir1[p] == None <==> !GroupSeen(shape, regions[i], views, sb, p))
    {
      hide Consistent, AllDone, PlanWalk, WellFormed, GroupInView, GroupSeen;
      if left > 0 {
        forall i: nat, p: nat | i < |regions| && p < |dir0| && dir0[p].Some? && Holds(regions[i], p)
            && GroupInView(shape, regions[i], view, sb, p)
          ensures |dir1| == |dir0| && (dir1[p] == None <==> !GroupSeen(shape, regions[i], views, sb, p))
        {
          ClearedIff(shape, regions, views, view, left, sb, v, dir0, ds0, dir1, ds1, i, p);
        }
      }
    }

    method Plan(view: Interval, left: nat, list: ViewList.Vmdesc) returns (w: Walk)
      requires list.Valid() && sb > 0 && view.start < view.end
      ensures w == PlanWalk(list.Views(), view, left, |dir|, sb)
    {
      hide WellFormed, Uncovered;
      if left == 0 {
        return Walk(0, 0, |dir|, 0, 0, false);
      }
      var idxStart, idxEnd := view.start / sb, CeilDiv(view.end, sb);
      var fine, a, b := list.FindUncovered(view.start, view.end);
      if fine && a < b {
        w := Walk(left, idxStart, idxEnd, CeilDiv(a, sb), b / sb, false);
      } else {
        w := Walk(left, idxStart, idxEnd, 0, 0, !fine);
      }
    }
  }
}
