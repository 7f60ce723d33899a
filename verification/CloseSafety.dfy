/**
  What a close does to the namespace, for every directory, every set of surviving views and every cut into
  regions.
 */
module CloseSafety {
  import opened PowerOfTwo
  import opened ViewIntervals
  import opened Regions
  import opened CloseDirectory

  /** The outcome of `Close` on one directory. */
  ghost predicate ClosedBy(s: Shape, rs: seq<Region>, views: seq<View>, view: Interval, left: nat, sb: nat, v: Vmr,
      dir0: seq<Slot>, ds0: Descs, dir: seq<Slot>, ds: Descs)
  {
    && sb > 0 && view.start < view.end && WellFormed(views) && RegionsOf(s, rs) && Consistent(s, rs, dir0, ds0)
    && CeilDiv(view.end, sb) <= s.len
    && AllDone(s, rs, PlanWalk(views, view, left, |dir0|, sb), views, sb, v, |rs|, dir0, ds0, dir, ds)
  }

  /** While other views live, a slot released by the close belongs to a group none of whose pages any surviving
      view covers. */
  lemma ReleasedAreUnseen(s: Shape, rs: seq<Region>, views: seq<View>, view: Interval, left: nat, sb: nat, v: Vmr,
      dir0: seq<Slot>, ds0: Descs, dir: seq<Slot>, ds: Descs, p: nat, q: nat, x: nat)
    requires ClosedBy(s, rs, views, view, left, sb, v, dir0, ds0, dir, ds) && left > 0
    requires p < |dir0| && dir0[p].Some? && dir[p] == None
    requires exists i :: 0 <= i < |rs| && SameGroup(s, rs[i], p, q)
    requires q * sb <= x < (q + 1) * sb
    ensures !Seen(views, x)
  {
    hide AllDone, Cut, ProperShape, WellFormed;
    var w := PlanWalk(views, view, left, |dir0|, sb);
    var i :| 0 <= i < |rs| && SameGroup(s, rs[i], p, q);
    RegionsAreApart(s, rs);
    ReleasedIsGone(s, rs, w, views, sb, v, dir0, ds0, dir, ds, p, i);
    assert Cut(s, rs[i]);
    GroupInsideRegion(s, rs[i], p);
    GroupInsideRegion(s, rs[i], q);
    var h, n := HeadIndex(s, p, rs[i].order), Pow2(rs[i].order);
    MulMonotone(h, q, sb);
    MulMonotone(q + 1, h + n, sb);
    ReleaseIsSafe(views, view, left, |dir0|, sb, h, n, x);
  }

  lemma ReleasedIsGone(s: Shape, rs: seq<Region>, w: Walk, views: seq<View>, sb: nat, v: Vmr,
      dir0: seq<Slot>, ds0: Descs, dir: seq<Slot>, ds: Descs, p: nat, i: nat)
    requires Apart(rs) && AllDone(s, rs, w, views, sb, v, |rs|, dir0, ds0, dir, ds)
    requires p < |dir0| && dir0[p].Some? && dir[p] == None && i < |rs| && Holds(rs[i], p)
    ensures Gone(s, rs[i], w, views, sb, p)
  {
    hide Gone;
    assert GoneBy(s, rs, |rs|, w, views, sb, p);
    var j :| 0 <= j < |rs| && Gone(s, rs[j], w, views, sb, p);
    GoneHolds(s, rs[j], w, views, sb, p);
    OnlyOne(rs, i, j, p);
  }

  lemma GoneHolds(s: Shape, r: Region, w: Walk, views: seq<View>, sb: nat, p: nat)
    requires Gone(s, r, w, views, sb, p)
    ensures Holds(r, p)
  {
  }

  lemma OnlyOne(rs: seq<Region>, i: nat, j: nat, p: nat)
    requires Apart(rs) && i < |rs| && j < |rs| && Holds(rs[i], p) && Holds(rs[j], p)
    ensures i == j
  {
  }

  lemma RegionOfPosition(s: Shape, rs: seq<Region>, p: nat) returns (i: nat)
    requires RegionsOf(s, rs) && p < s.len
    ensures i < |rs| && rs[i].start <= p < rs[i].end && Cut(s, rs[i])
  {
    if forall k :: 0 <= k < |rs| ==> !(rs[k].start <= p < rs[k].end) {
      NoHit(rs, p);
    }
    i :| 0 <= i < |rs| && rs[i].start <= p < rs[i].end;
  }

  /** Whatever is kept, no descriptor under a page of the closing view names the closed vmr afterwards. */
  lemma ClosedVmrIsStripped(s: Shape, rs: seq<Region>, views: seq<View>, view: Interval, left: nat, sb: nat, v: Vmr,
      dir0: seq<Slot>, ds0: Descs, dir: seq<Slot>, ds: Descs, d: Desc, x: nat)
    requires ClosedBy(s, rs, views, view, left, sb, v, dir0, ds0, dir, ds)
    requires Named(dir0, d) && view.start <= x < view.end && x / sb == d.pos
    ensures v !in Names(ds, d)
  {
    var w := PlanWalk(views, view, left, |dir0|, sb);
    var i := RegionOfPosition(s, rs, d.pos);
    GroupInsideRegion(s, rs[i], d.pos);
    EveryPageWalked(views, view, left, |dir0|, sb, HeadIndex(s, d.pos, rs[i].order), Pow2(rs[i].order), x);
    assert Visited(s, rs[i], w, d.pos);
    assert VisitedBy(s, rs, |rs|, w, d.pos);
  }

  /** The last close leaves nothing in the directory, and no descriptor it named names the vmr. */
  lemma LastCloseEmpties(s: Shape, rs: seq<Region>, views: seq<View>, view: Interval, sb: nat, v: Vmr,
      dir0: seq<Slot>, ds0: Descs, dir: seq<Slot>, ds: Descs, p: nat)
    requires ClosedBy(s, rs, views, view, 0, sb, v, dir0, ds0, dir, ds) && p < |dir0|
    ensures dir[p] == None && (dir0[p].Some? ==> v !in Names(ds, Desc(p, dir0[p].value)))
  {
    var w := PlanWalk(views, view, 0, |dir0|, sb);
    var i := RegionOfPosition(s, rs, p);
    GroupInsideRegion(s, rs[i], p);
    LastCloseReleasesAll(views, view, |dir0|, sb, HeadIndex(s, p, rs[i].order), Pow2(rs[i].order));
    assert Gone(s, rs[i], w, views, sb, p) && Visited(s, rs[i], w, p);
    assert GoneBy(s, rs, |rs|, w, views, sb, p) && VisitedBy(s, rs, |rs|, w, p);
  }

  // ---------------------------------------------------------------------------------------------
  // Reference counts over all directories

  /** Directories that name `d`. */
  function Count(dirs: seq<seq<Slot>>, d: Desc): nat {
    if dirs == [] then 0 else Count(dirs[..|dirs| - 1], d) + if Named(dirs[|dirs| - 1], d) then 1 else 0
  }

  ghost predicate Counted(dirs: seq<seq<Slot>>, ds: Descs) {
    forall d: Desc :: Ref(ds, d) == Count(dirs, d)
  }

  lemma {:induction false} CountUpdate(dirs: seq<seq<Slot>>, t: nat, dir: seq<Slot>, d: Desc)
    requires t < |dirs|
    ensures Count(dirs[t := dir], d) == Count(dirs, d)
      - (if Named(dirs[t], d) then 1 else 0) + (if Named(dir, d) then 1 else 0)
    ensures Named(dirs[t], d) ==> Count(dirs, d) > 0
    decreases |dirs|
  {
    var last := |dirs| - 1;
    if t == last {
      assert dirs[t := dir][..last] == dirs[..last];
    } else {
      assert dirs[t := dir][..last] == dirs[..last][t := dir];
      CountUpdate(dirs[..last], t, dir, d);
    }
  }

  /** References keep counting slots, and a descriptor is given back exactly when its last slot goes. */
  lemma FreedWithLastSlot(s: Shape, rs: seq<Region>, views: seq<View>, view: Interval, left: nat, sb: nat, v: Vmr,
      dirs: seq<seq<Slot>>, t: nat, ds0: Descs, dir: seq<Slot>, ds: Descs, d: Desc)
    requires t < |dirs| && Counted(dirs, ds0)
    requires ClosedBy(s, rs, views, view, left, sb, v, dirs[t], ds0, dir, ds)
    ensures Ref(ds, d) == Count(dirs[t := dir], d)
    ensures d !in ds0.freed ==> (d in ds.freed <==> Named(dirs[t], d) && Count(dirs[t := dir], d) == 0)
  {
    CountUpdate(dirs, t, dir, d);
    hide GoneBy, VisitedBy;
  }

  /** A fork copies the slots of its parent and counts them: the counts stay exact. */
  lemma ForkCounts(dirs: seq<seq<Slot>>, parent: nat, child: seq<Slot>, ds0: Descs, ds: Descs)
    requires parent < |dirs| && Counted(dirs, ds0)
    requires |child| == |dirs[parent]| && forall p :: 0 <= p < |child| ==> child[p] == None || child[p] == dirs[parent][p]
    requires forall d: Desc :: Ref(ds, d) == Ref(ds0, d) + if Named(child, d) then 1 else 0
    ensures Counted(dirs + [child], ds)
  {
    assert (dirs + [child])[..|dirs|] == dirs;
  }
}
