/**
  The last close of a directory that may name groups in part.  The walk goes by the first slot of every group: a
  group without it is passed over, and one with it is taken slot by slot, up to an empty one.
 */
module CloseCuts {
  import opened PowerOfTwo
  import opened ViewIntervals
  import opened Regions
  import opened CloseDirectory
  import opened CloseSafety
  import opened CloseRuns
  import opened ForkRange

  // ---------------------------------------------------------------------------------------------
  // The first slot of a group

  ghost predicate LeadsAt(m: Space, i: nat, p: nat, h: nat) {
    i < |m.regions| && Holds(m.regions[i], p) && HeadIndex(m.shape, p, m.regions[i].order) == h
  }

  /** The first slot of the group of `p` is not empty. */
  ghost predicate LeadNamed(m: Space, dir: seq<Slot>, p: nat) {
    exists i: nat, h: nat :: LeadsAt(m, i, p, h) && h < |dir| && dir[h].Some?
  }

  lemma LeadOf(m: Space, p: nat) returns (i: nat, h: nat)
    requires ValidSpace(m) && p < m.shape.len
    ensures LeadsAt(m, i, p, h) && h <= p && Mates(m, h, p)
  {
    i := RegionOfPosition(m.shape, m.regions, p);
    GroupInsideRegion(m.shape, m.regions[i], p);
    h := HeadIndex(m.shape, p, m.regions[i].order);
    GroupMembersAgree(m.shape, m.regions[i], p, h);
    assert SameGroup(m.shape, m.regions[i], h, p);
  }

  /** A position has one group, with one first slot. */
  lemma LeadIs(m: Space, dir: seq<Slot>, i: nat, p: nat, h: nat)
    requires ValidSpace(m) && LeadsAt(m, i, p, h) && h < |dir|
    ensures LeadNamed(m, dir, p) <==> dir[h].Some?
  {
    RegionsAreApart(m.shape, m.regions);
    if LeadNamed(m, dir, p) {
      var j: nat, g: nat :| LeadsAt(m, j, p, g) && g < |dir| && dir[g].Some?;
      OnlyOne(m.regions, i, j, p);
    }
  }

  lemma MatesLead(m: Space, dir: seq<Slot>, p: nat, q: nat)
    requires ValidSpace(m) && |dir| == m.shape.len && Mates(m, p, q)
    ensures LeadNamed(m, dir, p) <==> LeadNamed(m, dir, q)
  {
    MatesInside(m, p, q);
    var i :| 0 <= i < |m.regions| && SameGroup(m.shape, m.regions[i], p, q);
    assert Cut(m.shape, m.regions[i]);
    GroupInsideRegion(m.shape, m.regions[i], p);
    var h := HeadIndex(m.shape, p, m.regions[i].order);
    LeadIs(m, dir, i, p, h);
    LeadIs(m, dir, i, q, h);
  }

  // ---------------------------------------------------------------------------------------------
  // The walk

  /** `p` lies before position `i` of region `ri`, in the order of the walk. */
  ghost predicate Before(m: Space, ri: nat, i: nat, p: nat) {
    exists j: nat :: j < |m.regions| && Holds(m.regions[j], p) && (j < ri || (j == ri && p < i))
  }

  /** Taken so far: walked past, with the first slot of its group there. */
  ghost predicate Taken(m: Space, dir: seq<Slot>, ri: nat, i: nat, p: nat) {
    Before(m, ri, i, p) && LeadNamed(m, dir, p)
  }

  ghost predicate Walking(m: Space, ri: nat, i: nat, dir0: seq<Slot>, ds0: Descs, dir: seq<Slot>, ds: Descs) {
    && |dir| == |dir0| == m.shape.len
    && (forall p: nat :: p < |dir| ==> dir[p] == if Taken(m, dir0, ri, i, p) then None else dir0[p])
    && (forall d: Desc :: Ref(ds, d) == Ref(ds0, d) - if Named(dir0, d) && Taken(m, dir0, ri, i, d.pos) then 1 else 0)
    && (forall p: nat :: p < |dir| && Taken(m, dir0, ri, i, p) ==> dir0[p].Some?)
  }

  /** What the last close does to slots and references, if it gets through. */
  ghost predicate LastWalked(m: Space, dir0: seq<Slot>, ds0: Descs, ok: bool, dir: seq<Slot>, ds: Descs) {
    && |dir| == |dir0| == m.shape.len
    && (ok <==> forall p: nat :: p < |dir0| && LeadNamed(m, dir0, p) ==> dir0[p].Some?)
    && (ok ==> forall p: nat :: p < |dir| ==> dir[p] == if LeadNamed(m, dir0, p) then None else dir0[p])
    && (ok ==> forall d: Desc :: Ref(ds, d) == Ref(ds0, d) - if Named(dir0, d) && LeadNamed(m, dir0, d.pos) then 1 else 0)
  }

  lemma BeforeIs(m: Space, ri: nat, i: nat, p: nat)
    requires ValidSpace(m) && ri < |m.regions| && Holds(m.regions[ri], p)
    ensures Before(m, ri, i, p) <==> p < i
  {
    RegionsAreApart(m.shape, m.regions);
    if Before(m, ri, i, p) {
      var j: nat :| j < |m.regions| && Holds(m.regions[j], p) && (j < ri || (j == ri && p < i));
      OnlyOne(m.regions, ri, j, p);
    }
  }

  lemma BeforeElsewhere(m: Space, ri: nat, i: nat, k: nat, p: nat)
    requires ValidSpace(m) && ri < |m.regions| && !Holds(m.regions[ri], p)
    ensures Before(m, ri, i, p) <==> Before(m, ri, k, p)
  {
    if Before(m, ri, i, p) {
      var j: nat :| j < |m.regions| && Holds(m.regions[j], p) && (j < ri || (j == ri && p < i));
      assert j < ri;
    }
    if Before(m, ri, k, p) {
      var j: nat :| j < |m.regions| && Holds(m.regions[j], p) && (j < ri || (j == ri && p < k));
      assert j < ri;
    }
  }

  /** A group of region `ri` starts at `i`. */
  ghost predicate StartsGroup(m: Space, ri: nat, i: nat) {
    ValidSpace(m) && ri < |m.regions| && OnGrid(m.regions[ri], i) && m.regions[ri].start <= i < m.regions[ri].end
  }

  lemma GroupFitsRegion(m: Space, ri: nat, i: nat)
    requires StartsGroup(m, ri, i)
    ensures i + Pow2(m.regions[ri].order) <= m.regions[ri].end <= m.shape.len
  {
    assert Cut(m.shape, m.regions[ri]);
    GroupIsRange(m.shape, m.regions[ri], i, i);
  }

  lemma RegionGrid(m: Space, ri: nat)
    requires ValidSpace(m) && ri < |m.regions|
    ensures OnGrid(m.regions[ri], m.regions[ri].start)
  {
    assert Cut(m.shape, m.regions[ri]);
    RegionStartsOnGrid(m.shape, m.regions[ri]);
  }

  /** One group on: its members are walked past, and taken if its first slot is there. */
  lemma NextTaken(m: Space, dir: seq<Slot>, ri: nat, i: nat, p: nat)
    requires StartsGroup(m, ri, i)
    requires |dir| == m.shape.len && p < |dir|
    ensures var n := Pow2(m.regions[ri].order);
            && i + n <= |dir|
            && (Taken(m, dir, ri, i + n, p) <==> if i <= p < i + n then dir[i].Some? else Taken(m, dir, ri, i, p))
            && (i <= p < i + n ==> !Taken(m, dir, ri, i, p))
  {
    var r, n := m.regions[ri], Pow2(m.regions[ri].order);
    assert Cut(m.shape, r);
    hide Cut, ProperShape, Pow2, Before, LeadNamed;
    GroupIsRange(m.shape, r, i, i);
    if Holds(r, p) {
      GroupIsRange(m.shape, r, i, p);
      BeforeIs(m, ri, i, p);
      BeforeIs(m, ri, i + n, p);
      if i <= p < i + n {
        LeadIs(m, dir, ri, p, i);
      }
    } else {
      BeforeElsewhere(m, ri, i, i + n, p);
    }
  }

  /** The same for all positions; `k`: where the next group starts. */
  lemma NextTakenAll(m: Space, ri: nat, i: nat, k: nat, dir: seq<Slot>)
    requires StartsGroup(m, ri, i)
    requires |dir| == m.shape.len && k == i + Pow2(m.regions[ri].order)
    ensures i < |dir|
    ensures forall p: nat :: p < |dir| ==>
              (Taken(m, dir, ri, k, p) <==> if i <= p < k then dir[i].Some? else Taken(m, dir, ri, i, p))
    ensures forall p: nat :: p < |dir| && i <= p < k ==> !Taken(m, dir, ri, i, p)
  {
    hide Taken, Pow2, ValidSpace;
    GroupFitsRegion(m, ri, i);
    forall p: nat | p < |dir|
      ensures Taken(m, dir, ri, k, p) <==> if i <= p < k then dir[i].Some? else Taken(m, dir, ri, i, p)
      ensures i <= p < k ==> !Taken(m, dir, ri, i, p)
    {
      NextTaken(m, dir, ri, i, p);
    }
  }

  lemma PassedOver(m: Space, ri: nat, i: nat, k: nat, dir0: seq<Slot>, ds0: Descs, dir: seq<Slot>, ds: Descs)
    requires StartsGroup(m, ri, i)
    requires Walking(m, ri, i, dir0, ds0, dir, ds) && k == i + Pow2(m.regions[ri].order) && i < |dir| && dir[i] == None
    ensures Walking(m, ri, k, dir0, ds0, dir, ds)
  {
    NextTakenAll(m, ri, i, k, dir0);
    hide Taken, Pow2, ValidSpace, Ref;
    assert forall p: nat :: p < |dir0| ==> (Taken(m, dir0, ri, k, p) <==> Taken(m, dir0, ri, i, p));
    forall d: Desc
      ensures Ref(ds, d) == Ref(ds0, d) - if Named(dir0, d) && Taken(m, dir0, ri, k, d.pos) then 1 else 0
    {
      if d.pos < |dir0| {
        assert Taken(m, dir0, ri, k, d.pos) <==> Taken(m, dir0, ri, i, d.pos);
      }
    }
  }

  lemma TakenWhole(m: Space, ri: nat, i: nat, k: nat, dir0: seq<Slot>, ds0: Descs, dir: seq<Slot>, ds: Descs,
      dir1: seq<Slot>, ds1: Descs)
    requires StartsGroup(m, ri, i)
    requires Walking(m, ri, i, dir0, ds0, dir, ds) && i < |dir| && dir[i].Some? && |dir1| == |dir|
    requires k == i + Pow2(m.regions[ri].order) && forall p :: i <= p < k && p < |dir| ==> dir[p].Some?
    requires forall p :: 0 <= p < |dir| ==> dir1[p] == if i <= p < k then None else dir[p]
    requires forall d: Desc :: Ref(ds1, d) == Ref(ds, d) - if i <= d.pos < k && Named(dir, d) then 1 else 0
    ensures Walking(m, ri, k, dir0, ds0, dir1, ds1)
  {
    NextTakenAll(m, ri, i, k, dir0);
    hide Taken, Pow2, ValidSpace, Ref;
    forall d: Desc
      ensures Ref(ds1, d) == Ref(ds0, d) - if Named(dir0, d) && Taken(m, dir0, ri, k, d.pos) then 1 else 0
    {
      if d.pos < |dir0| {
        assert Taken(m, dir0, ri, k, d.pos) <==> i <= d.pos < k || Taken(m, dir0, ri, i, d.pos);
      }
    }
  }

  /** An empty slot in a group whose first slot is there. */
  lemma EmptyTaken(m: Space, ri: nat, i: nat, k: nat, dir0: seq<Slot>, ds0: Descs, dir: seq<Slot>, ds: Descs)
    requires StartsGroup(m, ri, i)
    requires Walking(m, ri, i, dir0, ds0, dir, ds) && dir[i].Some? && k < Pow2(m.regions[ri].order)
    requires i + k < |dir| && dir[i + k] == None
    ensures LeadNamed(m, dir0, i + k) && dir0[i + k] == None
  {
    hide Pow2, ValidSpace, Before, LeadNamed;
    NextTaken(m, dir0, ri, i, i);
    NextTaken(m, dir0, ri, i, i + k);
  }

  lemma WalkStarts(m: Space, dir: seq<Slot>, ds: Descs)
    requires ValidSpace(m) && |dir| == m.shape.len
    ensures Walking(m, 0, 0, dir, ds, dir, ds)
  {
  }

  /** From the end of one region to the start of the next. */
  lemma WalkMoves(m: Space, ri: nat, i: nat, k: nat, rj: nat, dir0: seq<Slot>, ds0: Descs, dir: seq<Slot>, ds: Descs)
    requires Walking(m, ri, i, dir0, ds0, dir, ds)
    requires forall p: nat :: Before(m, rj, k, p) <==> Before(m, ri, i, p)
    ensures Walking(m, rj, k, dir0, ds0, dir, ds)
  {
    hide LeadNamed, Before;
  }

  lemma RegionEntered(m: Space, ri: nat)
    requires ri < |m.regions|
    ensures forall p: nat :: Before(m, ri, m.regions[ri].start, p) <==> Before(m, ri, 0, p)
  {
  }

  lemma RegionLeft(m: Space, ri: nat, i: nat)
    requires ri < |m.regions| && m.regions[ri].end <= i
    ensures forall p: nat :: Before(m, ri + 1, 0, p) <==> Before(m, ri, i, p)
  {
    forall p: nat
      ensures Before(m, ri + 1, 0, p) <==> Before(m, ri, i, p)
    {
      if Before(m, ri + 1, 0, p) {
        var j: nat :| j < |m.regions| && Holds(m.regions[j], p) && (j < ri + 1 || (j == ri + 1 && p < 0));
        assert j < ri || (j == ri && p < i);
      }
      if Before(m, ri, i, p) {
        var j: nat :| j < |m.regions| && Holds(m.regions[j], p) && (j < ri || (j == ri && p < i));
        assert j < ri + 1;
      }
    }
  }

  lemma WalkEnds(m: Space, dir0: seq<Slot>, ds0: Descs, dir: seq<Slot>, ds: Descs)
    requires ValidSpace(m) && Walking(m, |m.regions|, 0, dir0, ds0, dir, ds)
    ensures LastWalked(m, dir0, ds0, true, dir, ds)
  {
    forall p: nat | p < |dir|
      ensures Before(m, |m.regions|, 0, p)
    {
      var i := RegionOfPosition(m.shape, m.regions, p);
      assert Holds(m.regions[i], p);
    }
    hide LeadNamed, Before, ValidSpace;
  }

  /** The walk of the last close.  False: it took an empty slot. */
  method LastClose(m: Space, d: Vmdesc, v: Vmr) returns (ok: bool)
    requires ValidSpace(m) && d.shape == m.shape && d.regions == m.regions && |d.dir| == m.shape.len
    modifies d`dir, d`descs
    ensures LastWalked(m, old(d.dir), old(d.descs), ok, d.dir, d.descs)
  {
    hide ValidSpace, Walking, LeadNamed, Before, Pow2, Cut;
    ghost var dir0, ds0 := d.dir, d.descs;
    WalkStarts(m, dir0, ds0);
    var ri := 0;
    while ri < |d.regions|
      invariant ri <= |d.regions| && |d.dir| == m.shape.len
      invariant Walking(m, ri, 0, dir0, ds0, d.dir, d.descs)
    {
      var r := d.regions[ri];
      RegionGrid(m, ri);
      RegionEntered(m, ri);
      WalkMoves(m, ri, 0, r.start, ri, dir0, ds0, d.dir, d.descs);
      var i, n := r.start, Pow2(r.order);
      while i < r.end
        invariant r.start <= i && OnGrid(r, i) && |d.dir| == m.shape.len
        invariant Walking(m, ri, i, dir0, ds0, d.dir, d.descs)
      {
        GroupFitsRegion(m, ri, i);
        if d.dir[i] == None {
          PassedOver(m, ri, i, i + n, dir0, ds0, d.dir, d.descs);
        } else {
          ghost var dir1, ds1 := d.dir, d.descs;
          var taken := d.PutGroup(v, d.dir[i].value, i, n, true);
          if taken < n {
            EmptyTaken(m, ri, i, taken, dir0, ds0, dir1, ds1);
            return false;
          }
          TakenWhole(m, ri, i, i + n, dir0, ds0, dir1, ds1, d.dir, d.descs);
        }
        NextGroup(r, i);
        i := i + n;
      }
      RegionLeft(m, ri, i);
      WalkMoves(m, ri, i, 0, ri + 1, dir0, ds0, d.dir, d.descs);
      ri := ri + 1;
    }
    WalkEnds(m, dir0, ds0, d.dir, d.descs);
    ok := true;
  }

  // ---------------------------------------------------------------------------------------------
  // What it means

  predicate AllEmpty(dir: seq<Slot>) {
    forall p :: 0 <= p < |dir| ==> dir[p] == None
  }

  /** Every group is named by all of its slots or by none. */
  ghost predicate EvenlyNamed(m: Space, dir: seq<Slot>) {
    forall p: nat, q: nat :: p < |dir| && q < |dir| && Mates(m, p, q) ==> (dir[p].Some? <==> dir[q].Some?)
  }

  /** The last close gets through and leaves nothing exactly when no group is named in part. */
  lemma LastCloseIff(m: Space, dir0: seq<Slot>, ds0: Descs, ok: bool, dir: seq<Slot>, ds: Descs)
    requires ValidSpace(m) && LastWalked(m, dir0, ds0, ok, dir, ds)
    ensures ok && AllEmpty(dir) <==> EvenlyNamed(m, dir0)
  {
    hide ValidSpace, LeadNamed, Mates;
    if ok && AllEmpty(dir) {
      forall p: nat, q: nat | p < |dir0| && q < |dir0| && Mates(m, p, q)
        ensures dir0[p].Some? <==> dir0[q].Some?
      {
        MatesLead(m, dir0, p, q);
      }
    }
    if EvenlyNamed(m, dir0) {
      forall p: nat | p < |dir0|
        ensures dir0[p].Some? <==> LeadNamed(m, dir0, p)
      {
        var i, h := LeadOf(m, p);
        LeadIs(m, dir0, i, p, h);
      }
    }
  }

  /** The fate of a group named in part: with its first slot the walk takes an empty one; without it the group is
      passed over, its slots stay and its descriptors stay counted. */
  lemma PartialGroup(m: Space, dir0: seq<Slot>, ds0: Descs, ok: bool, dir: seq<Slot>, ds: Descs, p: nat, q: nat)
    requires ValidSpace(m) && LastWalked(m, dir0, ds0, ok, dir, ds)
    requires Mates(m, p, q) && q < |dir0| && p < |dir0| && dir0[p].Some? && dir0[q] == None
    ensures LeadNamed(m, dir0, p) ==> !ok
    ensures !LeadNamed(m, dir0, p) && ok ==>
              dir[p] == dir0[p] && Ref(ds, Desc(p, dir0[p].value)) == Ref(ds0, Desc(p, dir0[p].value))
  {
    MatesLead(m, dir0, p, q);
    hide LeadNamed, Mates, ValidSpace;
  }

  /** What is copied out of whole groups is named evenly only when it is whole. */
  lemma EvenIsWhole(m: Space, slots: seq<Slot>, halves: seq<Half>, heads: seq<nat>)
    requires WholeSlots(m, slots) && |heads| == |slots|
    ensures var child := CopiedSlots(m, slots, halves, heads); EvenlyNamed(m, child) <==> WholeSlots(m, child)
  {
    hide Mates, IsCopied;
  }

  /** So the last close of a forked directory gets through and empties it exactly when neither end of what the fork
      copied fell inside a group of the parent. */
  lemma ForkedLastCloseIff(m: Space, slots: seq<Slot>, halves: seq<Half>, heads: seq<nat>, ds0: Descs, ok: bool, dir: seq<Slot>, ds: Descs)
    requires ValidSpace(m) && WholeSlots(m, slots) && BlocksOf(m, heads) && Forkable(m, halves)
    requires LastWalked(m, CopiedSlots(m, slots, halves, heads), ds0, ok, dir, ds)
    ensures ok && AllEmpty(dir) <==>
              && !FallsInside(m, slots, CopyStart(m, halves, heads))
              && !FallsInside(m, slots, CopyEnd(m, halves, heads))
  {
    var child := CopiedSlots(m, slots, halves, heads);
    assert |heads| == |slots|;
    hide ValidSpace, LastWalked, Forkable, CopiedSlots, FallsInside, CopyStart, CopyEnd, AllEmpty, EvenlyNamed, WholeSlots, BlocksOf;
    LastCloseIff(m, child, ds0, ok, dir, ds);
    ForkWholeIff(m, slots, halves, heads);
    EvenIsWhole(m, slots, halves, heads);
  }

  /** Which fate it is: a group cut by the start of the copied range is without its first slot in the child, one cut
      by the end alone has it. */
  lemma CutFate(m: Space, slots: seq<Slot>, halves: seq<Half>, heads: seq<nat>, p: nat, h: nat, i: nat)
    requires ValidSpace(m) && WholeSlots(m, slots) && BlocksOf(m, heads) && Forkable(m, halves)
    requires p < |slots| && LeadsAt(m, i, p, h) && slots[p].Some? && h < |slots|
    ensures LeadNamed(m, CopiedSlots(m, slots, halves, heads), p) <==>
              CopyStart(m, halves, heads) <= h < CopyEnd(m, halves, heads)
  {
    var child := CopiedSlots(m, slots, halves, heads);
    LeadIs(m, child, i, p, h);
    ChildIsBetween(m, slots, halves, heads);
    var j, g := LeadOf(m, p);
    RegionsAreApart(m.shape, m.regions);
    OnlyOne(m.regions, i, j, p);
    assert slots[h] == slots[p];
  }
}
