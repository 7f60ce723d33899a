/**
  The records the residency ledger keeps block by block and the records the directories' descriptors carry are the
  same ones: a close, a copy and a fault do the same to both.  So the guard of the ledger's last close of a block is
  what the directories establish.
 */
module CloseLedger {
  import opened ViewIntervals
  import opened CloseDirectory
  import opened CloseRuns
  import opened CloseRunsSafety
  import opened MapperSync
  import L = LedgerRuns
  import P = MapperList
  import R = Residency

  // ---------------------------------------------------------------------------------------------
  // One record, two models

  /** Where subblock `i` of a block lies that starts at position `p` of group `id`. */
  function At(p: nat, id: GroupId, i: nat): Desc {
    Desc(p + i, id)
  }

  /** Its `n` subblocks lie in one group. */
  ghost predicate InOneGroup(m: Space, n: nat, p: nat, id: GroupId) {
    n > 0 && forall i: nat :: i < n ==> Mates(m, p, At(p, id, i).pos)
  }

  /** The descriptors record whom the subblocks record. */
  ghost predicate Recorded(subs: seq<R.Sub>, ds: Descs, p: nat, id: GroupId) {
    forall i: nat :: i < |subs| ==> Names(ds, At(p, id, i)) == R.Names(subs[i].page)
  }

  ghost predicate Placed(m: Space, s: State, w: L.World, b: L.BlockId, p: nat, id: GroupId) {
    && Inv(m, s) && L.WorldOk(w) && b in w && InOneGroup(m, |w[b].subs|, p, id)
    && Recorded(w[b].subs, s.descs, p, id)
  }

  lemma PlacedAt(m: Space, s: State, w: L.World, b: L.BlockId, p: nat, id: GroupId, i: nat)
    requires Placed(m, s, w, b, p, id) && i < |w[b].subs|
    ensures Inv(m, s) && L.WorldOk(w) && R.Exact(w[b].layout, w[b].subs[i])
    ensures Mates(m, p, At(p, id, i).pos) && Names(s.descs, At(p, id, i)) == R.Names(w[b].subs[i].page)
  {
    hide Inv, Mates, Names, R.Names;
    assert L.BlockOk(w[b]);
  }

  lemma StripNames(l: R.Layout, s: R.Sub, v: Vmr)
    requires R.Exact(l, s)
    ensures R.Names(R.Strip(l, s, v).page) == R.Names(s.page) - {v}
  {
    R.StripExact(l, s, v);
    P.PopRemovesMapper(s.page, v);
  }

  // ---------------------------------------------------------------------------------------------
  // Closing

  /** The descriptor is given back by the close. */
  predicate GivenBack(s: State, descs: Descs, d: Desc) {
    d in descs.freed && d !in s.descs.freed
  }

  lemma CountedIsKept(m: Space, s: State, t: nat, d: Desc)
    requires Base(m, s) && t < |s.dirs|
    ensures WholeSlots(m, s.dirs[t].slots) && (Ref(s.descs, d) != 0 ==> d !in s.descs.freed)
  {
    hide WholeSlots, ViewsOk, VmrsOk, ValidSpace;
  }

  /** What a close gives back it gives back by groups. */
  lemma GivenBackAlike(m: Space, s: State, v: Vmr, w: Walk, slots: seq<Slot>, descs: Descs, p: nat, q: nat, id: GroupId)
    requires Base(m, s) && Enabled(m, s, Close(v, w, slots, descs)) && Mates(m, p, q)
    requires GivenBack(s, descs, Desc(p, id))
    ensures GivenBack(s, descs, Desc(q, id))
  {
    hide AllDone, PlanWalk, Deleted, Mates, Closing, ValidSpace;
    var t := s.vmrs[v].dir;
    var views, left := Deleted(s.dirs[t].views, s.vmrs[v].iv), s.dirs[t].refcount - 1;
    CountedIsKept(m, s, t, Desc(q, id));
    ClosingIsClose(m, s, v, w, slots, descs);
    RefAlike(m, s, p, q, id);
    BaseSpace(m, s);
    hide Base, Enabled, Ref;
    MatesInside(m, p, q);
    ClosedRefs(m, s, v, t, views, left, w, slots, descs);
    ClosedSlotsWhole(m, s, v, t, views, left, w, slots, descs);
  }

  lemma DoneNames(m: Space, w: Walk, views: seq<View>, v: Vmr, was: seq<Slot>, ds: Descs, slots: seq<Slot>, descs: Descs, d: Desc)
    requires AllDone(m.shape, m.regions, w, views, m.sb, v, |m.regions|, was, ds, slots, descs)
    ensures Names(descs, d) == Names(ds, d) || Names(descs, d) == Names(ds, d) - {v}
  {
    hide GoneBy, VisitedBy, Ref, Names;
  }

  /** The closing vmr goes from every record, and everybody else stays. */
  lemma ClosedNames(m: Space, s: State, v: Vmr, w: Walk, slots: seq<Slot>, descs: Descs, d: Desc)
    requires Inv(m, s) && Enabled(m, s, Close(v, w, slots, descs))
    ensures Names(descs, d) == Names(s.descs, d) - {v}
  {
    hide AllDone, PlanWalk, Deleted, NamesOk, Base, Names;
    var t := s.vmrs[v].dir;
    var views, left := Deleted(s.dirs[t].views, s.vmrs[v].iv), s.dirs[t].refcount - 1;
    ClosingIsClose(m, s, v, w, slots, descs);
    CloserIsGone(m, s, v, t, views, left, w, slots, descs, d);
    hide Inv, Enabled;
    DoneNames(m, w, views, v, s.dirs[t].slots, s.descs, slots, descs, d);
  }

  lemma BackOrNot(m: Space, s: State, v: Vmr, w: Walk, slots: seq<Slot>, descs: Descs, p: nat, q: nat, id: GroupId)
    requires Inv(m, s) && Enabled(m, s, Close(v, w, slots, descs)) && Mates(m, p, q)
    ensures GivenBack(s, descs, Desc(q, id)) <==> GivenBack(s, descs, Desc(p, id))
    ensures GivenBack(s, descs, Desc(q, id)) ==> Names(s.descs, Desc(q, id)) <= {v}
  {
    hide Base, NamesOk, Enabled, Mates, Names, ValidSpace;
    BaseSpace(m, s);
    MatesInside(m, p, q);
    if GivenBack(s, descs, Desc(p, id)) {
      GivenBackAlike(m, s, v, w, slots, descs, p, q, id);
    }
    if GivenBack(s, descs, Desc(q, id)) {
      GivenBackAlike(m, s, v, w, slots, descs, q, p, id);
      FreedIsNameless(m, s, v, w, slots, descs, Desc(q, id));
    }
  }

  lemma SubLinks(m: Space, s: State, v: Vmr, walk: Walk, slots: seq<Slot>, descs: Descs,
      w: L.World, b: L.BlockId, p: nat, id: GroupId, i: nat)
    requires Placed(m, s, w, b, p, id) && Enabled(m, s, Close(v, walk, slots, descs)) && i < |w[b].subs|
    ensures GivenBack(s, descs, At(p, id, i)) <==> GivenBack(s, descs, At(p, id, 0))
    ensures GivenBack(s, descs, At(p, id, i)) ==> R.Names(w[b].subs[i].page) <= {v}
    ensures Names(descs, At(p, id, i)) == R.Names(R.Strip(w[b].layout, w[b].subs[i], v).page)
  {
    hide Inv, Enabled, Mates, GivenBack, Names, R.Names, R.Strip, R.Exact, L.WorldOk;
    PlacedAt(m, s, w, b, p, id, i);
    hide Placed;
    BackOrNot(m, s, v, walk, slots, descs, p, p + i, id);
    ClosedNames(m, s, v, walk, slots, descs, Desc(p + i, id));
    StripNames(w[b].layout, w[b].subs[i], v);
  }

  /** Taking `v` off the block leaves it with the records `ds` has. */
  ghost predicate ClosedSame(w: L.World, b: L.BlockId, v: Vmr, ds: Descs, p: nat, id: GroupId) {
    L.WorldOk(w) && L.Enabled(w, L.Close(b, v)) && Recorded(L.Apply(w, L.Close(b, v))[b].subs, ds, p, id)
  }

  lemma StrippedSame(w: L.World, b: L.BlockId, v: Vmr, ds: Descs, p: nat, id: GroupId)
    requires L.WorldOk(w) && b in w && w[b].subs != []
    requires forall i: nat :: i < |w[b].subs| ==> Names(ds, At(p, id, i)) == R.Names(R.Strip(w[b].layout, w[b].subs[i], v).page)
    ensures ClosedSame(w, b, v, ds, p, id)
  {
    assert L.BlockOk(w[b]);
    hide R.Names, R.Strip, Names, At;
  }

  lemma NamelessMayGo(w: L.World, b: L.BlockId, v: Vmr)
    requires b in w && forall i: nat :: i < |w[b].subs| ==> R.Names(w[b].subs[i].page) <= {v}
    ensures L.Enabled(w, L.CloseLast(b, v))
  {
    hide R.Names;
  }

  /** A close gives a block's descriptors back all together or not at all.  If it does, the ledger may close the block
      for good; if not, taking the vmr off the block leaves the records the same in both. */
  lemma CloseLinks(m: Space, s: State, v: Vmr, walk: Walk, slots: seq<Slot>, descs: Descs,
      w: L.World, b: L.BlockId, p: nat, id: GroupId)
    requires Placed(m, s, w, b, p, id) && Enabled(m, s, Close(v, walk, slots, descs))
    ensures forall i: nat :: i < |w[b].subs| ==> (GivenBack(s, descs, At(p, id, i)) <==> GivenBack(s, descs, At(p, id, 0)))
    ensures if GivenBack(s, descs, At(p, id, 0)) then L.Enabled(w, L.CloseLast(b, v)) else ClosedSame(w, b, v, descs, p, id)
  {
    hide Inv, Recorded, Mates, Enabled, GivenBack, Names, R.Names, R.Strip, At, L.WorldOk, L.Enabled, ClosedSame;
    assert b in w && w[b].subs != [] && L.WorldOk(w);
    hide Placed;
    forall i: nat | i < |w[b].subs|
      ensures GivenBack(s, descs, At(p, id, i)) <==> GivenBack(s, descs, At(p, id, 0))
      ensures GivenBack(s, descs, At(p, id, i)) ==> R.Names(w[b].subs[i].page) <= {v}
      ensures Names(descs, At(p, id, i)) == R.Names(R.Strip(w[b].layout, w[b].subs[i], v).page)
    {
      SubLinks(m, s, v, walk, slots, descs, w, b, p, id, i);
    }
    if GivenBack(s, descs, At(p, id, 0)) {
      NamelessMayGo(w, b, v);
    } else {
      StrippedSame(w, b, v, descs, p, id);
    }
  }

  /** So the last close of a block, whenever the directories decide on it, destroys pages with nothing booked on
      them. */
  lemma LastCloseLosesNothing(m: Space, s: State, v: Vmr, walk: Walk, slots: seq<Slot>, descs: Descs,
      w: L.World, b: L.BlockId, p: nat, id: GroupId)
    requires Placed(m, s, w, b, p, id) && Enabled(m, s, Close(v, walk, slots, descs))
    requires GivenBack(s, descs, At(p, id, 0))
    ensures L.Enabled(w, L.CloseLast(b, v)) && R.AllSettled(L.Destroyed(w, L.CloseLast(b, v)))
  {
    CloseLinks(m, s, v, walk, slots, descs, w, b, p, id);
    L.NothingLost(w, L.CloseLast(b, v));
  }

  // ---------------------------------------------------------------------------------------------
  // Copying

  lemma CopiedNames(l: R.Layout, v: Vmr, pmd: P.Pmd)
    ensures R.Names(R.Copied(l, v, pmd).page) == {v}
  {
    R.CopiedExact(l, v, pmd);
  }

  /** Copying the block for `v` leaves it, and its copy, with the records `ds` has. */
  ghost predicate CopiedSame(w: L.World, b: L.BlockId, copy: L.BlockId, v: Vmr, pmd: P.Pmd, ds: Descs, p: nat, was: GroupId, id: GroupId) {
    && L.WorldOk(w) && L.Enabled(w, L.Copy(b, copy, v, pmd))
    && var x := L.Apply(w, L.Copy(b, copy, v, pmd));
       b in x && copy in x && Recorded(x[b].subs, ds, p, was) && Recorded(x[copy].subs, ds, p, id)
  }

  lemma LeftAndCopied(w: L.World, b: L.BlockId, copy: L.BlockId, v: Vmr, pmd: P.Pmd, ds: Descs, p: nat, was: GroupId, id: GroupId)
    requires L.WorldOk(w) && L.Enabled(w, L.Copy(b, copy, v, pmd))
    requires forall i: nat :: i < |w[b].subs| ==>
               && Names(ds, At(p, was, i)) == R.Names(R.Strip(w[b].layout, w[b].subs[i], v).page)
               && Names(ds, At(p, id, i)) == {v}
    ensures CopiedSame(w, b, copy, v, pmd, ds, p, was, id)
  {
    assert L.BlockOk(w[b]);
    L.LeaveOk(w[b], v);
    CopiedNames(w[b].layout, v, pmd);
    hide R.Names, R.Strip, R.Copied, R.SyncOwner, Names, At, L.BlockOk;
  }

  /** What a replacement does to the records at one position. */
  lemma ReplacedNames(m: Space, s: State, t: nat, h: nat, id: GroupId, v: Vmr, resident: set<nat>, q: nat)
    requires Inv(m, s) && Enabled(m, s, Replace(t, h, id, v, resident)) && q in resident
    ensures var was, r := s.dirs[t].slots[h].value, Apply(m, s, Replace(t, h, id, v, resident)).descs;
            Names(r, Desc(q, was)) == Names(s.descs, Desc(q, was)) - {v} && Names(r, Desc(q, id)) == {v}
  {
    ReplacedId(m, s, t, h, id);
    hide Inv, Base, Apply, Mates, Reaches, Names;
    ReplacedRest(m, s, t, h, id, v, resident);
  }

  lemma CopiedSub(m: Space, s: State, t: nat, h: nat, was: GroupId, id: GroupId, v: Vmr, resident: set<nat>, r: Descs,
      w: L.World, b: L.BlockId, p: nat, i: nat)
    requires Enabled(m, s, Replace(t, h, id, v, resident)) && was == s.dirs[t].slots[h].value
    requires r == Apply(m, s, Replace(t, h, id, v, resident)).descs
    requires Placed(m, s, w, b, p, was) && i < |w[b].subs| && At(p, id, i).pos in resident
    ensures Names(r, At(p, was, i)) == R.Names(R.Strip(w[b].layout, w[b].subs[i], v).page) && Names(r, At(p, id, i)) == {v}
  {
    hide Apply, Inv, Names, R.Names, R.Strip, R.Exact, L.WorldOk, Mates;
    PlacedAt(m, s, w, b, p, was, i);
    hide Placed;
    ReplacedNames(m, s, t, h, id, v, resident, p + i);
    hide Enabled;
    StripNames(w[b].layout, w[b].subs[i], v);
  }

  /** A copy-on-write takes the vmr off the old block's records and leaves it alone on the new one's, in both. */
  lemma CopyLinks(m: Space, s: State, t: nat, h: nat, id: GroupId, v: Vmr, resident: set<nat>,
      w: L.World, b: L.BlockId, copy: L.BlockId, pmd: P.Pmd, p: nat)
    requires Enabled(m, s, Replace(t, h, id, v, resident)) && Placed(m, s, w, b, p, s.dirs[t].slots[h].value)
    requires L.Enabled(w, L.Copy(b, copy, v, pmd))
    requires forall i: nat :: i < |w[b].subs| ==> At(p, id, i).pos in resident
    ensures var r := Apply(m, s, Replace(t, h, id, v, resident)).descs;
            CopiedSame(w, b, copy, v, pmd, r, p, s.dirs[t].slots[h].value, id)
  {
    hide Inv, Apply, Names, R.Names, R.Strip, L.WorldOk, Mates, Reaches, Recorded, InOneGroup, L.Enabled, CopiedSame;
    var was, r := s.dirs[t].slots[h].value, Apply(m, s, Replace(t, h, id, v, resident)).descs;
    assert b in w && L.WorldOk(w);
    hide Placed, Enabled;
    forall i: nat | i < |w[b].subs|
      ensures Names(r, At(p, was, i)) == R.Names(R.Strip(w[b].layout, w[b].subs[i], v).page)
      ensures Names(r, At(p, id, i)) == {v}
    {
      assert At(p, id, i).pos in resident;
      CopiedSub(m, s, t, h, was, id, v, resident, r, w, b, p, i);
    }
    LeftAndCopied(w, b, copy, v, pmd, r, p, was, id);
  }

  // ---------------------------------------------------------------------------------------------
  // Mapping

  lemma {:induction false} InUnion(subs: seq<R.Sub>, u: Vmr) returns (k: nat)
    requires u in Union(subs)
    ensures k < |subs| && u in P.Mappers(subs[k].page)
  {
    if u in P.Mappers(subs[0].page) {
      k := 0;
    } else {
      k := InUnion(subs[1..], u);
      k := k + 1;
    }
  }

  lemma TiedAlike(m: Space, s: State, p: nat, q: nat, id: GroupId, u: Vmr)
    requires Inv(m, s) && Mates(m, p, q) && Tied(m, s, Desc(p, id), u)
    ensures Tied(m, s, Desc(q, id), u)
  {
    MatesInside(m, p, q);
    assert WholeSlots(m, s.dirs[s.vmrs[u].dir].slots);
    ReachesAlike(m, s.vmrs[u].iv, p, q);
    hide Mates, Reaches, ValidSpace;
  }

  lemma NameIsTied(m: Space, s: State, d: Desc, u: Vmr)
    requires Inv(m, s) && u in Names(s.descs, d)
    ensures ValidSpace(m) && Tied(m, s, d, u)
  {
    hide ValidSpace, VmrsOk, DirsOk, GivenOk, Tied, Names;
  }

  /** Whoever is recorded on one subblock of a block may be recorded on any other. */
  lemma RecordedIsTied(m: Space, s: State, w: L.World, b: L.BlockId, p: nat, id: GroupId, k: nat, i: nat, u: Vmr)
    requires Placed(m, s, w, b, p, id) && k < |w[b].subs| && i < |w[b].subs| && u in R.Names(w[b].subs[k].page)
    ensures Tied(m, s, At(p, id, i), u)
  {
    hide Inv, Mates, Tied, R.Names, Names, R.Exact, L.WorldOk, ValidSpace;
    PlacedAt(m, s, w, b, p, id, k);
    PlacedAt(m, s, w, b, p, id, i);
    hide Placed;
    NameIsTied(m, s, At(p, id, k), u);
    MatesInside(m, p, p + k);
    MatesChain(m, p + k, p, p + i);
    TiedAlike(m, s, p + k, p + i, id, u);
  }

  /** The fault of `v` on the block puts `u` on the records of subblock `i`. */
  ghost predicate Enters(w: L.World, b: L.BlockId, v: Vmr, pmd: P.Pmd, i: nat, u: Vmr) {
    && L.WorldOk(w) && L.Enabled(w, L.MapFault(b, v, pmd))
    && var subs := L.Apply(w, L.MapFault(b, v, pmd))[b].subs;
       i < |subs| && u in R.Names(subs[i].page)
  }

  lemma EntersIff(w: L.World, b: L.BlockId, v: Vmr, pmd: P.Pmd, i: nat, u: Vmr)
    requires L.WorldOk(w) && L.Enabled(w, L.MapFault(b, v, pmd))
    ensures Enters(w, b, v, pmd, i, u) <==> i < |w[b].subs| && u in Union(w[b].subs) + {v}
  {
    var l, subs := w[b].layout, w[b].subs;
    assert L.BlockOk(w[b]);
    L.MappedAlike(l, subs, v, pmd);
    hide R.Exact, L.Mapped;
    if i < |subs| {
      MappedNames(l, L.Mapped(l, subs, v, pmd)[i], v);
    }
  }

  lemma MappedNames(l: R.Layout, x: R.Sub, v: Vmr)
    requires R.Exact(l, x) && v in P.Mappers(x.page)
    ensures R.Names(x.page) == P.Mappers(x.page)
  {
  }

  /** Whoever a fault of `v` puts on a subblock's records the directory may record on its descriptor, given that `v`
      may be recorded on the block. */
  lemma MapLinks(m: Space, s: State, v: Vmr, pmd: P.Pmd, w: L.World, b: L.BlockId, p: nat, id: GroupId, i: nat, u: Vmr)
    requires Placed(m, s, w, b, p, id) && Tied(m, s, At(p, id, 0), v) && Enters(w, b, v, pmd, i, u)
    ensures Enabled(m, s, Name(At(p, id, i), u))
  {
    hide Inv, Mates, Tied, L.Apply, L.WorldOk;
    EntersIff(w, b, v, pmd, i, u);
    hide Placed, Enters;
    if u == v {
      PlacedAt(m, s, w, b, p, id, i);
      TiedAlike(m, s, p, p + i, id, v);
    } else {
      var k := InUnion(w[b].subs, u);
      RecordedIsTied(m, s, w, b, p, id, k, i, u);
    }
  }
}
