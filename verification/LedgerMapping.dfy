/**
  Who maps a block after each event of the residency ledger: the ledger says what a mapping costs, this says which
  mappings there are.
 */
module LedgerMapping {
  import opened MapperList
  import opened Residency
  import opened MapperSync
  import opened LedgerRuns

  /** `u` maps some subblock. */
  ghost predicate MapsSome(subs: seq<Sub>, u: Vmr) {
    exists i :: 0 <= i < |subs| && u in Mappers(subs[i].page)
  }

  /** Exactly the vmrs of `vs` map it, every subblock alike. */
  ghost predicate MappedByAll(w: World, b: BlockId, vs: iset<Vmr>) {
    b in w && w[b].phase == Active && w[b].subs != []
    && forall i, u :: 0 <= i < |w[b].subs| ==> (u in Mappers(w[b].subs[i].page) <==> u in vs)
  }

  /** The faults that map a block whole. */
  predicate Faults(e: Event) {
    e.Fetch? || e.MapFault? || e.Stretch? || e.Refault? || e.Copy? || e.Handoff?
  }

  /** The block that a fault maps, and who maps it there already. */
  function Mapping(e: Event): BlockId
    requires Faults(e)
  {
    match e
    case Fetch(b, _, _, _) => b
    case MapFault(b, _, _) => b
    case Stretch(low, _, _, _) => low
    case Refault(b, _, _) => b
    case Copy(_, copy, _, _) => copy
    case Handoff(_, copy, _) => copy
  }

  ghost function Already(w: World, e: Event): iset<Vmr>
    requires Enabled(w, e)
  {
    match e
    case MapFault(b, _, _) => iset u | MapsSome(w[b].subs, u)
    case Stretch(low, high, _, _) => iset u | MapsSome(w[low].subs, u) || MapsSome(w[high].subs, u)
    case _ => iset{}
  }

  lemma UnionIsSome(subs: seq<Sub>, u: Vmr)
    ensures u in Union(subs) <==> MapsSome(subs, u)
  {
    var some := set x | x in Union(subs) && MapsSome(subs, x);
    forall i | 0 <= i < |subs|
      ensures Mappers(subs[i].page) <= Union(subs) && Mappers(subs[i].page) <= some
    {
      UnionHas(subs, i);
    }
    UnionLeast(subs, some);
  }

  lemma SomeOfBoth(a: seq<Sub>, b: seq<Sub>, u: Vmr)
    ensures MapsSome(a + b, u) <==> MapsSome(a, u) || MapsSome(b, u)
  {
    if MapsSome(b, u) {
      var i :| 0 <= i < |b| && u in Mappers(b[i].page);
      assert (a + b)[|a| + i] == b[i];
    }
    if MapsSome(a, u) {
      var i :| 0 <= i < |a| && u in Mappers(a[i].page);
      assert (a + b)[i] == a[i];
    }
  }

  lemma MappedBySome(l: Layout, subs: seq<Sub>, v: Vmr, pmd: Pmd)
    requires subs != [] && AllExact(l, subs)
    ensures var r := Mapped(l, subs, v, pmd);
            |r| == |subs| && forall i, u :: 0 <= i < |r| ==> (u in Mappers(r[i].page) <==> MapsSome(subs, u) || u == v)
  {
    MappedAlike(l, subs, v, pmd);
    hide Mapped, MapsSome;
    var r := Mapped(l, subs, v, pmd);
    forall i, u | 0 <= i < |r|
      ensures u in Mappers(r[i].page) <==> MapsSome(subs, u) || u == v
    {
      UnionIsSome(subs, u);
      assert Mappers(r[i].page) == Union(subs) + {v};
    }
  }

  lemma RefaultMaps(b: Block, v: Vmr, pmd: Pmd)
    requires BlockOk(b) && (b.phase == Inactive || b.phase == Writeback)
    ensures var r := InstallAll(b.layout, TakeOver(b.layout, b.subs, v), v, pmd);
            r != [] && forall i :: 0 <= i < |r| ==> Mappers(r[i].page) == {v}
  {
    TakeOverExact(b.layout, b.subs, v);
    var mid := TakeOver(b.layout, b.subs, v);
    InstallAllExact(b.layout, mid, v, pmd);
    hide TakeOver;
    forall i | 0 <= i < |mid|
      ensures Mappers(mid[i].page) == {}
    {
      assert mid[i].page.records == [];
    }
  }

  lemma HandoffMaps(b: Block, v: Vmr)
    requires BlockOk(b) && MappedByOnly(b.subs, v)
    ensures var r := HandedCopies(b.layout, b.subs, v);
            |r| == |b.subs| && forall i :: 0 <= i < |r| ==> Mappers(r[i].page) == {v}
  {
    forall i | 0 <= i < |b.subs|
      ensures Mappers(HandedCopies(b.layout, b.subs, v)[i].page) == {v}
    {
      CopiedExact(b.layout, v, b.subs[i].page.records[0].pmd);
    }
  }

  lemma StretchMaps(w: World, low: BlockId, high: BlockId, v: Vmr, pmd: Pmd)
    requires WorldOk(w) && Enabled(w, Stretch(low, high, v, pmd))
    ensures var e := Stretch(low, high, v, pmd); MappedByAll(Apply(w, e), low, Already(w, e) + iset{v})
  {
    assert BlockOk(w[low]) && BlockOk(w[high]);
    hide AllExact, PhaseOk, Sees, Mapped, MapsSome;
    MappedBySome(w[low].layout, w[low].subs + w[high].subs, v, pmd);
    forall u
      ensures MapsSome(w[low].subs + w[high].subs, u) <==> MapsSome(w[low].subs, u) || MapsSome(w[high].subs, u)
    {
      SomeOfBoth(w[low].subs, w[high].subs, u);
    }
  }

  /** A fault ends with the block mapped alike on every subblock: by the vmr that faults, and by whoever mapped any
      of it before. */
  lemma FaultMaps(w: World, e: Event)
    requires WorldOk(w) && Enabled(w, e) && Faults(e)
    ensures MappedByAll(Apply(w, e), Mapping(e), Already(w, e) + iset{e.v})
  {
    hide Sees;
    match e
    case Fetch(b, n, v, pmd) =>
      FetchedExact(w[b].layout, v);
      InstallAllExact(w[b].layout, FetchedSubs(w[b].layout, n, v), v, pmd);
    case MapFault(b, v, pmd) =>
      assert BlockOk(w[b]);
      MappedBySome(w[b].layout, w[b].subs, v, pmd);
    case Stretch(low, high, v, pmd) => StretchMaps(w, low, high, v, pmd);
    case Refault(b, v, pmd) =>
      assert BlockOk(w[b]);
      RefaultMaps(w[b], v, pmd);
    case Copy(b, copy, v, pmd) =>
      assert BlockOk(w[b]);
      CopiedExact(w[b].layout, v, pmd);
    case Handoff(b, copy, v) =>
      assert BlockOk(w[b]);
      HandoffMaps(w[b], v);
  }

  /** A demand-first fetch maps the subblock asked for and nothing else yet; every subblock stands on the fetching vmr. */
  lemma DemandMaps(w: World, b: BlockId, n: nat, v: Vmr, pmd: Pmd, d: nat)
    requires WorldOk(w) && Enabled(w, FetchDemand(b, n, v, pmd, d))
    ensures var r := Apply(w, FetchDemand(b, n, v, pmd, d))[b];
            |r.subs| == n && r.phase == Active && forall i :: 0 <= i < n ==>
              r.subs[i].page.owner == Some(v) && Mappers(r.subs[i].page) == if i == d then {v} else {}
  {
    FetchedExact(w[b].layout, v);
    InstallExact(w[b].layout, Fetched(w[b].layout, v), v, pmd);
  }

  /** Closing takes the vmr off every subblock, as mapper and as owner, and so does a copy that leaves the old block;
      whoever else mapped a subblock still does. */
  lemma LeavingUnmaps(w: World, e: Event)
    requires WorldOk(w) && Enabled(w, e) && (e.Close? || e.Copy?)
    ensures var r := Apply(w, e)[e.b];
            |r.subs| == |w[e.b].subs| && forall i :: 0 <= i < |r.subs| ==>
              e.v !in Names(r.subs[i].page) && Mappers(r.subs[i].page) == Mappers(w[e.b].subs[i].page) - {e.v}
  {
    assert BlockOk(w[e.b]);
    StripAllExact(w[e.b].layout, w[e.b].subs, e.v);
    LeaveOk(w[e.b], e.v);
    hide AllExact, Sees, SyncOwner, Strip;
  }

  /** Eviction takes everybody off, and keeps the pages. */
  lemma EvictUnmaps(w: World, b: BlockId)
    requires WorldOk(w) && Enabled(w, Evict(b))
    ensures var r := Apply(w, Evict(b))[b];
            r.phase == Inactive && |r.subs| == |w[b].subs| && forall u :: !MapsSome(r.subs, u)
  {
    assert BlockOk(w[b]);
    EvictedBlock(w[b].layout, w[b].subs);
    hide AllExact, SyncOwner, UnmapAll;
  }

  /** The other events map and unmap nothing: a block moves between lists, gives its pages up, or is cut in two halves. */
  lemma NothingMapped(w: World, e: Event)
    requires WorldOk(w) && Enabled(w, e) && (e.Promote? || e.StartWriteback? || e.FinishWriteback? || e.Reduce?)
    ensures var r := Apply(w, e);
            && (e.Reduce? ==> r[e.b].subs + r[e.half].subs == w[e.b].subs && |r[e.b].subs| == |r[e.half].subs|)
            && (e.FinishWriteback? ==> r[e.b].phase == Remote && r[e.b].subs == [])
            && (e.Promote? ==> r[e.b].phase == Active && r[e.b].subs == w[e.b].subs)
            && (e.StartWriteback? ==> r[e.b].phase == Writeback && r[e.b].subs == w[e.b].subs)
  {
    if e.Reduce? {
      var m := |w[e.b].subs| / 2;
      assert w[e.b].subs[..m] + w[e.b].subs[m..] == w[e.b].subs;
    }
  }

  function Touches(e: Event): set<BlockId> {
    match e
    case Stretch(low, high, _, _) => {low, high}
    case Reduce(b, half) => {b, half}
    case Copy(b, copy, _, _) => {b, copy}
    case Handoff(b, copy, _) => {b, copy}
    case _ => {e.b}
  }

  /** No event touches another block; what a merge takes in and what the last close gives back is gone, and nothing
      else ever goes. */
  lemma OthersStay(w: World, e: Event, k: BlockId)
    requires WorldOk(w) && Enabled(w, e)
    ensures k !in Touches(e) ==> (k in Apply(w, e) <==> k in w) && (k in w ==> Apply(w, e)[k] == w[k])
    ensures k in w && k !in Apply(w, e) <==> (e.Stretch? && k == e.high) || (e.CloseLast? && k == e.b)
  {
    hide BlockOk, Sees;
  }
}
