/**
  The residency ledger over whole runs: blocks are fetched, mapped, evicted, written back, refaulted,
  copied, handed over, merged, split and closed in any order, and at every step boundary each vmr is
  charged on each subblock exactly what it maps or owns.
 */
module LedgerRuns {
  import opened MapperList
  import opened Residency
  import opened MapperSync

  /** Where a block is: on a donor only, in the active list, unmapped in the inactive list, or being
      written back. */
  datatype Phase = Remote | Active | Inactive | Writeback

  datatype Block = Block(layout: Layout, phase: Phase, subs: seq<Sub>)

  type BlockId = nat
  type World = map<BlockId, Block>

  datatype Event =
    | Fetch(b: BlockId, n: nat, v: Vmr, pmd: Pmd)
    | FetchDemand(b: BlockId, n: nat, v: Vmr, pmd: Pmd, demand: nat)
    | MapFault(b: BlockId, v: Vmr, pmd: Pmd)
    | Stretch(low: BlockId, high: BlockId, v: Vmr, pmd: Pmd)
    | Reduce(b: BlockId, half: BlockId)
    | Evict(b: BlockId)
    | Promote(b: BlockId)
    | StartWriteback(b: BlockId)
    | FinishWriteback(b: BlockId)
    | Refault(b: BlockId, v: Vmr, pmd: Pmd)
    | Copy(b: BlockId, copy: BlockId, v: Vmr, pmd: Pmd)
    | Handoff(b: BlockId, copy: BlockId, v: Vmr)
    | Close(b: BlockId, v: Vmr)
    | CloseLast(b: BlockId, v: Vmr)

  // ---------------------------------------------------------------------------------------------
  // What the phases promise

  ghost predicate SameMappers(subs: seq<Sub>, vs: set<Vmr>) {
    forall i :: 0 <= i < |subs| ==> Mappers(subs[i].page) == vs
  }

  /** Fetched by `w`, which may have mapped only some of the subblocks yet. */
  ghost predicate FetchedBy(subs: seq<Sub>, w: Vmr) {
    forall i :: 0 <= i < |subs| ==> subs[i].page.owner == Some(w) && Mappers(subs[i].page) <= {w}
  }

  ghost predicate PhaseOk(b: Block) {
    match b.phase
    case Remote => b.subs == []
    case Active =>
      b.subs != [] && ((exists vs :: vs != {} && SameMappers(b.subs, vs)) || (exists w :: FetchedBy(b.subs, w)))
    case Inactive => b.subs != [] && Unmapped(b.subs) && CommonOwner(b.subs, b.subs[0].page.owner) && b.subs[0].page.owner.Some?
    case Writeback => b.subs != [] && Unmapped(b.subs) && CommonOwner(b.subs, b.subs[0].page.owner)
  }

  ghost predicate BlockOk(b: Block) {
    AllExact(b.layout, b.subs) && PhaseOk(b) && (b.layout.partial ==> |b.subs| <= 1)
  }

  ghost predicate WorldOk(w: World) {
    forall b :: b in w ==> BlockOk(w[b])
  }

  // ---------------------------------------------------------------------------------------------
  // Steps on one block

  function FetchedSubs(l: Layout, n: nat, v: Vmr): (r: seq<Sub>)
    ensures |r| == n && forall i :: 0 <= i < n ==> r[i] == Fetched(l, v)
  {
    seq(n, i requires 0 <= i < n => Fetched(l, v))
  }

  /** The fault path on a resident mapped block: synchronise, then map. */
  function Mapped(l: Layout, subs: seq<Sub>, v: Vmr, pmd: Pmd): seq<Sub>
    requires subs != []
  {
    InstallAll(l, SyncAll(l, subs), v, pmd)
  }

  function Copies(l: Layout, n: nat, v: Vmr, pmd: Pmd): (r: seq<Sub>)
    ensures |r| == n && forall i :: 0 <= i < n ==> r[i] == Copied(l, v, pmd)
  {
    seq(n, i requires 0 <= i < n => Copied(l, v, pmd))
  }

  function HandedCopies(l: Layout, subs: seq<Sub>, v: Vmr): (r: seq<Sub>)
    requires MappedByOnly(subs, v)
    ensures |r| == |subs| && forall i :: 0 <= i < |r| ==> r[i] == Copied(l, v, subs[i].page.records[0].pmd)
  {
    seq(|subs|, i requires 0 <= i < |subs| => Copied(l, v, subs[i].page.records[0].pmd))
  }

  /** Close: an active block nobody maps any more, or an inactive one whose head nobody owns, goes to
      writeback. */
  ghost function AfterClose(b: Block, subs: seq<Sub>): Block
    requires subs != []
  {
    Block(b.layout, if b.phase == Active && Unmapped(subs) then Writeback
                    else if b.phase == Inactive && subs[0].page.owner == None then Writeback
                    else b.phase, subs)
  }

  /** Copy: a block left without an owner goes to writeback. */
  function AfterCopy(b: Block, subs: seq<Sub>): Block
    requires subs != []
  {
    Block(b.layout, if subs[0].page.owner == None then Writeback else b.phase, subs)
  }

  /** A vmr that faults sees a page of the subblock it faults on. */
  ghost predicate Enabled(w: World, e: Event) {
    match e
    case Fetch(b, n, v, pmd) =>
      b in w && w[b].phase == Remote && n > 0 && (w[b].layout.partial ==> n == 1) && Sees(w[b].layout, v)
    case FetchDemand(b, n, v, pmd, d) =>
      b in w && w[b].phase == Remote && d < n && (w[b].layout.partial ==> n == 1) && Sees(w[b].layout, v)
    case MapFault(b, v, pmd) => b in w && w[b].phase == Active && Sees(w[b].layout, v)
    case Stretch(low, high, v, pmd) =>
      && low in w && high in w && low != high && w[low].phase == Active && w[high].phase == Active
      && w[low].layout == w[high].layout && !w[low].layout.partial && Sees(w[low].layout, v)
    case Reduce(b, half) => b in w && half !in w && w[b].subs != [] && |w[b].subs| % 2 == 0
    case Evict(b) => b in w && w[b].phase == Active
    case Promote(b) => b in w && w[b].phase == Inactive
    case StartWriteback(b) => b in w && w[b].phase == Inactive
    case FinishWriteback(b) => b in w && w[b].phase == Writeback
    case Refault(b, v, pmd) => b in w && (w[b].phase == Inactive || w[b].phase == Writeback) && Sees(w[b].layout, v)
    case Copy(b, copy, v, pmd) => b in w && w[b].phase != Remote && copy !in w && Sees(w[b].layout, v)
    case Handoff(b, copy, v) => b in w && w[b].phase == Active && copy !in w && MappedByOnly(w[b].subs, v)
    case Close(b, v) => b in w && w[b].phase != Remote
    case CloseLast(b, v) => b in w && forall i :: 0 <= i < |w[b].subs| ==> Names(w[b].subs[i].page) <= {v}
  }

  ghost function Apply(w: World, e: Event): World
    requires WorldOk(w) && Enabled(w, e)
  {
    match e
    case Fetch(b, n, v, pmd) =>
      var l := w[b].layout; w[b := Block(l, Active, InstallAll(l, FetchedSubs(l, n, v), v, pmd))]
    case FetchDemand(b, n, v, pmd, d) =>
      var l := w[b].layout;
      w[b := Block(l, Active, FetchedSubs(l, n, v)[d := Install(l, Fetched(l, v), v, pmd)])]
    case MapFault(b, v, pmd) =>
      assert BlockOk(w[b]); w[b := Block(w[b].layout, Active, Mapped(w[b].layout, w[b].subs, v, pmd))]
    case Stretch(low, high, v, pmd) =>
      assert BlockOk(w[low]);
      w[low := Block(w[low].layout, Active, Mapped(w[low].layout, w[low].subs + w[high].subs, v, pmd))] - {high}
    case Reduce(b, half) =>
      var m := |w[b].subs| / 2;
      w[b := Block(w[b].layout, w[b].phase, w[b].subs[..m])][half := Block(w[b].layout, w[b].phase, w[b].subs[m..])]
    case Evict(b) =>
      assert BlockOk(w[b]);
      w[b := Block(w[b].layout, Inactive, SyncOwner(w[b].layout, UnmapAll(w[b].layout, w[b].subs)))]
    case Promote(b) => w[b := Block(w[b].layout, Active, w[b].subs)]
    case StartWriteback(b) => w[b := Block(w[b].layout, Writeback, w[b].subs)]
    case FinishWriteback(b) => w[b := Block(w[b].layout, Remote, [])]
    case Refault(b, v, pmd) =>
      assert BlockOk(w[b]);
      w[b := Block(w[b].layout, Active, InstallAll(w[b].layout, TakeOver(w[b].layout, w[b].subs, v), v, pmd))]
    case Copy(b, copy, v, pmd) =>
      var l := w[b].layout;
      assert BlockOk(w[b]);
      w[b := AfterCopy(w[b], SyncOwner(l, StripAll(l, w[b].subs, v)))]
       [copy := Block(l, Active, Copies(l, |w[b].subs|, v, pmd))]
    case Handoff(b, copy, v) =>
      var l := w[b].layout;
      w[b := Block(l, Remote, [])][copy := Block(l, Active, HandedCopies(l, w[b].subs, v))]
    case Close(b, v) =>
      assert BlockOk(w[b]);
      w[b := AfterClose(w[b], StripAll(w[b].layout, w[b].subs, v))]
    case CloseLast(b, v) => w - {b}
  }

  /** The local pages the step destroys, with what is still booked on them. */
  ghost function Destroyed(w: World, e: Event): seq<Sub>
    requires Enabled(w, e)
  {
    match e
    case FinishWriteback(b) => seq(|w[b].subs|, i requires 0 <= i < |w[b].subs| => Released(w[b].layout, w[b].subs[i]))
    case Handoff(b, _, v) => seq(|w[b].subs|, i requires 0 <= i < |w[b].subs| => HandedOver(w[b].layout, w[b].subs[i], v))
    case CloseLast(b, v) => StripAll(w[b].layout, w[b].subs, v)
    case _ => []
  }

  // ---------------------------------------------------------------------------------------------
  // Preservation

  lemma FetchedExact(l: Layout, v: Vmr)
    ensures Exact(l, Fetched(l, v)) && Mappers(Fetched(l, v).page) == {}
  {
  }

  lemma FetchOk(l: Layout, n: nat, v: Vmr, pmd: Pmd)
    requires n > 0 && (l.partial ==> n == 1)
    ensures BlockOk(Block(l, Active, InstallAll(l, FetchedSubs(l, n, v), v, pmd)))
  {
    FetchedExact(l, v);
    var subs := FetchedSubs(l, n, v);
    InstallAllExact(l, subs, v, pmd);
    assert SameMappers(InstallAll(l, subs, v, pmd), {v});
  }

  lemma FetchDemandOk(l: Layout, n: nat, v: Vmr, pmd: Pmd, d: nat)
    requires d < n && (l.partial ==> n == 1)
    ensures BlockOk(Block(l, Active, FetchedSubs(l, n, v)[d := Install(l, Fetched(l, v), v, pmd)]))
  {
    FetchedExact(l, v);
    InstallExact(l, Fetched(l, v), v, pmd);
    assert FetchedBy(FetchedSubs(l, n, v)[d := Install(l, Fetched(l, v), v, pmd)], v);
  }

  lemma MappedAlike(l: Layout, subs: seq<Sub>, v: Vmr, pmd: Pmd)
    requires subs != [] && AllExact(l, subs)
    ensures AllExact(l, Mapped(l, subs, v, pmd)) && |Mapped(l, subs, v, pmd)| == |subs|
    ensures SameMappers(Mapped(l, subs, v, pmd), Union(subs) + {v})
  {
    SyncAllIsUnion(l, subs);
    InstallAllExact(l, SyncAll(l, subs), v, pmd);
  }

  lemma MappedOk(l: Layout, subs: seq<Sub>, v: Vmr, pmd: Pmd)
    requires subs != [] && AllExact(l, subs) && (l.partial ==> |subs| <= 1)
    ensures BlockOk(Block(l, Active, Mapped(l, subs, v, pmd)))
  {
    MappedAlike(l, subs, v, pmd);
    assert v in Union(subs) + {v};
  }

  lemma EvictOk(b: Block)
    requires BlockOk(b) && b.phase == Active
    ensures BlockOk(Block(b.layout, Inactive, SyncOwner(b.layout, UnmapAll(b.layout, b.subs))))
  {
    EvictedBlock(b.layout, b.subs);
    assert b.subs[0].page.owner.Some? by {
      assert Exact(b.layout, b.subs[0]);
      if vs :| vs != {} && SameMappers(b.subs, vs) {
        MappedAreOwned(b.layout, b.subs, vs);
      }
    }
  }

  /** A pinned block goes back to the active list as it is, unmapped. */
  lemma PromoteOk(b: Block)
    requires BlockOk(b) && b.phase == Inactive
    ensures BlockOk(Block(b.layout, Active, b.subs))
  {
    forall i | 0 <= i < |b.subs|
      ensures Mappers(b.subs[i].page) == {}
    {
      assert b.subs[i].page.records == [];
    }
    assert FetchedBy(b.subs, b.subs[0].page.owner.value);
  }

  lemma RefaultOk(b: Block, v: Vmr, pmd: Pmd)
    requires BlockOk(b) && (b.phase == Inactive || b.phase == Writeback)
    ensures BlockOk(Block(b.layout, Active, InstallAll(b.layout, TakeOver(b.layout, b.subs, v), v, pmd)))
  {
    TakeOverExact(b.layout, b.subs, v);
    var mid := TakeOver(b.layout, b.subs, v);
    InstallAllExact(b.layout, mid, v, pmd);
    forall i | 0 <= i < |mid|
      ensures Mappers(mid[i].page) == {}
    {
      assert mid[i].page.records == [];
    }
    assert SameMappers(InstallAll(b.layout, mid, v, pmd), {v});
  }

  /** Taking one vmr off a well-formed block leaves it mapped alike, or fetched by the same vmr, or free of
      owners; an unmapped block keeps its one owner or loses it. */
  lemma LeaveOk(b: Block, v: Vmr)
    requires BlockOk(b) && b.phase != Remote
    ensures var r := StripAll(b.layout, b.subs, v);
            && BlockOk(AfterClose(b, r)) && BlockOk(AfterCopy(b, r)) && SyncOwner(b.layout, r) == r
  {
    var r := StripAll(b.layout, b.subs, v);
    StripAllExact(b.layout, b.subs, v);
    if b.phase == Active {
      if vs :| vs != {} && SameMappers(b.subs, vs) {
        LeaveShared(b.layout, b.subs, v, vs);
      } else {
        var w :| FetchedBy(b.subs, w);
        LeaveFetched(b.layout, b.subs, v, w);
      }
    } else {
      LeaveUnmapped(b.layout, b.subs, v);
    }
    LeftOk(b, r);
  }

  /** The shapes a block can be left in; all of them carry one owner wherever nothing is mapped. */
  ghost predicate LeftShape(phase: Phase, r: seq<Sub>)
    requires r != []
  {
    || (exists vs :: vs != {} && SameMappers(r, vs))
    || (exists w :: FetchedBy(r, w))
    || (Unmapped(r) && CommonOwner(r, None))
    || (phase != Active && Unmapped(r) && CommonOwner(r, r[0].page.owner))
  }

  lemma SyncNoop(l: Layout, r: seq<Sub>)
    requires r != []
    requires CommonOwner(r, None) || (r[0].page.owner.Some?
             && forall i :: 0 <= i < |r| ==> r[i].page.records != [] || r[i].page.owner == r[0].page.owner)
    ensures SyncOwner(l, r) == r
  {
    if r[0].page.owner.Some? {
      assert FirstOwned(r) == 0;
    }
  }

  lemma MappedAreOwned(l: Layout, r: seq<Sub>, vs: set<Vmr>)
    requires AllExact(l, r) && vs != {} && SameMappers(r, vs)
    ensures forall i :: 0 <= i < |r| ==> r[i].page.records != [] && r[i].page.owner.Some?
  {
    forall i | 0 <= i < |r|
      ensures r[i].page.records != [] && r[i].page.owner.Some?
    {
      assert Exact(l, r[i]) && Mappers(r[i].page) == vs;
    }
  }

  lemma LeftOk(b: Block, r: seq<Sub>)
    requires r != [] && AllExact(b.layout, r) && LeftShape(b.phase, r)
    requires b.phase != Active ==> Unmapped(r) && CommonOwner(r, r[0].page.owner)
    requires b.phase != Remote && (b.layout.partial ==> |r| <= 1)
    ensures BlockOk(AfterClose(b, r)) && BlockOk(AfterCopy(b, r)) && SyncOwner(b.layout, r) == r
  {
    if vs :| vs != {} && SameMappers(r, vs) {
      MappedAreOwned(b.layout, r, vs);
      SyncNoop(b.layout, r);
    } else if w :| FetchedBy(r, w) {
      SyncNoop(b.layout, r);
    } else {
      SyncNoop(b.layout, r);
    }
  }

  lemma LeaveShared(l: Layout, subs: seq<Sub>, v: Vmr, vs: set<Vmr>)
    requires subs != [] && AllExact(l, subs) && vs != {} && SameMappers(subs, vs)
    ensures SameMappers(StripAll(l, subs, v), vs - {v})
    ensures vs == {v} ==> CommonOwner(StripAll(l, subs, v), None)
  {
    forall i | 0 <= i < |subs|
      ensures Mappers(StripAll(l, subs, v)[i].page) == vs - {v}
      ensures vs == {v} ==> StripAll(l, subs, v)[i].page.owner == None
    {
      StripExact(l, subs[i], v);
      if vs == {v} {
        assert v in Mappers(subs[i].page);
        assert subs[i].page.records[0].vmr in Mappers(subs[i].page);
      }
    }
  }

  lemma LeaveFetched(l: Layout, subs: seq<Sub>, v: Vmr, w: Vmr)
    requires AllExact(l, subs) && FetchedBy(subs, w)
    ensures if v == w then CommonOwner(StripAll(l, subs, v), None) && SameMappers(StripAll(l, subs, v), {})
            else StripAll(l, subs, v) == subs
  {
    forall i | 0 <= i < |subs|
      ensures if v == w then StripAll(l, subs, v)[i].page.owner == None && Mappers(StripAll(l, subs, v)[i].page) == {}
              else StripAll(l, subs, v)[i] == subs[i]
    {
      StripExact(l, subs[i], v);
    }
  }

  lemma LeaveUnmapped(l: Layout, subs: seq<Sub>, v: Vmr)
    requires subs != [] && AllExact(l, subs) && Unmapped(subs) && CommonOwner(subs, subs[0].page.owner)
    ensures var r := StripAll(l, subs, v); Unmapped(r) && CommonOwner(r, r[0].page.owner)
  {
    forall i | 0 <= i < |subs|
      ensures var r := StripAll(l, subs, v)[i];
              r.page.records == [] && r.page.owner == if subs[0].page.owner == Some(v) then None else subs[0].page.owner
    {
      StripExact(l, subs[i], v);
    }
  }

  lemma CopiesOk(l: Layout, subs: seq<Sub>, v: Vmr, pmds: seq<Pmd>)
    requires subs != [] && (l.partial ==> |subs| <= 1)
    requires |pmds| == |subs| && forall i :: 0 <= i < |subs| ==> subs[i] == Copied(l, v, pmds[i])
    ensures BlockOk(Block(l, Active, subs))
  {
    forall i | 0 <= i < |subs|
      ensures Exact(l, subs[i]) && Mappers(subs[i].page) == {v}
    {
      CopiedExact(l, v, pmds[i]);
    }
    assert SameMappers(subs, {v});
  }

  /** Either half of a block is a block in the same phase. */
  lemma HalfOk(b: Block, lo: nat, hi: nat)
    requires BlockOk(b) && lo < hi <= |b.subs|
    ensures BlockOk(Block(b.layout, b.phase, b.subs[lo..hi]))
  {
    if b.phase == Active {
      if vs :| vs != {} && SameMappers(b.subs, vs) {
        assert SameMappers(b.subs[lo..hi], vs);
      } else {
        var w :| FetchedBy(b.subs, w);
        assert FetchedBy(b.subs[lo..hi], w);
      }
    }
  }

  lemma CopyStepOk(w: World, b: BlockId, copy: BlockId, v: Vmr, pmd: Pmd)
    requires WorldOk(w) && Enabled(w, Copy(b, copy, v, pmd))
    ensures WorldOk(Apply(w, Copy(b, copy, v, pmd)))
  {
    assert BlockOk(w[b]);
    LeaveOk(w[b], v);
    CopiesOk(w[b].layout, Copies(w[b].layout, |w[b].subs|, v, pmd), v, seq(|w[b].subs|, i => pmd));
  }

  lemma HandoffStepOk(w: World, b: BlockId, copy: BlockId, v: Vmr)
    requires WorldOk(w) && Enabled(w, Handoff(b, copy, v))
    ensures WorldOk(Apply(w, Handoff(b, copy, v)))
    ensures AllSettled(Destroyed(w, Handoff(b, copy, v)))
  {
    assert BlockOk(w[b]);
    var pmds := seq(|w[b].subs|, i requires 0 <= i < |w[b].subs| => w[b].subs[i].page.records[0].pmd);
    CopiesOk(w[b].layout, HandedCopies(w[b].layout, w[b].subs, v), v, pmds);
    forall i | 0 <= i < |w[b].subs|
      ensures Settled(HandedOver(w[b].layout, w[b].subs[i], v))
    {
      HandoffSettles(w[b].layout, w[b].subs[i], v);
    }
  }

  lemma ReduceStepOk(w: World, b: BlockId, half: BlockId)
    requires WorldOk(w) && Enabled(w, Reduce(b, half))
    ensures WorldOk(Apply(w, Reduce(b, half)))
  {
    assert BlockOk(w[b]);
    var m := |w[b].subs| / 2;
    HalfOk(w[b], 0, m);
    HalfOk(w[b], m, |w[b].subs|);
    assert w[b].subs[..m] == w[b].subs[0..m] && w[b].subs[m..] == w[b].subs[m..|w[b].subs|];
  }

  lemma StepOk(w: World, e: Event)
    requires WorldOk(w) && Enabled(w, e)
    ensures WorldOk(Apply(w, e))
  {
    match e
    case Fetch(b, n, v, pmd) => FetchOk(w[b].layout, n, v, pmd);
    case FetchDemand(b, n, v, pmd, d) => FetchDemandOk(w[b].layout, n, v, pmd, d);
    case MapFault(b, v, pmd) => assert BlockOk(w[b]); MappedOk(w[b].layout, w[b].subs, v, pmd);
    case Stretch(low, high, v, pmd) =>
      assert BlockOk(w[low]) && BlockOk(w[high]);
      MappedOk(w[low].layout, w[low].subs + w[high].subs, v, pmd);
    case Reduce(b, half) => ReduceStepOk(w, b, half);
    case Evict(b) => assert BlockOk(w[b]); EvictOk(w[b]);
    case Promote(b) => assert BlockOk(w[b]); PromoteOk(w[b]);
    case StartWriteback(b) => assert BlockOk(w[b]);
    case FinishWriteback(b) => assert BlockOk(Block(w[b].layout, Remote, []));
    case Refault(b, v, pmd) => assert BlockOk(w[b]); RefaultOk(w[b], v, pmd);
    case Copy(b, copy, v, pmd) => CopyStepOk(w, b, copy, v, pmd);
    case Handoff(b, copy, v) => HandoffStepOk(w, b, copy, v);
    case Close(b, v) => assert BlockOk(w[b]); LeaveOk(w[b], v);
    case CloseLast(b, v) =>
  }

  /** A local page is destroyed only with nothing booked on it: no charge is ever lost. */
  lemma NothingLost(w: World, e: Event)
    requires WorldOk(w) && Enabled(w, e)
    ensures AllSettled(Destroyed(w, e))
  {
    match e
    case FinishWriteback(b) =>
      assert BlockOk(w[b]);
      forall i | 0 <= i < |w[b].subs|
        ensures Settled(Released(w[b].layout, w[b].subs[i]))
      {
        ReleasedSettled(w[b].layout, w[b].subs[i]);
      }
    case Handoff(b, copy, v) => HandoffStepOk(w, b, copy, v);
    case CloseLast(b, v) =>
      assert BlockOk(w[b]);
      forall i | 0 <= i < |w[b].subs|
        ensures Settled(Strip(w[b].layout, w[b].subs[i], v))
      {
        StripExact(w[b].layout, w[b].subs[i], v);
        NamelessSettled(w[b].layout, Strip(w[b].layout, w[b].subs[i], v));
      }
    case _ =>
  }

  lemma NamelessSettled(l: Layout, s: Sub)
    requires Exact(l, s) && Mappers(s.page) == {} && s.page.owner == None
    ensures Settled(s)
  {
    forall v
      ensures Charged(s, v) == 0
    {
      assert Charged(s, v) == Due(l, s.page, v);
    }
  }

  // ---------------------------------------------------------------------------------------------
  // Who maps

  /** Whoever maps a subblock sees a page of it. */
  ghost predicate BlockSeen(b: Block) {
    forall i, v :: 0 <= i < |b.subs| && v in Mappers(b.subs[i].page) ==> Sees(b.layout, v)
  }

  ghost predicate WorldSeen(w: World) {
    forall b :: b in w ==> BlockSeen(w[b])
  }

  lemma OneMapperSeen(b: Block, v: Vmr)
    requires Sees(b.layout, v) && forall i :: 0 <= i < |b.subs| ==> Mappers(b.subs[i].page) <= {v}
    ensures BlockSeen(b)
  {
    hide Sees;
    forall i, u | 0 <= i < |b.subs| && u in Mappers(b.subs[i].page)
      ensures u == v
    {
      assert Mappers(b.subs[i].page) <= {v};
    }
  }

  lemma MappedSeen(l: Layout, subs: seq<Sub>, v: Vmr, pmd: Pmd)
    requires subs != [] && AllExact(l, subs) && Sees(l, v)
    requires forall i, u :: 0 <= i < |subs| && u in Mappers(subs[i].page) ==> Sees(l, u)
    ensures BlockSeen(Block(l, Active, Mapped(l, subs, v, pmd)))
  {
    MappedAlike(l, subs, v, pmd);
    var seen := set u | u in Union(subs) && Sees(l, u);
    forall i | 0 <= i < |subs|
      ensures Mappers(subs[i].page) <= seen
    {
      UnionHas(subs, i);
    }
    UnionLeast(subs, seen);
    hide Sees, Mapped;
  }

  lemma StrippedSeen(b: Block, v: Vmr, phase: Phase)
    requires BlockOk(b) && BlockSeen(b)
    ensures BlockSeen(Block(b.layout, phase, StripAll(b.layout, b.subs, v)))
  {
    StripAllExact(b.layout, b.subs, v);
    hide Sees, Strip;
    forall i, u | 0 <= i < |b.subs| && u in Mappers(StripAll(b.layout, b.subs, v)[i].page)
      ensures Sees(b.layout, u)
    {
      assert u in Mappers(b.subs[i].page);
    }
  }

  lemma FetchSeen(l: Layout, n: nat, v: Vmr, pmd: Pmd, d: nat)
    requires d < n && Sees(l, v)
    ensures BlockSeen(Block(l, Active, InstallAll(l, FetchedSubs(l, n, v), v, pmd)))
    ensures BlockSeen(Block(l, Active, FetchedSubs(l, n, v)[d := Install(l, Fetched(l, v), v, pmd)]))
  {
    FetchedExact(l, v);
    InstallAllExact(l, FetchedSubs(l, n, v), v, pmd);
    InstallExact(l, Fetched(l, v), v, pmd);
    hide Sees, Install, Fetched;
    OneMapperSeen(Block(l, Active, InstallAll(l, FetchedSubs(l, n, v), v, pmd)), v);
    OneMapperSeen(Block(l, Active, FetchedSubs(l, n, v)[d := Install(l, Fetched(l, v), v, pmd)]), v);
  }

  lemma RefaultSeen(b: Block, v: Vmr, pmd: Pmd)
    requires BlockOk(b) && (b.phase == Inactive || b.phase == Writeback) && Sees(b.layout, v)
    ensures BlockSeen(Block(b.layout, Active, InstallAll(b.layout, TakeOver(b.layout, b.subs, v), v, pmd)))
  {
    TakeOverExact(b.layout, b.subs, v);
    var mid := TakeOver(b.layout, b.subs, v);
    InstallAllExact(b.layout, mid, v, pmd);
    hide Sees, TakeOver;
    forall i | 0 <= i < |mid|
      ensures Mappers(mid[i].page) == {}
    {
      assert mid[i].page.records == [];
    }
    OneMapperSeen(Block(b.layout, Active, InstallAll(b.layout, mid, v, pmd)), v);
  }

  lemma EvictSeen(b: Block)
    requires BlockOk(b) && b.phase == Active
    ensures BlockSeen(Block(b.layout, Inactive, SyncOwner(b.layout, UnmapAll(b.layout, b.subs))))
  {
    EvictedBlock(b.layout, b.subs);
    var r := SyncOwner(b.layout, UnmapAll(b.layout, b.subs));
    forall i | 0 <= i < |r|
      ensures Mappers(r[i].page) == {}
    {
      assert r[i].page.records == [];
    }
  }

  lemma CopySeen(b: Block, v: Vmr, pmd: Pmd)
    requires BlockOk(b) && BlockSeen(b) && b.phase != Remote && Sees(b.layout, v)
    ensures BlockSeen(AfterCopy(b, SyncOwner(b.layout, StripAll(b.layout, b.subs, v))))
    ensures BlockSeen(Block(b.layout, Active, Copies(b.layout, |b.subs|, v, pmd)))
  {
    LeaveOk(b, v);
    CopiedExact(b.layout, v, pmd);
    hide Sees, Strip, Copied, SyncOwner;
    StrippedSeen(b, v, AfterCopy(b, StripAll(b.layout, b.subs, v)).phase);
    OneMapperSeen(Block(b.layout, Active, Copies(b.layout, |b.subs|, v, pmd)), v);
  }

  lemma HandoffSeen(b: Block, v: Vmr)
    requires BlockOk(b) && BlockSeen(b) && b.phase == Active && MappedByOnly(b.subs, v)
    ensures BlockSeen(Block(b.layout, Active, HandedCopies(b.layout, b.subs, v)))
  {
    hide Sees;
    forall i | 0 <= i < |b.subs|
      ensures HandedCopies(b.layout, b.subs, v)[i].page == b.subs[i].page
    {
      assert Exact(b.layout, b.subs[i]);
      HandoffMovesRecord(b.layout, b.subs[i], v);
    }
  }

  lemma StepSeen(w: World, e: Event)
    requires WorldOk(w) && WorldSeen(w) && Enabled(w, e)
    ensures WorldSeen(Apply(w, e))
  {
    hide Sees, AllExact, PhaseOk;
    match e
    case Fetch(b, n, v, pmd) => FetchSeen(w[b].layout, n, v, pmd, 0);
    case FetchDemand(b, n, v, pmd, d) => FetchSeen(w[b].layout, n, v, pmd, d);
    case MapFault(b, v, pmd) => FaultSeen(w, e);
    case Stretch(low, high, v, pmd) => FaultSeen(w, e);
    case Reduce(b, half) => assert BlockSeen(w[b]);
    case Evict(b) => assert BlockOk(w[b]); EvictSeen(w[b]);
    case Promote(b) => assert BlockSeen(w[b]);
    case StartWriteback(b) => assert BlockSeen(w[b]);
    case FinishWriteback(b) =>
    case Refault(b, v, pmd) => assert BlockOk(w[b]); RefaultSeen(w[b], v, pmd);
    case Copy(b, copy, v, pmd) => assert BlockOk(w[b]) && BlockSeen(w[b]); CopySeen(w[b], v, pmd);
    case Handoff(b, copy, v) => assert BlockOk(w[b]) && BlockSeen(w[b]); HandoffSeen(w[b], v);
    case Close(b, v) => assert BlockOk(w[b]) && BlockSeen(w[b]); CloseSeen(w[b], v);
    case CloseLast(b, v) =>
  }

  lemma CloseSeen(b: Block, v: Vmr)
    requires BlockOk(b) && BlockSeen(b) && b.phase != Remote
    ensures BlockSeen(AfterClose(b, StripAll(b.layout, b.subs, v)))
  {
    StrippedSeen(b, v, AfterClose(b, StripAll(b.layout, b.subs, v)).phase);
  }

  lemma FaultSeen(w: World, e: Event)
    requires WorldOk(w) && WorldSeen(w) && Enabled(w, e) && (e.MapFault? || e.Stretch?)
    ensures WorldSeen(Apply(w, e))
  {
    hide Sees;
    match e
    case MapFault(b, v, pmd) =>
      assert BlockOk(w[b]) && BlockSeen(w[b]);
      MappedSeen(w[b].layout, w[b].subs, v, pmd);
    case Stretch(low, high, v, pmd) =>
      assert BlockOk(w[low]) && BlockSeen(w[low]) && BlockOk(w[high]) && BlockSeen(w[high]);
      MappedSeen(w[low].layout, w[low].subs + w[high].subs, v, pmd);
    case _ =>
  }

  // ---------------------------------------------------------------------------------------------
  // Runs

  ghost predicate Schedulable(w: World, es: seq<Event>)
    requires WorldOk(w)
    decreases |es|
  {
    es == [] || (Enabled(w, es[0]) && (StepOk(w, es[0]); Schedulable(Apply(w, es[0]), es[1..])))
  }

  ghost function After(w: World, es: seq<Event>): World
    requires WorldOk(w) && Schedulable(w, es)
    decreases |es|
  {
    if es == [] then w else StepOk(w, es[0]); After(Apply(w, es[0]), es[1..])
  }

  lemma {:induction false} RunOk(w: World, es: seq<Event>)
    requires WorldOk(w) && Schedulable(w, es)
    ensures WorldOk(After(w, es)) && (WorldSeen(w) ==> WorldSeen(After(w, es)))
    decreases |es|
  {
    if es != [] {
      StepOk(w, es[0]);
      if WorldSeen(w) {
        StepSeen(w, es[0]);
      }
      RunOk(Apply(w, es[0]), es[1..]);
    }
  }

  /** The residency model, over every run from a world with everything on the donors: what is booked for a vmr on a
      subblock is the pages of it that the vmr sees if it maps it, plus the whole subblock if it is the retained owner
      of one nobody maps; and an unmapped block stands whole on one address space. */
  lemma LedgerIsExact(w: World, es: seq<Event>, b: BlockId, i: nat, v: Vmr)
    requires forall k :: k in w ==> w[k].phase == Remote && w[k].subs == []
    requires WorldOk(w) && Schedulable(w, es)
    requires b in After(w, es) && i < |After(w, es)[b].subs|
    ensures var k := After(w, es)[b];
            var page := k.subs[i].page;
            && Charged(k.subs[i], v) ==
                 (if v in Mappers(page) then |SeenPages(k.layout, v)| else 0)
                 + (if Mappers(page) == {} && page.owner == Some(v) then k.layout.size else 0)
            && (k.phase == Inactive || k.phase == Writeback ==>
                  Charged(k.subs[i], v) == if k.subs[0].page.owner == Some(v) then k.layout.size else 0)
  {
    RunOk(w, es);
    var k := After(w, es)[b];
    assert BlockOk(k) && BlockSeen(k);
    assert Exact(k.layout, k.subs[i]);
    if v in Mappers(k.subs[i].page) {
      PageLenIsPages(k.layout, v);
    }
    NobodyMaps(k.subs[i].page);
  }

  lemma NobodyMaps(p: PageState)
    ensures Mappers(p) == {} <==> p.records == []
  {
    if p.records != [] {
      assert p.records[0].vmr in Mappers(p);
    }
  }
}
