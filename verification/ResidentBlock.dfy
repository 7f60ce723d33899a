/**
  The loops over the subblocks of a locked resident block, updating records and charges in place.

  Each method is tied to the function of `Residency` or `MapperSync` it computes; the laws are proved
  there.
 */
module ResidentBlock {
  import opened MapperList
  import opened Residency
  import opened MapperSync

  class Block {
    const layout: Layout
    var subs: seq<Sub>   // the subblocks' local pages, head first

    constructor (l: Layout, s: seq<Sub>)
      ensures layout == l && subs == s
    {
      layout, subs := l, s;
    }

    /** Maps the whole block for `v`, skipping the subblocks it maps already. */
    method InstallHptes(v: Vmr, pmd: Pmd)
      modifies `subs
      ensures subs == InstallAll(layout, old(subs), v, pmd)
    {
      var i := 0;
      while i < |subs|
        invariant i <= |subs| == old(|subs|)
        invariant forall k :: 0 <= k < i ==> subs[k] == InstallAll(layout, old(subs), v, pmd)[k]
        invariant forall k :: i <= k < |subs| ==> subs[k] == old(subs)[k]
      {
        if v !in Mappers(subs[i].page) {
          subs := subs[i := Install(layout, subs[i], v, pmd)];
        }
        i := i + 1;
      }
    }

    /** One vmr off every subblock of the block. */
    method UnmapVmrPtes(v: Vmr)
      modifies `subs
      ensures subs == UnmapVmr(layout, old(subs), v)
    {
      var i := 0;
      while i < |subs|
        invariant i <= |subs| == old(|subs|)
        invariant forall k :: 0 <= k < i ==> subs[k] == Unmap(layout, old(subs)[k], v)
        invariant forall k :: i <= k < |subs| ==> subs[k] == old(subs)[k]
      {
        subs := subs[i := Unmap(layout, subs[i], v)];
        i := i + 1;
      }
    }

    /** While a subblock has a mapper left, that mapper is taken off the whole block. */
    method UnmapUntilClear(i: nat)
      requires AllExact(layout, subs) && i < |subs| && i <= FirstMapped(subs)
      modifies `subs
      ensures AllExact(layout, subs) && i < FirstMapped(subs) && |subs| == old(|subs|)
      ensures UnmapAll(layout, subs) == UnmapAll(layout, old(subs))
    {
      hide Exact, Unmap;
      while subs[i].page.records != []
        invariant i < |subs| == old(|subs|) && AllExact(layout, subs) && i <= FirstMapped(subs)
        invariant UnmapAll(layout, subs) == UnmapAll(layout, old(subs))
        decreases TotalRecords(subs)
      {
        var v := subs[i].page.records[0].vmr;
        TotalDrops(layout, subs, v);
        UnmappedStay(layout, subs, v, i);
        UnmapVmrPtes(v);
      }
    }

    method UnmapPtes()
      requires AllExact(layout, subs)
      modifies `subs
      ensures subs == UnmapAll(layout, old(subs))
      ensures AllExact(layout, subs) && Unmapped(subs) && |subs| == old(|subs|)
    {
      UnmapAllClears(layout, subs);
      var i := 0;
      while i < |subs|
        invariant AllExact(layout, subs) && i <= FirstMapped(subs) && |subs| == old(|subs|)
        invariant UnmapAll(layout, subs) == UnmapAll(layout, old(subs))
      {
        UnmapUntilClear(i);
        i := i + 1;
      }
    }

    static lemma UnmappedStay(l: Layout, s: seq<Sub>, v: Vmr, i: nat)
      requires AllExact(l, s) && i == FirstMapped(s) < |s|
      ensures i <= FirstMapped(UnmapVmr(l, s, v))
    {
      forall j | 0 <= j < i
        ensures UnmapVmr(l, s, v)[j].page.records == []
      {
        UnmapExact(l, s[j], v);
      }
    }

    /** One owner for every unmapped subblock. */
    method SyncBlockOwner()
      requires subs != []
      modifies `subs
      ensures subs == SyncOwner(layout, old(subs))
    {
      var owner := subs[0].page.owner;
      if owner == None {
        var j := 0;
        while j < |subs| && owner == None
          invariant 0 <= j <= |subs| && (owner == None ==> j <= FirstOwned(subs))
          invariant owner.Some? ==> owner == BlockOwner(subs)
        {
          owner := subs[j].page.owner;
          j := j + 1;
        }
        if owner == None {
          return;
        }
      }
      assert owner == BlockOwner(subs);
      var i := 0;
      while i < |subs|
        invariant i <= |subs| == old(|subs|)
        invariant forall k :: 0 <= k < i ==> subs[k] == SyncSub(layout, old(subs)[k], owner.value)
        invariant forall k :: i <= k < |subs| ==> subs[k] == old(subs)[k]
      {
        subs := subs[i := SyncSub(layout, subs[i], owner.value)];
        i := i + 1;
      }
    }

    /** A fault on an inactive block or one being written back moves it whole to `v`. */
    method TakeOverBlock(v: Vmr)
      requires subs != []
      modifies `subs
      ensures subs == TakeOver(layout, old(subs), v)
    {
      var prev := subs[0].page.owner;
      if prev == Some(v) {
        return;
      }
      var i := 0;
      while i < |subs|
        invariant i <= |subs| == old(|subs|)
        invariant forall k :: 0 <= k < i ==> subs[k] == TakeSub(layout, old(subs)[k], prev, v)
        invariant forall k :: i <= k < |subs| ==> subs[k] == old(subs)[k]
      {
        subs := subs[i := TakeSub(layout, subs[i], prev, v)];
        i := i + 1;
      }
    }

    static lemma OneMoreUnmapped(s: seq<Sub>, i: nat)
      requires i < |s|
      ensures Unmapped(s[..i + 1]) <==> Unmapped(s[..i]) && s[i].page.records == []
    {
      var a, b := s[..i], s[..i + 1];
      assert forall k :: 0 <= k < i ==> b[k] == a[k];
      assert b[i] == s[i];
    }

    /** Close: `v`'s record or ownership leaves every subblock. */
    method StripVmr(v: Vmr) returns (anyMapped: bool)
      modifies `subs
      ensures subs == StripAll(layout, old(subs), v)
      ensures anyMapped <==> !Unmapped(subs)
    {
      anyMapped := false;
      var i := 0;
      assert Unmapped(subs[..0]);
      hide Strip, Unmapped;
      while i < |subs|
        invariant i <= |subs| == old(|subs|)
        invariant forall k :: 0 <= k < i ==> subs[k] == Strip(layout, old(subs)[k], v)
        invariant forall k :: i <= k < |subs| ==> subs[k] == old(subs)[k]
        invariant anyMapped <==> !Unmapped(subs[..i])
      {
        ghost var before := subs[..i];
        var s := Strip(layout, subs[i], v);
        subs := subs[i := s];
        assert subs[..i] == before;
        OneMoreUnmapped(subs, i);
        if s.page.records != [] {
          anyMapped := true;
        }
        i := i + 1;
      }
      assert subs[..i] == subs;
    }

    method IsMappedByOnly(v: Vmr) returns (only: bool)
      ensures only <==> MappedByOnly(subs, v)
    {
      var i := 0;
      while i < |subs|
        invariant i <= |subs| && MappedByOnly(subs[..i], v)
      {
        if |subs[i].page.records| != 1 || subs[i].page.owner != Some(v) {
          return false;
        }
        i := i + 1;
      }
      return true;
    }

    /** Installs what `target` lacks of `rs`; `installed` counts the vmrs, not the subblocks. */
    method InstallFrom(rs: seq<Record>, target: nat) returns (installed: nat)
      requires target < |subs| && AllExact(layout, subs)
      modifies `subs
      ensures subs == InstallMissing(layout, old(subs), rs, target) && AllExact(layout, subs)
      ensures |subs[target].page.records| == old(|subs[target].page.records|) + installed
    {
      installed := 0;
      var i := 0;
      while i < |rs|
        invariant i <= |rs| && target < |subs| && |subs| == old(|subs|) && AllExact(layout, subs)
        invariant InstallMissing(layout, subs, rs[i..], target) == InstallMissing(layout, old(subs), rs, target)
        invariant |subs[target].page.records| == old(|subs[target].page.records|) + installed
      {
        if rs[i].vmr !in Mappers(subs[target].page) {
          InstallAllExact(layout, subs, rs[i].vmr, rs[i].pmd);
          assert Exact(layout, subs[target]);
          InsertAddsMapper(subs[target].page, rs[i].vmr, rs[i].pmd);
          InstallHptes(rs[i].vmr, rs[i].pmd);
          installed := installed + 1;
        }
        assert rs[i..][1..] == rs[i + 1..];
        i := i + 1;
      }
    }

    method SyncWithHead(k: nat)
      requires 0 < k < |subs| && AllExact(layout, subs)
      modifies `subs
      ensures subs == SyncPair(layout, old(subs), k) && AllExact(layout, subs)
    {
      if |subs[0].page.records| == 0 && |subs[k].page.records| == 0 {
        return;
      }
      if |subs[0].page.records| == 1 && |subs[k].page.records| == 1 && subs[0].page.owner == subs[k].page.owner {
        return;
      }
      var more, less := 0, k;
      if |subs[0].page.records| < |subs[k].page.records| {
        more, less := k, 0;
      }
      var nMore, nLess := |subs[more].page.records|, |subs[less].page.records|;
      var installed := InstallFrom(subs[more].page.records, less);
      if installed == nMore - nLess {
        return;
      }
      var _ := InstallFrom(subs[less].page.records, more);
    }

    /** Every subblock is compared with the head, once. */
    method SyncHptMap()
      requires subs != [] && AllExact(layout, subs)
      modifies `subs
      ensures subs == SyncAll(layout, old(subs)) && AllExact(layout, subs)
      ensures forall i :: 0 <= i < |subs| ==> Mappers(subs[i].page) == Union(old(subs))
      ensures KeepsRecords(old(subs), subs) && forall v :: OnePmd(old(subs), v) ==> OnePmd(subs, v)
    {
      hide KeepsRecords, OnePmd;
      SyncAllIsUnion(layout, subs);
      SyncAllKeepsRecords(layout, subs);
      var k := 1;
      while k < |subs|
        invariant 0 < k <= |subs| == old(|subs|) && AllExact(layout, subs)
        invariant SyncFrom(layout, subs, k) == SyncAll(layout, old(subs))
      {
        SyncWithHead(k);
        k := k + 1;
      }
    }
  }

  /** `v`'s record leaves one subblock that is being copied, with its charge: the view if `v` mapped it, the whole
      subblock if `v` owned it unmapped, nothing if it did neither; and `v` is not retained as owner. */
  method LeaveCopied(l: Layout, s: Sub, v: Vmr) returns (r: Sub)
    ensures r == Strip(l, s, v)
  {
    var owned := s.page.owner == Some(v);
    r := s;
    if v in Mappers(s.page) {
      r := Charge(Sub(Popped(s.page, v), s.charge), v, -PageLen(l, v));
    } else if owned {
      r := Charge(s, v, 0 - l.size);
    }
    if owned && r.page.owner == Some(v) {
      r := Sub(PageState(None, r.page.records), r.charge);
    }
  }

  /** Once the owners are synchronised the head alone tells whether the block is nobody's. */
  lemma OrphanIs(l: Layout, subs: seq<Sub>)
    requires AllExact(l, subs) && subs != []
    ensures SyncOwner(l, subs)[0].page.owner == None
            <==> Unmapped(SyncOwner(l, subs)) && CommonOwner(SyncOwner(l, subs), None)
  {
    hide Exact;
    BlockOwnerIs(subs);
    SyncOwnerExact(l, subs);
  }

  /** A page inserted for its owner and then charged. */
  lemma BareIsCopied(l: Layout, v: Vmr, pmd: Pmd)
    ensures Charge(Sub(Inserted(PageState(Some(v), []), v, pmd), map[]), v, PageLen(l, v)) == Copied(l, v, pmd)
    ensures Copied(l, v, pmd).page.records == [Record(v, pmd)]
  {
  }

  /** Copy-on-write by copying: `copy` gets pages of its own, recorded and then charged for `v`; the old block loses
      `v` and what `v` orphaned goes to an owner that remains.  The result tells whether nobody is left. */
  method CopyBlock(block: Block, copy: Block, v: Vmr, pmd: Pmd) returns (orphan: bool)
    requires block != copy && block.subs != [] && copy.subs == [] && block.layout == copy.layout
    requires AllExact(block.layout, block.subs)
    modifies block`subs, copy`subs
    ensures block.subs == SyncOwner(block.layout, StripAll(block.layout, old(block.subs), v))
    ensures |copy.subs| == |block.subs| == old(|block.subs|)
    ensures forall i :: 0 <= i < |copy.subs| ==> copy.subs[i] == Copied(copy.layout, v, pmd)
    ensures forall i :: 0 <= i < |copy.subs| ==> copy.subs[i].page.records == [Record(v, pmd)]
    ensures AllExact(block.layout, block.subs) && AllExact(copy.layout, copy.subs)
    ensures orphan <==> Unmapped(block.subs) && CommonOwner(block.subs, None)
  {
    hide Strip, Copied, Charge, SyncOwner, Exact, PageLen, Inserted, Unmapped;
    StripAllExact(block.layout, block.subs, v);
    SyncOwnerExact(block.layout, StripAll(block.layout, block.subs, v));
    CopiedExact(copy.layout, v, pmd);
    OrphanIs(block.layout, StripAll(block.layout, block.subs, v));
    BareIsCopied(copy.layout, v, pmd);
    var n, l := |block.subs|, block.layout;
    var bare := Sub(Inserted(PageState(Some(v), []), v, pmd), map[]);
    while |copy.subs| < n
      invariant |copy.subs| <= n && block.subs == old(block.subs)
      invariant forall k :: 0 <= k < |copy.subs| ==> copy.subs[k] == bare
    {
      copy.subs := copy.subs + [bare];
    }
    var i := 0;
    while i < n
      invariant 0 <= i <= n == |copy.subs| == |block.subs|
      invariant forall k :: 0 <= k < i ==> copy.subs[k] == Copied(l, v, pmd) && block.subs[k] == Strip(l, old(block.subs)[k], v)
      invariant forall k :: i <= k < n ==> copy.subs[k] == bare && block.subs[k] == old(block.subs)[k]
    {
      var s := LeaveCopied(l, block.subs[i], v);
      block.subs := block.subs[i := s];
      copy.subs := copy.subs[i := Charge(copy.subs[i], v, PageLen(l, v))];
      i := i + 1;
    }
    assert block.subs == StripAll(l, old(block.subs), v);
    block.SyncBlockOwner();
    orphan := block.subs[0].page.owner == None;
  }

  /** Copy-on-write by handing the pages over, allowed when `v` maps every subblock alone: the records and
      their charges move to the new local pages and the old ones are destroyed, settled. */
  method HandOverBlock(block: Block, copy: Block, v: Vmr) returns (ghost destroyed: seq<Sub>)
    requires block != copy && copy.subs == [] && block.layout == copy.layout
    requires AllExact(block.layout, block.subs) && MappedByOnly(block.subs, v)
    modifies block`subs, copy`subs
    ensures block.subs == [] && |copy.subs| == |destroyed| == old(|block.subs|)
    ensures forall i :: 0 <= i < |destroyed| ==>
      && copy.subs[i] == Copied(copy.layout, v, old(block.subs)[i].page.records[0].pmd)
      && destroyed[i] == HandedOver(block.layout, old(block.subs)[i], v)
    ensures AllSettled(destroyed) && AllExact(copy.layout, copy.subs)
    ensures forall i :: 0 <= i < |copy.subs| ==> copy.subs[i].page == old(block.subs)[i].page
  {
    hide Copied, HandedOver, Settled, Exact;
    destroyed := [];
    while block.subs != []
      invariant |destroyed| == |copy.subs| <= old(|block.subs|) && block.subs == old(block.subs)[|destroyed|..]
      invariant AllExact(block.layout, old(block.subs)) && MappedByOnly(old(block.subs), v)
      invariant forall i :: 0 <= i < |destroyed| ==>
        && copy.subs[i] == Copied(copy.layout, v, old(block.subs)[i].page.records[0].pmd)
        && destroyed[i] == HandedOver(block.layout, old(block.subs)[i], v)
      invariant AllSettled(destroyed) && AllExact(copy.layout, copy.subs)
      invariant forall i :: 0 <= i < |copy.subs| ==> copy.subs[i].page == old(block.subs)[i].page
      decreases |block.subs|
    {
      var s := block.subs[0];
      assert s == old(block.subs)[|destroyed|];
      HandoffSettles(block.layout, s, v);
      HandoffMovesRecord(block.layout, s, v);
      CopiedExact(copy.layout, v, s.page.records[0].pmd);
      copy.subs := copy.subs + [Copied(copy.layout, v, s.page.records[0].pmd)];
      destroyed := destroyed + [HandedOver(block.layout, s, v)];
      block.subs := block.subs[1..];
    }
  }

  /** Writeback completion: the local copies go, and the owner stops carrying them. */
  method SetRemote(block: Block) returns (ghost destroyed: seq<Sub>)
    requires AllExact(block.layout, block.subs) && Unmapped(block.subs)
    modifies block`subs
    ensures block.subs == [] && |destroyed| == old(|block.subs|) && AllSettled(destroyed)
    ensures forall i :: 0 <= i < |destroyed| ==> destroyed[i] == Released(block.layout, old(block.subs)[i])
  {
    destroyed := [];
    while block.subs != []
      invariant |destroyed| <= old(|block.subs|) && block.subs == old(block.subs)[|destroyed|..]
      invariant forall i :: 0 <= i < |destroyed| ==> destroyed[i] == Released(block.layout, old(block.subs)[i])
      invariant AllSettled(destroyed)
      decreases |block.subs|
    {
      ghost var s := block.subs[0];
      assert s == old(block.subs)[|destroyed|];
      ReleasedSettled(block.layout, s);
      destroyed := destroyed + [Released(block.layout, s)];
      block.subs := block.subs[1..];
    }
  }
}
