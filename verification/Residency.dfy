/**
  The residency ledger: how many pages of a local subblock each address space is charged for.

  A vmr that maps a subblock is charged the pages it sees of it; a vmr that merely owns a subblock
  nobody maps is charged the subblock whole.  Every operation that installs, removes or moves mapping
  records adjusts the charges by hand; here the operations are functions on one block's subblocks, and
  the ledger is shown to stay exact.
 */
module Residency {
  import opened MapperList

  /** One vmr's interval, in pages of the shared namespace. */
  datatype Window = Window(start: int, end: int)

  /** `size` pages to a subblock; a block flagged partial is one subblock some vmr sees only a part of. */
  datatype Layout = Layout(size: nat, base: int, partial: bool, windows: map<Vmr, Window>)

  /** A subblock that has a local page: its mapping records and the charges booked on it. */
  datatype Sub = Sub(page: PageState, charge: map<Vmr, int>)

  // ---------------------------------------------------------------------------------------------
  // How much of a subblock a vmr sees

  /** The code's two clippings: cut what lies before the window, then what lies behind it. */
  function PartialLen(size: nat, base: int, w: Window): int {
    var len0 := if base < w.start then size - (w.start - base) else size;
    if base + size > w.end then len0 - (base + size - w.end) else len0
  }

  function PageLen(l: Layout, v: Vmr): int {
    if l.partial && v in l.windows then PartialLen(l.size, l.base, l.windows[v]) else l.size
  }

  function PagesIn(lo: int, hi: int): (r: set<int>)
    ensures forall p :: p in r <==> lo <= p < hi
    ensures |r| == if lo < hi then hi - lo else 0
    decreases if lo < hi then hi - lo else 0
  {
    if lo < hi then {hi - 1} + PagesIn(lo, hi - 1) else {}
  }

  lemma SharedPages(a: int, b: int, c: int, d: int)
    ensures PagesIn(a, b) * PagesIn(c, d) == PagesIn(if a < c then c else a, if b < d then b else d)
  {
  }

  /** The clipped length is the number of pages the subblock and the window share. */
  lemma PartialLenIsOverlap(size: nat, base: int, w: Window)
    requires w.start < base + size && base < w.end && w.start <= w.end
    ensures PartialLen(size, base, w) == |PagesIn(base, base + size) * PagesIn(w.start, w.end)|
  {
    SharedPages(base, base + size, w.start, w.end);
  }

  /** The pages of the subblock that `v` sees: those in its window where the block is partial, and else all. */
  function SeenPages(l: Layout, v: Vmr): set<int> {
    var all := PagesIn(l.base, l.base + l.size);
    if l.partial && v in l.windows then all * PagesIn(l.windows[v].start, l.windows[v].end) else all
  }

  /** `v` sees some page of the subblock: whoever faults on it does. */
  predicate Sees(l: Layout, v: Vmr) {
    && l.size > 0
    && (l.partial && v in l.windows ==>
          var w := l.windows[v]; w.start < w.end && w.start < l.base + l.size && l.base < w.end)
  }

  lemma SeesIsSeen(l: Layout, v: Vmr)
    ensures Sees(l, v) <==> SeenPages(l, v) != {}
  {
    var all := PagesIn(l.base, l.base + l.size);
    if Sees(l, v) {
      var p := if l.partial && v in l.windows && l.base < l.windows[v].start then l.windows[v].start else l.base;
      assert p in SeenPages(l, v);
    }
  }

  /** A mapping is charged exactly the pages seen through it. */
  lemma PageLenIsPages(l: Layout, v: Vmr)
    requires Sees(l, v)
    ensures PageLen(l, v) == |SeenPages(l, v)|
  {
    hide PartialLen, PagesIn;
    if l.partial && v in l.windows {
      PartialLenIsOverlap(l.size, l.base, l.windows[v]);
    }
  }

  // ---------------------------------------------------------------------------------------------
  // The ledger

  function Charged(s: Sub, v: Vmr): int {
    if v in s.charge then s.charge[v] else 0
  }

  function Charge(s: Sub, v: Vmr, pages: int): (r: Sub)
    ensures r.page == s.page
    ensures forall w :: Charged(r, w) == Charged(s, w) + if w == v then pages else 0
  {
    Sub(s.page, s.charge[v := Charged(s, v) + pages])
  }

  function Due(l: Layout, p: PageState, v: Vmr): int {
    (if v in Mappers(p) then PageLen(l, v) else 0) + if p.records == [] && p.owner == Some(v) then l.size else 0
  }

  ghost predicate Exact(l: Layout, s: Sub) {
    Legal(s.page) && forall v :: Charged(s, v) == Due(l, s.page, v)
  }

  ghost predicate AllExact(l: Layout, subs: seq<Sub>) {
    forall i :: 0 <= i < |subs| ==> Exact(l, subs[i])
  }

  // ---------------------------------------------------------------------------------------------
  // One subblock

  /** The first mapping ends the subblock's time as local-but-unmapped. */
  function Install(l: Layout, s: Sub, v: Vmr, pmd: Pmd): Sub {
    var s1 := Charge(Sub(Inserted(s.page, v, pmd), s.charge), v, PageLen(l, v));
    if s.page.records == [] && s.page.owner.Some? then Charge(s1, s.page.owner.value, 0 - l.size) else s1
  }

  /** The last mapping to leave hands the subblock whole to the retained owner. */
  function Unmap(l: Layout, s: Sub, v: Vmr): Sub {
    if v !in Mappers(s.page) then s else
    var s1 := Charge(Sub(Popped(s.page, v), s.charge), v, -PageLen(l, v));
    if s1.page.records == [] then Charge(s1, v, l.size) else s1
  }

  function GiveTo(l: Layout, s: Sub, v: Vmr): Sub {
    var s1 := if s.page.owner.Some? then Charge(s, s.page.owner.value, 0 - l.size) else s;
    Charge(Sub(PageState(Some(v), s.page.records), s1.charge), v, l.size)
  }

  /** A page just fetched or allocated for `v`. */
  function Fetched(l: Layout, v: Vmr): Sub {
    Sub(PageState(Some(v), []), map[v := l.size as int])
  }

  /** A closing vmr leaves: its ptes are gone, its record is popped, and an owner is not retained. */
  function Strip(l: Layout, s: Sub, v: Vmr): Sub {
    var mapped, owned := v in Mappers(s.page), s.page.owner == Some(v);
    var s1 := if mapped then Charge(s, v, -PageLen(l, v)) else s;
    var p := Popped(s1.page, v);
    var p1 := if owned && p.owner == Some(v) then PageState(None, p.records) else p;
    var s2 := Sub(p1, s1.charge);
    if owned && !mapped then Charge(s2, v, 0 - l.size) else s2
  }

  lemma InstallExact(l: Layout, s: Sub, v: Vmr, pmd: Pmd)
    requires Exact(l, s) && v !in Mappers(s.page)
    ensures Exact(l, Install(l, s, v, pmd))
    ensures Mappers(Install(l, s, v, pmd).page) == Mappers(s.page) + {v}
  {
    InsertAddsMapper(s.page, v, pmd);
    var r := Install(l, s, v, pmd);
    forall w
      ensures Charged(r, w) == Due(l, r.page, w)
    {
      assert Charged(s, w) == Due(l, s.page, w);
    }
  }

  lemma UnmapExact(l: Layout, s: Sub, v: Vmr)
    requires Exact(l, s)
    ensures Exact(l, Unmap(l, s, v))
    ensures Mappers(Unmap(l, s, v).page) == Mappers(s.page) - {v}
    ensures |Unmap(l, s, v).page.records| == |s.page.records| - if v in Mappers(s.page) then 1 else 0
    ensures s.page.owner.Some? ==> Unmap(l, s, v).page.owner.Some?
    ensures s.page.records == [] ==> Unmap(l, s, v) == s
  {
    PopRemovesMapper(s.page, v);
    var r := Unmap(l, s, v);
    forall w
      ensures Charged(r, w) == Due(l, r.page, w)
    {
      assert Charged(s, w) == Due(l, s.page, w);
    }
  }

  lemma GiveExact(l: Layout, s: Sub, v: Vmr)
    requires Exact(l, s) && s.page.records == []
    ensures Exact(l, GiveTo(l, s, v)) && GiveTo(l, s, v).page == PageState(Some(v), [])
  {
    var r := GiveTo(l, s, v);
    forall w
      ensures Charged(r, w) == Due(l, r.page, w)
    {
      assert Charged(s, w) == Due(l, s.page, w);
    }
  }

  /** After the strip nothing on the subblock names the closed vmr, and nothing is booked on it. */
  lemma StripExact(l: Layout, s: Sub, v: Vmr)
    requires Exact(l, s)
    ensures var r := Strip(l, s, v);
            && Exact(l, r) && Mappers(r.page) == Mappers(s.page) - {v} && r.page.owner != Some(v) && Charged(r, v) == 0
            && (s.page.owner != Some(v) && v !in Mappers(s.page) ==> r == s)
            && (s.page.owner.Some? && s.page.owner != Some(v) ==> r.page.owner == s.page.owner)
            && (r.page.owner == None <==> s.page.owner == None || (s.page.owner == Some(v) && Mappers(s.page) <= {v}))
  {
    PopRemovesMapper(s.page, v);
    var r := Strip(l, s, v);
    forall w
      ensures Charged(r, w) == Due(l, r.page, w)
    {
      assert Charged(s, w) == Due(l, s.page, w);
    }
  }

  // ---------------------------------------------------------------------------------------------
  // A whole block

  ghost predicate Unmapped(subs: seq<Sub>) {
    forall i :: 0 <= i < |subs| ==> subs[i].page.records == []
  }

  ghost predicate CommonOwner(subs: seq<Sub>, owner: Option<Vmr>) {
    forall i :: 0 <= i < |subs| ==> subs[i].page.owner == owner
  }

  /** Subblocks the vmr maps already are skipped. */
  function InstallUnlessMapped(l: Layout, s: Sub, v: Vmr, pmd: Pmd): Sub {
    if v in Mappers(s.page) then s else Install(l, s, v, pmd)
  }

  function InstallAll(l: Layout, subs: seq<Sub>, v: Vmr, pmd: Pmd): (r: seq<Sub>)
    ensures |r| == |subs| && forall i :: 0 <= i < |subs| ==> r[i] == InstallUnlessMapped(l, subs[i], v, pmd)
  {
    seq(|subs|, i requires 0 <= i < |subs| => InstallUnlessMapped(l, subs[i], v, pmd))
  }

  lemma InstallAllExact(l: Layout, subs: seq<Sub>, v: Vmr, pmd: Pmd)
    requires AllExact(l, subs)
    ensures AllExact(l, InstallAll(l, subs, v, pmd))
    ensures forall i :: 0 <= i < |subs| ==>
      Mappers(InstallAll(l, subs, v, pmd)[i].page) == Mappers(subs[i].page) + {v}
  {
    forall i | 0 <= i < |subs|
      ensures Exact(l, InstallUnlessMapped(l, subs[i], v, pmd))
      ensures Mappers(InstallUnlessMapped(l, subs[i], v, pmd).page) == Mappers(subs[i].page) + {v}
    {
      if v !in Mappers(subs[i].page) {
        InstallExact(l, subs[i], v, pmd);
      }
    }
  }

  function UnmapVmr(l: Layout, subs: seq<Sub>, v: Vmr): (r: seq<Sub>)
    ensures |r| == |subs| && forall i :: 0 <= i < |subs| ==> r[i] == Unmap(l, subs[i], v)
  {
    seq(|subs|, i requires 0 <= i < |subs| => Unmap(l, subs[i], v))
  }

  /** Mapping records left on the block: what unmapping a block consumes. */
  function TotalRecords(subs: seq<Sub>): nat {
    if subs == [] then 0 else |subs[0].page.records| + TotalRecords(subs[1..])
  }

  lemma {:induction false} TotalDrops(l: Layout, subs: seq<Sub>, v: Vmr)
    requires AllExact(l, subs)
    ensures AllExact(l, UnmapVmr(l, subs, v))
    ensures TotalRecords(UnmapVmr(l, subs, v)) <= TotalRecords(subs)
    ensures (exists i :: 0 <= i < |subs| && v in Mappers(subs[i].page)) ==>
      TotalRecords(UnmapVmr(l, subs, v)) < TotalRecords(subs)
  {
    if subs != [] {
      UnmapExact(l, subs[0], v);
      TotalDrops(l, subs[1..], v);
      assert UnmapVmr(l, subs, v)[1..] == UnmapVmr(l, subs[1..], v);
      forall i | 0 <= i < |subs| && v in Mappers(subs[i].page)
        ensures i == 0 || v in Mappers(subs[1..][i - 1].page)
      {
      }
    }
  }

  function FirstMapped(subs: seq<Sub>): (i: nat)
    ensures i <= |subs|
    ensures forall j :: 0 <= j < i ==> subs[j].page.records == []
    ensures i < |subs| ==> subs[i].page.records != []
  {
    if subs == [] || subs[0].page.records != [] then 0 else
    assert forall j :: 1 <= j < |subs| ==> subs[j] == subs[1..][j - 1];
    1 + FirstMapped(subs[1..])
  }

  /** Vmr after vmr, each named by the first record left. */
  function UnmapAll(l: Layout, subs: seq<Sub>): seq<Sub>
    requires AllExact(l, subs)
    decreases TotalRecords(subs)
  {
    var i := FirstMapped(subs);
    if i == |subs| then subs
    else
      var v := subs[i].page.records[0].vmr;
      TotalDrops(l, subs, v);
      UnmapAll(l, UnmapVmr(l, subs, v))
  }

  /** Whoever `p` names: its mappers and its owner. */
  function Names(p: PageState): set<Vmr> {
    Mappers(p) + if p.owner.Some? then {p.owner.value} else {}
  }

  lemma UnmapNames(l: Layout, s: Sub, v: Vmr)
    requires Exact(l, s)
    ensures Names(Unmap(l, s, v).page) <= Names(s.page)
  {
    PopRemovesMapper(s.page, v);
  }

  /** Nothing is mapped afterwards, the ledger is exact, and each subblock kept one of its own. */
  lemma {:induction false} UnmapAllClears(l: Layout, subs: seq<Sub>)
    requires AllExact(l, subs)
    ensures var r := UnmapAll(l, subs);
            && |r| == |subs| && AllExact(l, r) && Unmapped(r)
            && forall i :: 0 <= i < |subs| ==>
                 Names(r[i].page) <= Names(subs[i].page)
                 && (subs[i].page.owner.Some? ==> r[i].page.owner.Some?)
                 && (subs[i].page.records == [] ==> r[i] == subs[i])
    decreases TotalRecords(subs)
  {
    var i := FirstMapped(subs);
    if i < |subs| {
      var v := subs[i].page.records[0].vmr;
      TotalDrops(l, subs, v);
      var mid := UnmapVmr(l, subs, v);
      UnmapAllClears(l, mid);
      forall k | 0 <= k < |subs|
        ensures Names(mid[k].page) <= Names(subs[k].page)
        ensures subs[k].page.owner.Some? ==> mid[k].page.owner.Some?
        ensures subs[k].page.records == [] ==> mid[k] == subs[k]
      {
        UnmapExact(l, subs[k], v);
        UnmapNames(l, subs[k], v);
      }
    }
  }

  // ---------------------------------------------------------------------------------------------
  // One owner for an unmapped block

  function FirstOwned(subs: seq<Sub>): (i: nat)
    ensures i <= |subs|
    ensures forall j :: 0 <= j < i ==> subs[j].page.owner == None
    ensures i < |subs| ==> subs[i].page.owner.Some?
  {
    if subs == [] || subs[0].page.owner.Some? then 0 else
    assert forall j :: 1 <= j < |subs| ==> subs[j] == subs[1..][j - 1];
    1 + FirstOwned(subs[1..])
  }

  /** The head's owner, or any owner left when the head has none. */
  function BlockOwner(subs: seq<Sub>): Option<Vmr> {
    var i := FirstOwned(subs);
    if i < |subs| then subs[i].page.owner else None
  }

  function SyncSub(l: Layout, s: Sub, owner: Vmr): Sub {
    if s.page.owner == Some(owner) || s.page.records != [] then s else GiveTo(l, s, owner)
  }

  function SyncOwner(l: Layout, subs: seq<Sub>): (r: seq<Sub>)
    ensures |r| == |subs|
  {
    match BlockOwner(subs)
    case None => subs
    case Some(owner) => seq(|subs|, i requires 0 <= i < |subs| => SyncSub(l, subs[i], owner))
  }

  /** The owner of the head, else of some subblock; none when there is none. */
  lemma BlockOwnerIs(subs: seq<Sub>)
    ensures subs != [] && subs[0].page.owner.Some? ==> BlockOwner(subs) == subs[0].page.owner
    ensures BlockOwner(subs) == None <==> forall i :: 0 <= i < |subs| ==> subs[i].page.owner == None
    ensures BlockOwner(subs).Some? ==> exists i :: 0 <= i < |subs| && subs[i].page.owner == BlockOwner(subs)
  {
  }

  lemma SyncOwnerExact(l: Layout, subs: seq<Sub>)
    requires AllExact(l, subs)
    ensures AllExact(l, SyncOwner(l, subs))
    ensures forall i :: 0 <= i < |subs| ==> SyncOwner(l, subs)[i].page.records == subs[i].page.records
    ensures forall i :: 0 <= i < |subs| && subs[i].page.records == [] ==>
      SyncOwner(l, subs)[i].page.owner == BlockOwner(subs)
    ensures subs != [] && SyncOwner(l, subs)[0].page.owner == None ==> Unmapped(subs) && CommonOwner(subs, None)
  {
    if BlockOwner(subs).Some? {
      var owner := BlockOwner(subs).value;
      forall i | 0 <= i < |subs|
        ensures Exact(l, SyncSub(l, subs[i], owner))
      {
        assert Exact(l, subs[i]);
        if subs[i].page.owner != Some(owner) && subs[i].page.records == [] {
          GiveExact(l, subs[i], owner);
        }
      }
    } else {
      forall i | 0 <= i < |subs|
        ensures subs[i].page.records == []
      {
        assert Exact(l, subs[i]);
      }
    }
  }

  /** Eviction: unmapping and then synchronising leaves one owner for the whole block, or none. */
  lemma EvictedBlock(l: Layout, subs: seq<Sub>)
    requires AllExact(l, subs)
    ensures var r := SyncOwner(l, UnmapAll(l, subs));
            && |r| == |subs| && AllExact(l, r) && Unmapped(r)
            && CommonOwner(r, BlockOwner(UnmapAll(l, subs)))
            && ((exists i :: 0 <= i < |subs| && subs[i].page.owner.Some?) ==> !CommonOwner(r, None))
  {
    UnmapAllClears(l, subs);
    var mid := UnmapAll(l, subs);
    SyncOwnerExact(l, mid);
    forall i | 0 <= i < |subs| && subs[i].page.owner.Some?
      ensures BlockOwner(mid).Some? && SyncOwner(l, mid)[i].page.owner == BlockOwner(mid)
    {
      assert mid[i].page.owner.Some?;
      assert FirstOwned(mid) <= i;
    }
  }

  // ---------------------------------------------------------------------------------------------
  // Faults on an unmapped resident block, and release

  /** The fault handlers read the previous owner from the head alone. */
  function TakeSub(l: Layout, s: Sub, prev: Option<Vmr>, v: Vmr): Sub {
    var s1 := Sub(PageState(Some(v), s.page.records), s.charge);
    var s2 := if prev.Some? then Charge(s1, prev.value, 0 - l.size) else s1;
    Charge(s2, v, l.size)
  }

  function TakeOver(l: Layout, subs: seq<Sub>, v: Vmr): (r: seq<Sub>)
    requires subs != []
    ensures |r| == |subs|
  {
    var prev := subs[0].page.owner;
    if prev == Some(v) then subs else seq(|subs|, i requires 0 <= i < |subs| => TakeSub(l, subs[i], prev, v))
  }

  /** Reading one owner for all is right for a block that has one: it moves whole to `v`. */
  lemma TakeOverExact(l: Layout, subs: seq<Sub>, v: Vmr)
    requires subs != [] && AllExact(l, subs) && Unmapped(subs)
    ensures CommonOwner(subs, subs[0].page.owner) ==>
      && AllExact(l, TakeOver(l, subs, v)) && Unmapped(TakeOver(l, subs, v)) && CommonOwner(TakeOver(l, subs, v), Some(v))
  {
    if CommonOwner(subs, subs[0].page.owner) {
      forall i | 0 <= i < |subs|
        ensures Exact(l, TakeOver(l, subs, v)[i])
      {
        assert Exact(l, subs[i]);
        if subs[0].page.owner != Some(v) {
          GiveExact(l, subs[i], v);
          assert TakeOver(l, subs, v)[i].page == GiveTo(l, subs[i], v).page;
          assert TakeOver(l, subs, v)[i].charge == GiveTo(l, subs[i], v).charge;
        }
      }
    }
  }

  /** A subblock with another owner than the head's comes out wrong. */
  lemma TakeSubWrong(l: Layout, s: Sub, prev: Option<Vmr>, v: Vmr)
    requires Exact(l, s) && s.page.records == [] && prev != Some(v) && s.page.owner != prev && l.size > 0
    ensures !Exact(l, TakeSub(l, s, prev, v))
  {
    var r := TakeSub(l, s, prev, v);
    var w := if s.page.owner.Some? then s.page.owner.value else prev.value;
    assert Charged(s, w) == Due(l, s.page, w);
    assert Charged(r, w) != Due(l, r.page, w);
  }

  /** The loop keeps the ledger exactly when the block has one owner, or is the faulting vmr's already. */
  lemma TakeOverExactIff(l: Layout, subs: seq<Sub>, v: Vmr)
    requires subs != [] && AllExact(l, subs) && Unmapped(subs) && l.size > 0
    ensures AllExact(l, TakeOver(l, subs, v)) <==> subs[0].page.owner == Some(v) || CommonOwner(subs, subs[0].page.owner)
  {
    var prev := subs[0].page.owner;
    TakeOverExact(l, subs, v);
    if prev != Some(v) && !CommonOwner(subs, prev) {
      var i :| 0 <= i < |subs| && subs[i].page.owner != prev;
      TakeSubWrong(l, subs[i], prev, v);
      assert TakeOver(l, subs, v)[i] == TakeSub(l, subs[i], prev, v);
    }
  }

  /** The local copy goes: its owner stops carrying it. */
  function Released(l: Layout, s: Sub): Sub {
    if s.page.owner.Some? then Charge(s, s.page.owner.value, 0 - l.size) else s
  }

  /** Nothing is booked any more, so the local page can be freed without losing a charge. */
  ghost predicate Settled(s: Sub) {
    forall v :: Charged(s, v) == 0
  }

  ghost predicate AllSettled(subs: seq<Sub>) {
    forall i :: 0 <= i < |subs| ==> Settled(subs[i])
  }

  lemma ReleasedSettled(l: Layout, s: Sub)
    requires Exact(l, s) && s.page.records == []
    ensures Settled(Released(l, s))
  {
    forall v
      ensures Charged(Released(l, s), v) == 0
    {
      assert Charged(s, v) == Due(l, s.page, v);
    }
  }

  // ---------------------------------------------------------------------------------------------
  // Copy-on-write of a resident block

  /** The new descriptor's subblock: mapped by the faulting vmr, charged its view. */
  function Copied(l: Layout, v: Vmr, pmd: Pmd): Sub {
    Sub(PageState(Some(v), [Record(v, pmd)]), map[v := PageLen(l, v)])
  }

  lemma CopiedExact(l: Layout, v: Vmr, pmd: Pmd)
    ensures Exact(l, Copied(l, v, pmd)) && Mappers(Copied(l, v, pmd).page) == {v}
    ensures forall r :: r in Copied(l, v, pmd).page.records <==> r == Record(v, pmd)
  {
    VmrsSingle(Record(v, pmd));
  }

  function StripAll(l: Layout, subs: seq<Sub>, v: Vmr): (r: seq<Sub>)
    ensures |r| == |subs| && forall i :: 0 <= i < |subs| ==> r[i] == Strip(l, subs[i], v)
  {
    seq(|subs|, i requires 0 <= i < |subs| => Strip(l, subs[i], v))
  }

  lemma StripAllExact(l: Layout, subs: seq<Sub>, v: Vmr)
    requires AllExact(l, subs)
    ensures AllExact(l, StripAll(l, subs, v))
    ensures forall i :: 0 <= i < |subs| ==>
      var r := StripAll(l, subs, v)[i];
      Mappers(r.page) == Mappers(subs[i].page) - {v} && v !in Names(r.page) && Charged(r, v) == 0
  {
    forall i | 0 <= i < |subs|
      ensures var r := Strip(l, subs[i], v);
              Exact(l, r) && Mappers(r.page) == Mappers(subs[i].page) - {v} && v !in Names(r.page) && Charged(r, v) == 0
    {
      StripExact(l, subs[i], v);
    }
  }

  /** Does `v` map every subblock, and nobody else any? */
  predicate MappedByOnly(subs: seq<Sub>, v: Vmr) {
    forall i :: 0 <= i < |subs| ==> |subs[i].page.records| == 1 && subs[i].page.owner == Some(v)
  }

  /** Handing over: popping the only record and moving its charge settles the page that is destroyed. */
  function HandedOver(l: Layout, s: Sub, v: Vmr): Sub {
    Charge(Sub(Popped(s.page, v), s.charge), v, -PageLen(l, v))
  }

  lemma HandoffSettles(l: Layout, s: Sub, v: Vmr)
    requires Exact(l, s) && |s.page.records| == 1 && s.page.owner == Some(v)
    ensures Settled(HandedOver(l, s, v))
  {
    assert s.page.records == [s.page.records[0]];
    VmrsSingle(s.page.records[0]);
    forall w
      ensures Charged(HandedOver(l, s, v), w) == 0
    {
      assert Charged(s, w) == Due(l, s.page, w);
    }
  }

  /** The copy takes the only record over as it is. */
  lemma HandoffMovesRecord(l: Layout, s: Sub, v: Vmr)
    requires Exact(l, s) && |s.page.records| == 1 && s.page.owner == Some(v)
    ensures Copied(l, v, s.page.records[0].pmd).page == s.page
  {
    assert s.page.records == [Record(v, s.page.records[0].pmd)];
  }
}
