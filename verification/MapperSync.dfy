/**
  Synchronising the mapper sets of a block whose subblocks were fetched or stretched at different times.

  The code walks the block once.  It compares each subblock with the head only, takes the longer of the
  two record lists first, and stops early when the number of installs equals the difference of the
  original counts.  The result is nevertheless the union of all the sets, everywhere.
 */
module MapperSync {
  import opened MapperList
  import opened MapperRecords
  import opened Residency

  /** Installs on every subblock each of `rs` that subblock `target` lacks. */
  function InstallMissing(l: Layout, subs: seq<Sub>, rs: seq<Record>, target: nat): (r: seq<Sub>)
    requires target < |subs|
    ensures |r| == |subs|
    decreases |rs|
  {
    if rs == [] then subs
    else if rs[0].vmr in Mappers(subs[target].page) then InstallMissing(l, subs, rs[1..], target)
    else InstallMissing(l, InstallAll(l, subs, rs[0].vmr, rs[0].pmd), rs[1..], target)
  }

  predicate SingleSame(p: PageState, q: PageState) {
    |p.records| == 1 && |q.records| == 1 && p.owner == q.owner
  }

  function MoreIndex(subs: seq<Sub>, k: nat): nat
    requires 0 < k < |subs|
  {
    if |subs[0].page.records| >= |subs[k].page.records| then 0 else k
  }

  /** The head against one subblock. */
  function SyncPair(l: Layout, subs: seq<Sub>, k: nat): (r: seq<Sub>)
    requires 0 < k < |subs|
    ensures |r| == |subs|
  {
    var more := MoreIndex(subs, k);
    var less := if more == 0 then k else 0;
    if (subs[0].page.records == [] && subs[k].page.records == []) || SingleSame(subs[0].page, subs[k].page) then subs
    else
      var s1 := InstallMissing(l, subs, subs[more].page.records, less);
      if |s1[less].page.records| == |subs[more].page.records| then s1
      else InstallMissing(l, s1, s1[less].page.records, more)
  }

  function SyncFrom(l: Layout, subs: seq<Sub>, k: nat): (r: seq<Sub>)
    requires 0 < k <= |subs|
    ensures |r| == |subs|
    decreases |subs| - k
  {
    if k == |subs| then subs else SyncFrom(l, SyncPair(l, subs, k), k + 1)
  }

  function SyncAll(l: Layout, subs: seq<Sub>): seq<Sub>
    requires subs != []
  {
    SyncFrom(l, subs, 1)
  }

  function Union(subs: seq<Sub>): set<Vmr> {
    if subs == [] then {} else Mappers(subs[0].page) + Union(subs[1..])
  }

  /** Every subblock gains the same vmrs, all of them mappers of some subblock before. */
  ghost predicate Gained(subs: seq<Sub>, r: seq<Sub>, vs: set<Vmr>) {
    && |r| == |subs|
    && forall i :: 0 <= i < |subs| ==> Mappers(r[i].page) == Mappers(subs[i].page) + vs
  }

  lemma {:induction false} InstallMissingGains(l: Layout, subs: seq<Sub>, rs: seq<Record>, target: nat)
      returns (vs: set<Vmr>)
    requires target < |subs| && AllExact(l, subs)
    ensures AllExact(l, InstallMissing(l, subs, rs, target))
    ensures Gained(subs, InstallMissing(l, subs, rs, target), vs)
    ensures vs == Vmrs(rs) - Mappers(subs[target].page)
    decreases |rs|
  {
    if rs == [] {
      vs := {};
    } else if rs[0].vmr in Mappers(subs[target].page) {
      vs := InstallMissingGains(l, subs, rs[1..], target);
    } else {
      InstallAllExact(l, subs, rs[0].vmr, rs[0].pmd);
      var mid := InstallAll(l, subs, rs[0].vmr, rs[0].pmd);
      var rest := InstallMissingGains(l, mid, rs[1..], target);
      vs := {rs[0].vmr} + rest;
    }
  }

  /** The early exit compares counts, not sets: it is right because neither list has duplicates. */
  lemma CountMeetsSet(more: PageState, less: PageState)
    requires Legal(more) && Legal(less) && Mappers(more) <= Mappers(less)
    ensures |less.records| == |more.records| <==> Mappers(less) == Mappers(more)
  {
    CountIsCardinality(more.records);
    CountIsCardinality(less.records);
    if |less.records| == |more.records| {
      assert Mappers(less) == Mappers(more) + (Mappers(less) - Mappers(more));
    }
  }

  /** The guard as the code evaluates it, from the counts before the loop and the installs in it. */
  lemma InstalledIsGrowth(l: Layout, subs: seq<Sub>, k: nat)
    requires 0 < k < |subs| && AllExact(l, subs)
    ensures var more := MoreIndex(subs, k);
            var less := if more == 0 then k else 0;
            var s1 := InstallMissing(l, subs, subs[more].page.records, less);
            && |s1[less].page.records| - |subs[less].page.records| == |Mappers(subs[more].page) - Mappers(subs[less].page)|
            && (|s1[less].page.records| == |subs[more].page.records| <==> Mappers(subs[less].page) <= Mappers(subs[more].page))
  {
    var more := MoreIndex(subs, k);
    var less := if more == 0 then k else 0;
    var s1 := InstallMissing(l, subs, subs[more].page.records, less);
    var vs := InstallMissingGains(l, subs, subs[more].page.records, less);
    assert Exact(l, s1[less]) && Exact(l, subs[less]) && Exact(l, subs[more]);
    CountIsCardinality(s1[less].page.records);
    CountIsCardinality(subs[less].page.records);
    assert |Mappers(subs[less].page) + vs| == |Mappers(subs[less].page)| + |vs|;
    CountMeetsSet(subs[more].page, s1[less].page);
  }

  lemma SyncPairEqualises(l: Layout, subs: seq<Sub>, k: nat) returns (vs: set<Vmr>)
    requires 0 < k < |subs| && AllExact(l, subs)
    ensures AllExact(l, SyncPair(l, subs, k)) && Gained(subs, SyncPair(l, subs, k), vs)
    ensures vs <= Mappers(subs[0].page) + Mappers(subs[k].page)
    ensures Mappers(SyncPair(l, subs, k)[0].page) == Mappers(SyncPair(l, subs, k)[k].page)
  {
    var more := MoreIndex(subs, k);
    var less := if more == 0 then k else 0;
    assert Exact(l, subs[0]) && Exact(l, subs[k]);
    if subs[0].page.records == [] && subs[k].page.records == [] {
      vs := {};
    } else if SingleSame(subs[0].page, subs[k].page) {
      vs := {};
      assert subs[0].page.records == [subs[0].page.records[0]];
      assert subs[k].page.records == [subs[k].page.records[0]];
      VmrsSingle(subs[0].page.records[0]);
      VmrsSingle(subs[k].page.records[0]);
    } else {
      var s1 := InstallMissing(l, subs, subs[more].page.records, less);
      vs := InstallMissingGains(l, subs, subs[more].page.records, less);
      assert Exact(l, s1[less]) && Exact(l, s1[more]);
      assert Mappers(s1[more].page) == Mappers(subs[more].page);
      CountMeetsSet(subs[more].page, s1[less].page);
      if |s1[less].page.records| != |subs[more].page.records| {
        var ws := InstallMissingGains(l, s1, s1[less].page.records, more);
        vs := vs + ws;
      }
    }
  }

  /** Subblocks `0..k` agree. */
  ghost predicate Agree(subs: seq<Sub>, k: nat) {
    forall i :: 0 <= i < k && i < |subs| ==> Mappers(subs[i].page) == Mappers(subs[0].page)
  }

  lemma {:induction false} UnionHas(subs: seq<Sub>, i: nat)
    requires i < |subs|
    ensures Mappers(subs[i].page) <= Union(subs)
  {
    if i > 0 {
      UnionHas(subs[1..], i - 1);
    }
  }

  lemma {:induction false} UnionLeast(subs: seq<Sub>, vs: set<Vmr>)
    requires forall i :: 0 <= i < |subs| ==> Mappers(subs[i].page) <= vs
    ensures Union(subs) <= vs
  {
    if subs != [] {
      UnionLeast(subs[1..], vs);
    }
  }

  lemma GainedUnion(subs: seq<Sub>, r: seq<Sub>, vs: set<Vmr>)
    requires Gained(subs, r, vs) && vs <= Union(subs)
    ensures Union(r) == Union(subs)
  {
    forall i | 0 <= i < |subs|
      ensures Mappers(r[i].page) <= Union(subs) && Mappers(subs[i].page) <= Union(r)
    {
      UnionHas(subs, i);
      UnionHas(r, i);
    }
    UnionLeast(subs, Union(r));
    UnionLeast(r, Union(subs));
  }

  lemma {:induction false} SyncFromEqualises(l: Layout, subs: seq<Sub>, k: nat)
    requires 0 < k <= |subs| && AllExact(l, subs) && Agree(subs, k)
    ensures AllExact(l, SyncFrom(l, subs, k)) && Agree(SyncFrom(l, subs, k), |subs|)
    ensures Union(SyncFrom(l, subs, k)) == Union(subs)
    decreases |subs| - k
  {
    if k < |subs| {
      var vs := SyncPairEqualises(l, subs, k);
      UnionHas(subs, 0);
      UnionHas(subs, k);
      GainedUnion(subs, SyncPair(l, subs, k), vs);
      SyncFromEqualises(l, SyncPair(l, subs, k), k + 1);
    }
  }

  /** One pass suffices: afterwards every subblock is mapped by exactly the vmrs that mapped any subblock
      before, and the ledger is still exact. */
  lemma SyncAllIsUnion(l: Layout, subs: seq<Sub>)
    requires subs != [] && AllExact(l, subs)
    ensures var r := SyncAll(l, subs);
            && |r| == |subs| && AllExact(l, r)
            && forall i :: 0 <= i < |r| ==> Mappers(r[i].page) == Union(subs)
  {
    SyncFromEqualises(l, subs, 1);
    var r := SyncAll(l, subs);
    UnionLeast(r, Mappers(r[0].page));
    UnionHas(r, 0);
  }

  /** A block whose subblocks agree already is left as it is. */
  lemma {:induction false} SyncOfAgreed(l: Layout, subs: seq<Sub>, k: nat)
    requires 0 < k <= |subs| && AllExact(l, subs) && Agree(subs, |subs|)
    ensures SyncFrom(l, subs, k) == subs
    decreases |subs| - k
  {
    if k < |subs| {
      assert Exact(l, subs[0]) && Exact(l, subs[k]);
      CountIsCardinality(subs[0].page.records);
      CountIsCardinality(subs[k].page.records);
      NothingMissing(l, subs, subs[0].page.records, k);
      SyncOfAgreed(l, subs, k + 1);
    }
  }

  lemma {:induction false} NothingMissing(l: Layout, subs: seq<Sub>, rs: seq<Record>, target: nat)
    requires target < |subs| && Vmrs(rs) <= Mappers(subs[target].page)
    ensures InstallMissing(l, subs, rs, target) == subs
    decreases |rs|
  {
    if rs != [] {
      NothingMissing(l, subs, rs[1..], target);
    }
  }

  // ---------------------------------------------------------------------------------------------
  // Records, with their pmds

  /** Some subblock records `r`. */
  ghost predicate Had(subs: seq<Sub>, r: Record) {
    exists j :: 0 <= j < |subs| && r in subs[j].page.records
  }

  /** Every record stays where it is, and none is new to the block. */
  ghost predicate KeepsRecords(subs: seq<Sub>, out: seq<Sub>) {
    && |out| == |subs|
    && (forall i, r: Record :: 0 <= i < |subs| && r in subs[i].page.records ==> r in out[i].page.records)
    && (forall i, r: Record :: 0 <= i < |subs| && r in out[i].page.records ==> Had(subs, r))
  }

  /** The subblocks that map `v` map it through one pmd. */
  ghost predicate OnePmd(subs: seq<Sub>, v: Vmr) {
    forall r: Record, q: Record :: Had(subs, r) && Had(subs, q) && r.vmr == v && q.vmr == v ==> r == q
  }

  lemma KeepsChain(a: seq<Sub>, b: seq<Sub>, c: seq<Sub>)
    requires KeepsRecords(a, b) && KeepsRecords(b, c)
    ensures KeepsRecords(a, c)
  {
    forall r | Had(b, r)
      ensures Had(a, r)
    {
    }
    hide Had;
  }

  lemma KeepsHad(a: seq<Sub>, b: seq<Sub>, r: Record)
    requires KeepsRecords(a, b)
    ensures Had(b, r) <==> Had(a, r)
  {
  }

  lemma InstallAllKeepsRecords(l: Layout, subs: seq<Sub>, v: Vmr, pmd: Pmd)
    requires Had(subs, Record(v, pmd))
    ensures KeepsRecords(subs, InstallAll(l, subs, v, pmd))
  {
    forall i, r: Record | 0 <= i < |subs|
      ensures r in subs[i].page.records ==> r in InstallAll(l, subs, v, pmd)[i].page.records
      ensures r in InstallAll(l, subs, v, pmd)[i].page.records ==> Had(subs, r)
    {
      InsertKeepsRecords(subs[i].page, v, pmd, r);
    }
  }

  lemma {:induction false} InstallMissingKeepsRecords(l: Layout, subs: seq<Sub>, rs: seq<Record>, target: nat)
    requires target < |subs| && forall r :: r in rs ==> Had(subs, r)
    ensures KeepsRecords(subs, InstallMissing(l, subs, rs, target))
    decreases |rs|
  {
    if rs == [] {
    } else if rs[0].vmr in Mappers(subs[target].page) {
      InstallMissingKeepsRecords(l, subs, rs[1..], target);
    } else {
      var mid := InstallAll(l, subs, rs[0].vmr, rs[0].pmd);
      assert Had(subs, rs[0]) && rs[0] == Record(rs[0].vmr, rs[0].pmd);
      InstallAllKeepsRecords(l, subs, rs[0].vmr, rs[0].pmd);
      hide Had, InstallAll;
      forall r | r in rs[1..]
        ensures Had(mid, r)
      {
        KeepsHad(subs, mid, r);
      }
      InstallMissingKeepsRecords(l, mid, rs[1..], target);
      KeepsChain(subs, mid, InstallMissing(l, mid, rs[1..], target));
    }
  }

  lemma SyncPairKeepsRecords(l: Layout, subs: seq<Sub>, k: nat)
    requires 0 < k < |subs|
    ensures KeepsRecords(subs, SyncPair(l, subs, k))
  {
    var more := MoreIndex(subs, k);
    var less := if more == 0 then k else 0;
    InstallMissingKeepsRecords(l, subs, subs[more].page.records, less);
    var s1 := InstallMissing(l, subs, subs[more].page.records, less);
    InstallMissingKeepsRecords(l, s1, s1[less].page.records, more);
    hide InstallMissing;
    KeepsChain(subs, s1, InstallMissing(l, s1, s1[less].page.records, more));
  }

  lemma {:induction false} SyncFromKeepsRecords(l: Layout, subs: seq<Sub>, k: nat)
    requires 0 < k <= |subs|
    ensures KeepsRecords(subs, SyncFrom(l, subs, k))
    decreases |subs| - k
  {
    if k < |subs| {
      SyncPairKeepsRecords(l, subs, k);
      SyncFromKeepsRecords(l, SyncPair(l, subs, k), k + 1);
      hide SyncPair;
      KeepsChain(subs, SyncPair(l, subs, k), SyncFrom(l, subs, k));
    }
  }

  /** The pass installs every vmr with a pmd some subblock of the block recorded for it, and changes no record.  Where
      the subblocks agreed on pmds they end with the same records, those that were on any of them. */
  lemma SyncAllKeepsRecords(l: Layout, subs: seq<Sub>)
    requires subs != [] && AllExact(l, subs)
    ensures KeepsRecords(subs, SyncAll(l, subs))
    ensures forall v :: OnePmd(subs, v) ==> OnePmd(SyncAll(l, subs), v)
    ensures forall i, r: Record :: 0 <= i < |subs| && OnePmd(subs, r.vmr) ==>
              (r in SyncAll(l, subs)[i].page.records <==> Had(subs, r))
  {
    var out := SyncAll(l, subs);
    SyncFromKeepsRecords(l, subs, 1);
    SyncAllIsUnion(l, subs);
    forall v | OnePmd(subs, v)
      ensures OnePmd(out, v)
    {
      forall r: Record
        ensures Had(out, r) <==> Had(subs, r)
      {
        KeepsHad(subs, out, r);
      }
    }
    forall i, r: Record | 0 <= i < |subs| && OnePmd(subs, r.vmr) && Had(subs, r)
      ensures r in out[i].page.records
    {
      HadIsMapper(subs, r);
      var q := RecordOf(out[i].page.records, r.vmr);
      assert Had(subs, q);
    }
  }

  lemma HadIsMapper(subs: seq<Sub>, r: Record)
    requires Had(subs, r)
    ensures r.vmr in Union(subs)
  {
    var j :| 0 <= j < |subs| && r in subs[j].page.records;
    UnionHas(subs, j);
  }

  lemma RecordOf(rs: seq<Record>, v: Vmr) returns (q: Record)
    requires v in Vmrs(rs)
    ensures q in rs && q.vmr == v
  {
    q := rs[Find(rs, v)];
  }
}
