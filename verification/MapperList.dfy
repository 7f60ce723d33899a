/**
  The mapping records of one subblock's local page.

  The records form a circular list whose first node is embedded in the local page; that entry is also
  the representative that carries the subblock's residency charge, and it outlives the last mapping as a
  retained owner.  `PageState` is the list as a value; `LocalPage` is the list as it is linked in memory.
 */
module MapperList {

  type Vmr = nat
  type Pmd = nat

  datatype Option<T> = None | Some(value: T)

  datatype Record = Record(vmr: Vmr, pmd: Pmd)

  /** `records[0]` is the embedded entry whenever there is a record. */
  datatype PageState = PageState(owner: Option<Vmr>, records: seq<Record>)

  function Vmrs(rs: seq<Record>): (r: set<Vmr>)
    ensures forall i :: 0 <= i < |rs| ==> rs[i].vmr in r
  {
    if rs == [] then {} else {rs[0].vmr} + Vmrs(rs[1..])
  }

  function Mappers(p: PageState): set<Vmr> {
    Vmrs(p.records)
  }

  /** The three legal states of the embedded entry: nothing, a retained owner without a mapping, or a
      mapped representative; and no vmr has two records. */
  ghost predicate Legal(p: PageState) {
    && (p.records != [] ==> p.owner == Some(p.records[0].vmr))
    && Distinct(p.records)
  }

  /** Position of `v`'s record, or the length. */
  function Find(rs: seq<Record>, v: Vmr): (i: nat)
    ensures i <= |rs|
    ensures forall j :: 0 <= j < i ==> rs[j].vmr != v
    ensures i < |rs| ==> rs[i].vmr == v
    ensures i < |rs| <==> v in Vmrs(rs)
  {
    if rs == [] || rs[0].vmr == v then 0 else
    assert forall j :: 1 <= j <= Find(rs[1..], v) ==> rs[j].vmr == rs[1..][j - 1].vmr;
    1 + Find(rs[1..], v)
  }

  function Inserted(p: PageState, v: Vmr, pmd: Pmd): PageState {
    if p.records == [] then PageState(Some(v), [Record(v, pmd)])
    else if v in Mappers(p) then p
    else PageState(p.owner, [p.records[0], Record(v, pmd)] + p.records[1..])
  }

  /** Taking out the embedded entry of a longer list copies its successor into it; taking out the last
      record leaves its vmr behind as the retained owner. */
  function Popped(p: PageState, v: Vmr): PageState {
    var i := Find(p.records, v);
    if i == |p.records| then p
    else
      var rest := p.records[..i] + p.records[i + 1..];
      PageState(if rest == [] then p.owner else Some(rest[0].vmr), rest)
  }

  function Promoted(p: PageState, v: Vmr): PageState {
    var i := Find(p.records, v);
    if p.owner == Some(v) || i == |p.records| then p
    else PageState(Some(v), p.records[i := p.records[0]][0 := p.records[i]])
  }

  // ---------------------------------------------------------------------------------------------
  // The list refines a set with a representative

  lemma VmrsSingle(r: Record)
    ensures Vmrs([r]) == {r.vmr}
  {
    assert [r][1..] == [];
  }

  lemma InsertAddsMapper(p: PageState, v: Vmr, pmd: Pmd)
    requires Legal(p)
    ensures Legal(Inserted(p, v, pmd))
    ensures Mappers(Inserted(p, v, pmd)) == Mappers(p) + {v}
    ensures |Inserted(p, v, pmd).records| == |p.records| + if v in Mappers(p) then 0 else 1
    ensures p.records != [] ==> Inserted(p, v, pmd).owner == p.owner
  {
    var q := Inserted(p, v, pmd);
    if p.records != [] && v !in Mappers(p) {
      var e, n := [p.records[0]], [Record(v, pmd)];
      VmrsOfConcat(e + n, p.records[1..]);
      VmrsOfConcat(e, n);
      VmrsOfConcat(e, p.records[1..]);
      VmrsSingle(n[0]);
      assert p.records == e + p.records[1..] && q.records == e + n + p.records[1..];
    } else if p.records == [] {
      VmrsSingle(q.records[0]);
    }
  }

  lemma {:induction false} VmrsOfConcat(a: seq<Record>, b: seq<Record>)
    ensures Vmrs(a + b) == Vmrs(a) + Vmrs(b)
  {
    if a == [] {
      assert a + b == b;
    } else {
      assert (a + b)[1..] == a[1..] + b;
      VmrsOfConcat(a[1..], b);
    }
  }

  ghost predicate Distinct(rs: seq<Record>) {
    forall i, j :: 0 <= i < j < |rs| ==> rs[i].vmr != rs[j].vmr
  }

  lemma {:induction false} VmrsAbsent(rs: seq<Record>, v: Vmr)
    requires forall i :: 0 <= i < |rs| ==> rs[i].vmr != v
    ensures v !in Vmrs(rs)
  {
    if rs != [] {
      VmrsAbsent(rs[1..], v);
    }
  }

  lemma DistinctWithout(rs: seq<Record>, i: nat)
    requires Distinct(rs) && i < |rs|
    ensures Distinct(rs[..i] + rs[i + 1..])
  {
    var r := rs[..i] + rs[i + 1..];
    forall j, k | 0 <= j < k < |r|
      ensures r[j].vmr != r[k].vmr
    {
      assert r[j] == rs[if j < i then j else j + 1] && r[k] == rs[if k < i then k else k + 1];
    }
  }

  lemma VmrsWithout(rs: seq<Record>, i: nat)
    requires Distinct(rs) && i < |rs|
    ensures Vmrs(rs[..i] + rs[i + 1..]) == Vmrs(rs) - {rs[i].vmr}
    ensures Distinct(rs[..i] + rs[i + 1..])
  {
    DistinctWithout(rs, i);
    OthersDiffer(rs, i);
    hide Distinct, Vmrs;
    Rejoined(rs, i);
    VmrsAround(rs[..i], rs[i], rs[i + 1..]);
    VmrsOfConcat(rs[..i], rs[i + 1..]);
    Subtracted(Vmrs(rs[..i]), rs[i].vmr, Vmrs(rs[i + 1..]));
  }

  lemma Rejoined(rs: seq<Record>, i: nat)
    requires i < |rs|
    ensures rs == rs[..i] + ([rs[i]] + rs[i + 1..])
  {
  }

  lemma Subtracted(a: set<Vmr>, v: Vmr, b: set<Vmr>)
    requires v !in a && v !in b
    ensures a + {v} + b - {v} == a + b
  {
  }

  lemma OthersDiffer(rs: seq<Record>, i: nat)
    requires Distinct(rs) && i < |rs|
    ensures rs[i].vmr !in Vmrs(rs[..i]) && rs[i].vmr !in Vmrs(rs[i + 1..])
  {
    VmrsAbsent(rs[..i], rs[i].vmr);
    VmrsAbsent(rs[i + 1..], rs[i].vmr);
  }

  lemma VmrsAround(a: seq<Record>, r: Record, b: seq<Record>)
    ensures Vmrs(a + ([r] + b)) == Vmrs(a) + {r.vmr} + Vmrs(b)
  {
    VmrsOfConcat(a, [r] + b);
    assert ([r] + b)[1..] == b;
  }

  /** Popping removes exactly one mapper.  The last one stays behind as owner, and the representative is
      never an unmapped one while a mapping survives. */
  lemma PopRemovesMapper(p: PageState, v: Vmr)
    requires Legal(p)
    ensures Legal(Popped(p, v))
    ensures Mappers(Popped(p, v)) == Mappers(p) - {v}
    ensures |Popped(p, v).records| == |p.records| - if v in Mappers(p) then 1 else 0
    ensures v in Mappers(p) && |p.records| == 1 ==> Popped(p, v) == PageState(Some(v), [])
    ensures Popped(p, v).records != [] ==> Popped(p, v).owner.Some? && Popped(p, v).owner.value in Mappers(p)
    ensures p.records != [] && p.records[0].vmr != v ==> Popped(p, v).owner == p.owner
  {
    var i := Find(p.records, v);
    if i < |p.records| {
      VmrsWithout(p.records, i);
    }
  }

  lemma PromoteKeepsMappers(p: PageState, v: Vmr)
    requires Legal(p) && v in Mappers(p)
    ensures Legal(Promoted(p, v))
    ensures Mappers(Promoted(p, v)) == Mappers(p) && |Promoted(p, v).records| == |p.records|
    ensures Promoted(p, v).owner == Some(v) && Promoted(p, v).records[0].vmr == v
  {
    var q := Promoted(p, v);
    var i := Find(p.records, v);
    if q != p {
      forall w
        ensures w in Mappers(q) <==> w in Mappers(p)
      {
        var j, k := Find(p.records, w), Find(q.records, w);
        if j < |p.records| {
          assert q.records[if j == 0 then i else if j == i then 0 else j].vmr == w;
        }
        if k < |q.records| {
          assert p.records[if k == 0 then i else if k == i then 0 else k].vmr == w;
        }
      }
    }
  }

  /** `num_pmds` counts distinct mappers. */
  lemma {:induction false} CountIsCardinality(rs: seq<Record>)
    requires Distinct(rs)
    ensures |Vmrs(rs)| == |rs|
  {
    if rs != [] {
      CountIsCardinality(rs[1..]);
      VmrsAbsent(rs[1..], rs[0].vmr);
    }
  }

  /** Inserting a vmr that was absent and popping it again leaves the same mappers. */
  lemma PopUndoesInsert(p: PageState, v: Vmr, pmd: Pmd)
    requires Legal(p) && v !in Mappers(p)
    ensures Popped(Inserted(p, v, pmd), v).records == p.records
    ensures Popped(Inserted(p, v, pmd), v).owner == if p.records == [] then Some(v) else p.owner
  {
    var q := Inserted(p, v, pmd);
    if p.records != [] {
      assert p.records[0].vmr in Mappers(p);
      assert Find(q.records, v) == 1;
    }
  }

  lemma DropOne<T>(s: seq<T>, i: nat)
    requires i < |s|
    ensures multiset(s) == multiset(s[..i] + s[i + 1..]) + multiset{s[i]}
  {
    assert s == s[..i] + [s[i]] + s[i + 1..];
  }

  // ---------------------------------------------------------------------------------------------
  // The linked list

  class MappedPmd {
    var next: MappedPmd?
    var vmr: Option<Vmr>
    var pmd: Option<Pmd>

    constructor ()
      ensures next == null && vmr == None && pmd == None
    {
      next, vmr, pmd := null, None, None;
    }
  }

  class LocalPage {
    const pmds: MappedPmd     // the embedded entry
    var numPmds: nat
    ghost var nodes: seq<MappedPmd>  // the circle, from the embedded entry; empty when it maps nothing

    /** The nodes are linked into one circle through the embedded entry. */
    ghost predicate Circle()
      reads this, pmds, nodes
    {
      && (forall i, j :: 0 <= i < j < |nodes| ==> nodes[i] != nodes[j])
      && (nodes != [] ==> nodes[0] == pmds && nodes[|nodes| - 1].next == pmds)
      && (forall i :: 0 <= i < |nodes| - 1 ==> nodes[i].next == nodes[i + 1])
    }

    ghost predicate Valid()
      reads this, pmds, nodes
    {
      && Circle()
      && numPmds == |nodes|
      && (nodes == [] <==> pmds.next == null) && (nodes == [] ==> pmds.pmd == None)
      && (forall i :: 0 <= i < |nodes| ==> nodes[i].vmr.Some? && nodes[i].pmd.Some?)
      && Legal(State())
    }

    ghost function RecordOf(n: MappedPmd): Record
      reads n
    {
      if n.vmr.Some? && n.pmd.Some? then Record(n.vmr.value, n.pmd.value) else Record(0, 0)
    }

    ghost function State(): PageState
      reads this, pmds, nodes
    {
      var ns := nodes;
      PageState(pmds.vmr, seq(|ns|, i requires 0 <= i < |ns| reads ns => RecordOf(ns[i])))
    }

    /** Where the walk stands after `i` steps. */
    lemma Walk(i: nat)
      requires Valid() && i < |nodes|
      ensures nodes[i].next == if i < |nodes| - 1 then nodes[i + 1] else pmds
      ensures nodes[i].next == pmds <==> i == |nodes| - 1
      ensures nodes[i] == pmds <==> i == 0
      ensures nodes[i].vmr.Some? && nodes[i].pmd.Some?
      ensures State().records[i] == Record(nodes[i].vmr.value, nodes[i].pmd.value)
    {
      if i < |nodes| - 1 {
        assert nodes[0] != nodes[i + 1];
      }
    }

    ghost function Footprint(): set<object>
      reads this
    {
      {this, pmds} + set n | n in nodes
    }

    constructor (owner: Option<Vmr>)
      ensures Valid() && State() == PageState(owner, []) && fresh(Footprint())
    {
      var e := new MappedPmd();
      e.vmr := owner;
      pmds, numPmds, nodes := e, 0, [];
    }

    /** Walks the circle once from the embedded entry; `prev` is the node before `p`. */
    method Seek(v: Vmr) returns (prev: MappedPmd, p: MappedPmd?)
      requires Valid() && nodes != []
      ensures var i := Find(State().records, v);
              if p == null then i == |nodes| else i < |nodes| && p == nodes[i] && prev == nodes[if i == 0 then 0 else i - 1]
    {
      prev := pmds;
      var q := pmds;
      ghost var i := 0;
      while q.vmr != Some(v)
        invariant 0 <= i < |nodes| && q == nodes[i] && prev == nodes[if i == 0 then 0 else i - 1]
        invariant forall j :: 0 <= j < i ==> State().records[j].vmr != v
        decreases |nodes| - i
      {
        Walk(i);
        if q.next == pmds {
          return prev, null;
        }
        prev, q, i := q, q.next, i + 1;
      }
      Walk(i);
      p := q;
    }

    method Lookup(v: Vmr) returns (pmd: Option<Pmd>)
      requires Valid()
      ensures pmd.Some? <==> v in Mappers(State())
      ensures pmd.Some? ==> Record(v, pmd.value) in State().records
    {
      if pmds.next == null {
        return None;
      }
      var _, p := Seek(v);
      if p == null {
        return None;
      }
      Walk(Find(State().records, v));
      return p.pmd;
    }

    /** Links `node` right behind the embedded entry. */
    method LinkBehind(v: Vmr, pmd: Pmd, node: MappedPmd)
      requires Valid() && nodes != [] && node !in Footprint() && v !in Mappers(State())
      modifies this, pmds, node
      ensures Valid() && State() == Inserted(old(State()), v, pmd)
      ensures nodes == [pmds, node] + old(nodes)[1..]
    {
      ghost var before, was := State(), nodes;
      Walk(0);
      node.vmr, node.pmd, node.next := Some(v), Some(pmd), pmds.next;
      pmds.next := node;
      numPmds := numPmds + 1;
      nodes := [pmds, node] + was[1..];
      SplicedCircle(was, node);
      SplicedRecords(was, node);
      InsertAddsMapper(before, v, pmd);
    }

    twostate lemma SplicedCircle(was: seq<MappedPmd>, new node: MappedPmd)
      requires |was| > 0 && nodes == [was[0], node] + was[1..] && node !in was && was[0] == pmds
      requires forall i, j :: 0 <= i < j < |was| ==> was[i] != was[j]
      requires forall i :: 0 <= i < |was| - 1 ==> old(was[i].next) == was[i + 1]
      requires old(was[|was| - 1].next) == pmds
      requires pmds.next == node && node.next == old(pmds.next)
      requires forall i :: 1 <= i < |was| ==> unchanged(was[i])
      ensures Circle()
    {
      forall i | 0 <= i < |nodes| - 1
        ensures nodes[i].next == nodes[i + 1]
      {
        if i >= 2 {
          assert nodes[i] == was[i - 1];
        }
      }
      if |was| > 1 {
        assert nodes[|nodes| - 1] == was[|was| - 1];
      }
    }

    twostate lemma SplicedRecords(was: seq<MappedPmd>, new node: MappedPmd)
      requires |was| > 0 && nodes == [was[0], node] + was[1..] && was == old(nodes) && was[0] == pmds
      requires forall i :: 1 <= i < |was| ==> unchanged(was[i])
      requires pmds.vmr == old(pmds.vmr) && pmds.pmd == old(pmds.pmd)
      ensures State().records == [old(State()).records[0], RecordOf(node)] + old(State()).records[1..]
    {
      forall i | 2 <= i < |nodes|
        ensures RecordOf(nodes[i]) == old(RecordOf(was[i - 1]))
      {
        assert nodes[i] == was[i - 1];
      }
    }

    /** `node` is what the slab allocator hands out, if it has to be asked. */
    method Insert(v: Vmr, pmd: Pmd, node: MappedPmd?) returns (ok: bool)
      requires Valid() && (node != null ==> node !in Footprint())
      modifies this, pmds, node
      ensures Valid()
      ensures ok <==> old(State().records) == [] || v in old(Mappers(State())) || node != null
      ensures State() == if ok then Inserted(old(State()), v, pmd) else old(State())
      ensures nodes == (if old(nodes) == [] then [pmds]
                        else if v in old(Mappers(State())) || node == null then old(nodes)
                        else [pmds, node] + old(nodes)[1..])
    {
      if pmds.next == null {
        pmds.vmr, pmds.pmd, pmds.next := Some(v), Some(pmd), pmds;
        numPmds := numPmds + 1;
        nodes := [pmds];
        assert State().records == [Record(v, pmd)];
        return true;
      }
      var _, p := Seek(v);
      if p != null {
        return true;
      }
      if node == null {
        return false;
      }
      LinkBehind(v, pmd, node);
      return true;
    }

    /** The node behind `prev` leaves the circle. */
    method Detach(prev: MappedPmd, p: MappedPmd, ghost i: nat)
      requires Circle() && numPmds == |nodes| && 0 < i < |nodes| && nodes[i] == p && nodes[i - 1] == prev
      requires p.next == if i < |nodes| - 1 then nodes[i + 1] else pmds
      modifies this, prev
      ensures Circle() && nodes == old(nodes)[..i] + old(nodes)[i + 1..] && numPmds == old(numPmds) - 1
      ensures forall n :: n in old(nodes) ==> n.vmr == old(n.vmr) && n.pmd == old(n.pmd)
      ensures State() == PageState(old(State()).owner, old(State()).records[..i] + old(State()).records[i + 1..])
      ensures pmds.next != null && forall k :: 0 <= k < |nodes| ==> nodes[k] == old(nodes)[if k < i then k else k + 1]
    {
      ghost var was := nodes;
      prev.next := p.next;
      nodes := was[..i] + was[i + 1..];
      numPmds := numPmds - 1;
      assert forall k :: 0 <= k < |nodes| ==> nodes[k] == was[if k < i then k else k + 1];
      forall k | 0 <= k < |nodes| - 1
        ensures nodes[k].next == nodes[k + 1]
      {
        assert k == i - 1 || nodes[k] == was[if k < i then k else k + 1];
      }
      assert nodes[0] == pmds && (|nodes| > 1 ==> nodes[0].next == nodes[1]);
    }

    method Unlink(v: Vmr, prev: MappedPmd, p: MappedPmd, ghost i: nat)
      requires Valid() && 0 < i < |nodes| && nodes[i] == p && nodes[i - 1] == prev && Find(State().records, v) == i
      modifies this, prev
      ensures Valid() && State() == Popped(old(State()), v) && nodes == old(nodes)[..i] + old(nodes)[i + 1..]
    {
      ghost var before, after := State(), Popped(State(), v);
      Walk(i);
      PopRemovesMapper(before, v);
      assert after.owner == before.owner && after.records == before.records[..i] + before.records[i + 1..];
      hide Popped, Vmrs, Mappers, Distinct, Find, Legal, Circle, State;
      Detach(prev, p, i);
    }

    /** The second node's contents move into the embedded one, and the second leaves the circle. */
    method MoveIn(np: MappedPmd)
      requires Circle() && numPmds == |nodes| > 1 && np == nodes[1] && np.next == if |nodes| > 2 then nodes[2] else pmds
      modifies this, pmds
      ensures Circle() && nodes == [pmds] + old(nodes)[2..] && numPmds == old(numPmds) - 1
      ensures pmds.vmr == np.vmr && pmds.pmd == np.pmd && pmds.next != null && nodes[0] == pmds
      ensures forall k :: 1 <= k < |nodes| ==> nodes[k] == old(nodes)[k + 1]
    {
      ghost var was := nodes;
      pmds.vmr, pmds.pmd, pmds.next := np.vmr, np.pmd, np.next;
      nodes := [pmds] + was[2..];
      numPmds := numPmds - 1;
      assert forall k :: 1 <= k < |nodes| ==> nodes[k] == was[k + 1];
      forall k | 0 <= k < |nodes| - 1
        ensures nodes[k].next == nodes[k + 1]
      {
        assert k == 0 || nodes[k] == was[k + 1];
      }
    }

    /** The embedded node cannot be unlinked, so its successor moves into it. */
    method ReplaceEmbedded(v: Vmr, np: MappedPmd)
      requires Valid() && |nodes| > 1 && np == nodes[1] && pmds.vmr == Some(v)
      modifies this, pmds
      ensures Valid() && State() == Popped(old(State()), v) && nodes == [pmds] + old(nodes)[2..]
    {
      ghost var before, after := State(), Popped(State(), v);
      Walk(0);
      Walk(1);
      PopRemovesMapper(before, v);
      assert after.records == before.records[1..] && after.owner == Some(before.records[1].vmr);
      hide Popped, Vmrs, Mappers, Distinct, Find, Legal, Circle;
      MoveIn(np);
      assert State().records == after.records;
    }

    /** The last mapping goes away: the vmr stays, only the mapping is cleared. */
    method RetainOwner()
      requires Valid() && |nodes| == 1
      modifies this, pmds
      ensures Valid() && State() == PageState(old(State()).owner, []) && nodes == []
    {
      pmds.pmd, pmds.next := None, null;
      nodes := [];
      numPmds := numPmds - 1;
    }

    /** Removes `v`'s record.  `freed` is the node given back to the slab: never the embedded one. */
    method Pop(v: Vmr) returns (pmd: Option<Pmd>, freed: MappedPmd?)
      requires Valid()
      modifies this, pmds, nodes
      ensures Valid() && State() == Popped(old(State()), v)
      ensures pmd.Some? <==> v in old(Mappers(State()))
      ensures pmd.Some? ==> Record(v, pmd.value) in old(State().records)
      ensures freed != null <==> pmd.Some? && |old(nodes)| > 1
      ensures freed != null ==> freed != pmds && multiset(old(nodes)) == multiset(nodes) + multiset{freed}
      ensures pmd.None? ==> nodes == old(nodes)
    {
      ghost var was := nodes;
      if pmds.next == null {
        return None, null;
      }
      var prev, p := Seek(v);
      if p == null {
        return None, null;
      }
      ghost var i := Find(State().records, v);
      Walk(i);
      pmd := p.pmd;
      if p != pmds {
        DropOne(was, i);
        Unlink(v, prev, p, i);
        freed := p;
      } else if p.next != p {
        freed := p.next;
        DropOne(was, 1);
        assert was[..1] == [pmds];
        ReplaceEmbedded(v, freed);
      } else {
        assert was == [pmds];
        RetainOwner();
        freed := null;
      }
    }

    /** Makes an existing mapper the representative by exchanging the contents of two nodes. */
    method PromoteOwner(v: Vmr)
      requires Valid() && v in Mappers(State())
      modifies pmds, nodes
      ensures Valid() && State() == Promoted(old(State()), v)
    {
      ghost var before := State();
      if pmds.vmr == Some(v) {
        return;
      }
      var _, p := Seek(v);
      Walk(Find(before.records, v));
      Walk(0);
      Exchange(p, Find(before.records, v));
      PromoteKeepsMappers(before, v);
    }

    method Exchange(p: MappedPmd, ghost i: nat)
      requires Valid() && 0 < i < |nodes| && p == nodes[i]
      modifies pmds, p
      ensures Circle() && numPmds == |nodes| && pmds.next != null
      ensures forall k :: 0 <= k < |nodes| ==> nodes[k].vmr.Some? && nodes[k].pmd.Some?
      ensures var r := old(State().records); State() == PageState(Some(r[i].vmr), r[i := r[0]][0 := r[i]])
    {
      ghost var r := State().records;
      Walk(i);
      Walk(0);
      var vmr, pmd := p.vmr, p.pmd;
      p.vmr, p.pmd := pmds.vmr, pmds.pmd;
      pmds.vmr, pmds.pmd := vmr, pmd;
      assert State().records == r[i := r[0]][0 := r[i]];
    }

    /** Only legal on an unmapped page: a mapped representative is its own owner. */
    method SetOwner(owner: Option<Vmr>)
      requires Valid() && numPmds == 0
      modifies pmds
      ensures Valid() && State() == PageState(owner, []) && nodes == old(nodes)
    {
      pmds.vmr := owner;
    }
  }
}
