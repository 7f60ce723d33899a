/**
  The view list of a vmdesc as it is linked: the first entry is embedded in the vmdesc and must stay the
  physical head, so it is empty only while the whole list is.
 */
module ViewList {
  import opened ViewIntervals

  class ViewNode {
    var start: nat
    var end: nat
    var count: nat
    var next: ViewNode?

    constructor ()
      ensures count == 0 && next == null
    {
      start, end, count, next := 0, 0, 0, null;
    }
  }

  class Vmdesc {
    const views: ViewNode         // the embedded entry
    ghost var nodes: seq<ViewNode>  // the chain, from the embedded entry

    ghost predicate Chain()
      reads this, nodes
    {
      && nodes != [] && nodes[0] == views && nodes[|nodes| - 1].next == null
      && (forall i, j :: 0 <= i < j < |nodes| ==> nodes[i] != nodes[j])
      && (forall i :: 0 <= i < |nodes| - 1 ==> nodes[i].next == nodes[i + 1])
    }

    ghost predicate Valid()
      reads this, views, nodes
    {
      && Chain()
      && (views.count == 0 ==> |nodes| == 1)
      && WellFormed(Views())
    }

    ghost function ViewOf(n: ViewNode): View
      reads n
    {
      View(Interval(n.start, n.end), n.count)
    }

    ghost function Entries(): (r: seq<View>)
      reads this, nodes
      ensures |r| == |nodes| && forall i :: 0 <= i < |nodes| ==> r[i] == ViewOf(nodes[i])
    {
      var ns := nodes;
      seq(|ns|, i requires 0 <= i < |ns| reads ns => ViewOf(ns[i]))
    }

    /** The list as a value. */
    ghost function Views(): seq<View>
      reads this, views, nodes
    {
      if views.count == 0 then [] else Entries()
    }

    lemma Walk(i: nat)
      requires Chain() && i < |nodes|
      ensures nodes[i].next == if i < |nodes| - 1 then nodes[i + 1] else null
      ensures nodes[i] == views <==> i == 0
      ensures Entries()[i] == ViewOf(nodes[i])
    {
      if i > 0 {
        assert nodes[0] != nodes[i];
      }
    }

    lemma Embedded()
      requires Chain()
      ensures nodes != [] && nodes[0] == views
    {
    }

    constructor ()
      ensures Valid() && Views() == [] && nodes == [views] && fresh(views)
    {
      var e := new ViewNode();
      views, nodes := e, [e];
    }

    // -------------------------------------------------------------------------------------------
    // Add

    /** Where an interval is, or where it belongs. */
    method Seek(start: nat, end: nat) returns (prev: ViewNode?, v: ViewNode?)
      requires Chain()
      ensures var i := Position(Entries(), Interval(start, end));
              && (v == null <==> i == |nodes|) && (v != null ==> v == nodes[i])
              && (prev == null <==> i == 0) && (prev != null ==> prev == nodes[i - 1])
    {
      hide Position;
      prev, v := null, views;
      ghost var i := 0;
      while v != null && (v.start < start || (v.start == start && v.end < end))
        invariant 0 <= i <= |nodes| && (v == null <==> i == |nodes|) && (v != null ==> v == nodes[i])
        invariant (prev == null <==> i == 0) && (prev != null ==> prev == nodes[i - 1])
        invariant forall j :: 0 <= j < i ==> Before(Entries()[j].iv, Interval(start, end))
        decreases |nodes| - i
      {
        Walk(i);
        prev, v, i := v, v.next, i + 1;
      }
      if v != null {
        Walk(i);
      }
      PositionIs(Entries(), Interval(start, end), i);
    }

    // -------------------------------------------------------------------------------------------
    // Links

    /** `was` chained, except that the link behind `was[i - 1]` goes through `n`. */
    lemma SplicedChain(was: seq<ViewNode>, i: nat, n: ViewNode)
      requires 0 < i <= |was| && was[0] == views && n !in was && nodes == was[..i] + [n] + was[i..]
      requires forall k, j :: 0 <= k < j < |was| ==> was[k] != was[j]
      requires forall k :: 0 <= k < |was| - 1 && k != i - 1 ==> was[k].next == was[k + 1]
      requires was[i - 1].next == n
      requires if i < |was| then n.next == was[i] && was[|was| - 1].next == null else n.next == null
      ensures Chain()
    {
      assert forall k :: 0 <= k < i ==> nodes[k] == was[k];
      assert forall k :: i <= k < |was| ==> nodes[k + 1] == was[k];
      forall k | 0 <= k < |nodes| - 1
        ensures nodes[k].next == nodes[k + 1]
      {
        if k != i {
          assert nodes[k] == was[if k < i then k else k - 1];
        }
      }
    }

    method LinkAfter(start: nat, end: nat, count: nat, prev: ViewNode, v: ViewNode?, n: ViewNode, ghost i: nat)
      requires Chain() && n !in nodes && 0 < i <= |nodes| && prev == nodes[i - 1]
      requires (v == null <==> i == |nodes|) && (v != null ==> v == nodes[i])
      modifies this, prev, n
      ensures Chain() && Entries() == old(Entries())[..i] + [View(Interval(start, end), count)] + old(Entries())[i..]
      ensures nodes == old(nodes)[..i] + [n] + old(nodes)[i..]
    {
      ghost var was := nodes;
      n.start, n.end, n.count, n.next := start, end, count, v;
      prev.next := n;
      nodes := was[..i] + [n] + was[i..];
      SplicedChain(was, i, n);
    }

    /** The embedded entry must stay the physical head: what it held moves out into the allocated node right
        behind, and the new content goes into it. */
    method LinkFront(start: nat, end: nat, n: ViewNode)
      requires Chain() && n !in nodes
      modifies this, views, n
      ensures Chain() && Entries() == [View(Interval(start, end), 1)] + old(Entries())
      ensures nodes == old(nodes)[..1] + [n] + old(nodes)[1..]
    {
      hide Chain;
      Embedded();
      Walk(0);
      ghost var before := Entries();
      NextIsSecond();
      LinkAfter(views.start, views.end, views.count, views, views.next, n, 1);
      Embedded();
      FillEntry(start, end);
      assert Entries() == [View(Interval(start, end), 1)] + before;
    }

    lemma NextIsSecond()
      requires Chain()
      ensures views.next == null <==> |nodes| == 1
      ensures views.next != null ==> views.next == nodes[1]
    {
      Walk(0);
    }

    method FillEntry(start: nat, end: nat)
      requires Chain()
      modifies views
      ensures Chain() && Entries() == old(Entries())[0 := View(Interval(start, end), 1)]
    {
      ghost var before := Entries();
      views.start, views.end, views.count := start, end, 1;
      assert forall k :: 0 < k < |nodes| ==> Entries()[k] == before[k];
    }

    lemma CutChain(was: seq<ViewNode>, i: nat)
      requires 0 < i < |was| && was[0] == views && nodes == was[..i] + was[i + 1..]
      requires forall k, j :: 0 <= k < j < |was| ==> was[k] != was[j]
      requires forall k :: 0 <= k < |was| - 1 && k != i - 1 ==> was[k].next == was[k + 1]
      requires if i < |was| - 1 then was[i - 1].next == was[i + 1] && was[|was| - 1].next == null else was[i - 1].next == null
      ensures Chain()
    {
      assert forall k :: 0 <= k < |nodes| ==> nodes[k] == if k < i then was[k] else was[k + 1];
      forall k | 0 <= k < |nodes| - 1
        ensures nodes[k].next == nodes[k + 1]
      {
        assert nodes[k] == was[if k < i then k else k + 1];
      }
    }

    method Unlink(prev: ViewNode, v: ViewNode, ghost i: nat)
      requires Chain() && 0 < i < |nodes| && v == nodes[i] && prev == nodes[i - 1]
      modifies this, prev
      ensures Chain() && Entries() == old(Entries())[..i] + old(Entries())[i + 1..]
      ensures nodes == old(nodes)[..i] + old(nodes)[i + 1..]
    {
      ghost var before, was := Entries(), nodes;
      Walk(i);
      prev.next := v.next;
      nodes := was[..i] + was[i + 1..];
      CutChain(was, i);
      assert Entries() == before[..i] + before[i + 1..];
    }

    /** The embedded entry empties while others remain: its successor is promoted into it. */
    method Promote(dead: ViewNode)
      requires Chain() && |nodes| > 1 && dead == nodes[1]
      modifies this, views
      ensures Chain() && Entries() == old(Entries())[1..]
      ensures nodes == [views] + old(nodes)[2..]
    {
      ghost var before, was := Entries(), nodes;
      Walk(0);
      Walk(1);
      views.start, views.end, views.count, views.next := dead.start, dead.end, dead.count, dead.next;
      nodes := [views] + was[2..];
      assert forall k :: 1 <= k < |nodes| ==> nodes[k] == was[k + 1];
      forall k | 0 <= k < |nodes| - 1
        ensures nodes[k].next == nodes[k + 1]
      {
        assert k == 0 || nodes[k] == was[k + 1];
      }
      assert forall k :: 0 <= k < |nodes| ==> Entries()[k] == before[k + 1];
    }

    method SetCount(v: ViewNode, count: nat, ghost i: nat)
      requires Chain() && i < |nodes| && v == nodes[i]
      modifies v
      ensures Chain() && Entries() == old(Entries())[i := View(old(Entries())[i].iv, count)]
    {
      ghost var before := Entries();
      v.count := count;
      assert forall k :: 0 <= k < |nodes| && k != i ==> Entries()[k] == before[k];
    }

    /** The first view goes into the embedded entry. */
    method FillEmbedded(start: nat, end: nat)
      requires Chain() && |nodes| == 1
      modifies views
      ensures Chain() && Entries() == [View(Interval(start, end), 1)]
    {
      views.start, views.end, views.count := start, end, 1;
    }

    method EmptyEmbedded()
      requires Chain() && |nodes| == 1
      modifies views
      ensures Chain() && views.count == 0
    {
      views.count := 0;
    }

    // -------------------------------------------------------------------------------------------
    // Add and delete

    /** Adds one unit of an interval.  `node` is a preallocated entry, consumed only by a new interval. */
    method AddLocked(start: nat, end: nat, node: ViewNode?) returns (ok: bool, left: ViewNode?)
      requires Valid() && start < end && (node != null ==> node !in nodes)
      modifies this, nodes, node
      ensures Valid()
      ensures ok <==> old(Views()) == [] || Present(old(Views()), Interval(start, end)) || node != null
      ensures Views() == if ok then Added(old(Views()), Interval(start, end)) else old(Views())
      ensures left == if node != null && old(Views()) != [] && !Present(old(Views()), Interval(start, end)) then null else node
      ensures left == node ==> nodes == old(nodes)
      ensures left != node ==> nodes == Spliced(old(nodes), old(Views()), Interval(start, end), node)
    {
      hide Sorted, Proper, Position, Chain, Spliced;
      Embedded();
      if views.count == 0 {
        FillEmbedded(start, end);
        FirstView(start, end);
        return true, node;
      }
      var prev, v := Seek(start, end);
      ghost var i := Position(Views(), Interval(start, end));
      if v != null {
        Walk(i);
        if v.start == start && v.end == end {
          CountUp(v, i);
          return true, node;
        }
      }
      if node == null {
        return false, null;
      }
      LinkNew(start, end, prev, v, node, i);
      return true, null;
    }

    lemma FirstView(start: nat, end: nat)
      requires Chain() && |nodes| == 1 && Entries() == [View(Interval(start, end), 1)] && start < end
      ensures Valid() && Views() == Added([], Interval(start, end))
    {
    }

    static lemma EntryProper(vs: seq<View>, i: nat)
      requires WellFormed(vs) && i < |vs|
      ensures vs[i].iv.start < vs[i].iv.end && vs[i].count > 0
    {
    }

    method CountUp(v: ViewNode, ghost i: nat)
      requires Valid() && Views() != [] && i < |nodes| && v == nodes[i] && Position(Views(), Views()[i].iv) == i
      modifies v
      ensures Valid() && Views() == Added(old(Views()), old(Views())[i].iv) && nodes == old(nodes)
    {
      hide Sorted, Proper, Position, Chain;
      ghost var before := Views();
      Embedded();
      EntryProper(before, i);
      AddedWellFormed(before, before[i].iv);
      EmbeddedStaysFull(before, before[i].iv);
      Walk(i);
      SetCount(v, v.count + 1, i);
      assert Entries() == Added(before, before[i].iv);
      Embedded();
      Walk(0);
    }

    method LinkNew(start: nat, end: nat, prev: ViewNode?, v: ViewNode?, node: ViewNode, ghost i: nat)
      requires Valid() && Views() != [] && node !in nodes && start < end
      requires i == Position(Views(), Interval(start, end)) && !Present(Views(), Interval(start, end))
      requires (i > 0 ==> prev == nodes[i - 1]) && (v == null <==> i == |nodes|) && (v != null ==> v == nodes[i])
      modifies this, nodes, node
      ensures Valid() && Views() == Added(old(Views()), Interval(start, end))
      ensures nodes == Spliced(old(nodes), old(Views()), Interval(start, end), node)
    {
      hide Sorted, Proper, Position, Chain;
      ghost var before := Views();
      Embedded();
      AddedWellFormed(before, Interval(start, end));
      EmbeddedStaysFull(before, Interval(start, end));
      if v != null {
        Walk(i);
      }
      if v == views {
        LinkFront(start, end, node);
      } else {
        LinkAfter(start, end, 1, prev, v, node, i);
      }
      assert Entries() == Added(before, Interval(start, end));
      Embedded();
      Walk(0);
    }

    /** Where the consumed entry went. */
    static ghost function Spliced(ns: seq<ViewNode>, vs: seq<View>, iv: Interval, n: ViewNode): seq<ViewNode>
      requires ns != [] && |vs| == |ns|
    {
      var i := if Position(vs, iv) == 0 then 1 else Position(vs, iv);
      ns[..i] + [n] + ns[i..]
    }

    static lemma SplicedAccount(ns: seq<ViewNode>, vs: seq<View>, iv: Interval, n: ViewNode)
      requires ns != [] && |vs| == |ns|
      ensures multiset(Spliced(ns, vs, iv, n)) == multiset(ns) + multiset{n}
    {
      var i := if Position(vs, iv) == 0 then 1 else Position(vs, iv);
      assert ns == ns[..i] + ns[i..];
    }

    static lemma EmbeddedStaysFull(vs: seq<View>, iv: Interval)
      requires vs != [] && WellFormed(vs)
      ensures Added(vs, iv) != [] && Added(vs, iv)[0].count > 0
    {
    }

    /** One entry is gone, and nothing else. */
    static ghost predicate CutOut(was: seq<ViewNode>, ns: seq<ViewNode>, dead: ViewNode) {
      exists i :: 0 < i < |was| && dead == was[i] && ns == was[..i] + was[i + 1..]
    }

    static lemma CutAccount(was: seq<ViewNode>, ns: seq<ViewNode>, dead: ViewNode)
      requires CutOut(was, ns, dead)
      ensures multiset(was) == multiset(ns) + multiset{dead}
    {
      var i :| 0 < i < |was| && dead == was[i] && ns == was[..i] + was[i + 1..];
      assert was == was[..i] + [was[i]] + was[i + 1..];
    }

    /** Removes one unit.  `dead` is the entry unlinked by it, to be freed by the caller. */
    method DelLocked(start: nat, end: nat) returns (dead: ViewNode?)
      requires Valid()
      modifies this, nodes
      ensures Valid() && Views() == Deleted(old(Views()), Interval(start, end))
      ensures dead == null ==> nodes == old(nodes)
      ensures dead != null ==> Present(old(Views()), Interval(start, end)) && dead != views
      ensures dead != null ==> CutOut(old(nodes), nodes, dead)
    {
      hide Sorted, Proper, Position, Chain;
      Embedded();
      ghost var before, was := Views(), nodes;
      DeletedWellFormed(before, Interval(start, end));
      if views.count == 0 {
        return null;
      }
      CountsPositive(before, Interval(start, end));
      var prev, v := Seek(start, end);
      ghost var i := Position(before, Interval(start, end));
      Walk(0);
      if v == null {
        return null;
      }
      Walk(i);
      if v.start != start || v.end != end {
        return null;
      }
      if v.count > 1 {
        SetCount(v, v.count - 1, i);
        assert Entries() == Deleted(before, Interval(start, end));
        Walk(0);
        return null;
      }
      dead := CutLast(prev, v, i);
    }

    /** The unit removed was the last of its entry. */
    method CutLast(prev: ViewNode?, v: ViewNode, ghost i: nat) returns (dead: ViewNode?)
      requires Valid() && Views() != [] && i < |nodes| && v == nodes[i] && Views()[i].count == 1
      requires Position(Views(), Views()[i].iv) == i && (i > 0 ==> prev == nodes[i - 1])
      modifies this, nodes
      ensures Valid() && Views() == Deleted(old(Views()), old(Views())[i].iv)
      ensures dead == null ==> nodes == old(nodes)
      ensures dead != null ==> CutOut(old(nodes), nodes, dead) && dead != views
    {
      hide WellFormed, Position, Chain;
      Embedded();
      ghost var before, was := Views(), nodes;
      DeletedWellFormed(before, before[i].iv);
      CountsPositive(before, before[i].iv);
      Walk(0);
      Walk(i);
      if v != views {
        Unlink(prev, v, i);
        assert Entries() == Deleted(before, before[i].iv);
        Walk(0);
        return v;
      } else if views.next != null {
        dead := views.next;
        Walk(1);
        Promote(dead);
        assert nodes == was[..1] + was[2..];
        assert Entries() == Deleted(before, before[0].iv);
        Walk(0);
        return dead;
      } else {
        EmptyEmbedded();
        return null;
      }
    }

    static lemma CountsPositive(vs: seq<View>, iv: Interval)
      requires vs != [] && WellFormed(vs)
      ensures var i := Position(vs, iv); i < |vs| ==> vs[i].count > 0
      ensures Deleted(vs, iv) != [] ==> Deleted(vs, iv)[0].count > 0
    {
    }

    static lemma CutGone(was: seq<ViewNode>, ns: seq<ViewNode>, dead: ViewNode)
      requires CutOut(was, ns, dead) && forall i, j :: 0 <= i < j < |was| ==> was[i] != was[j]
      ensures dead !in ns && dead in was && forall n :: n in ns ==> n in was
    {
    }

    lemma NodesDistinct()
      requires Chain()
      ensures forall i, j :: 0 <= i < j < |nodes| ==> nodes[i] != nodes[j]
    {
    }

    // -------------------------------------------------------------------------------------------
    // The operations of the vmdesc

    /** `slab` is the entry the allocator hands out, if it has to be asked: the first view of a namespace and
        a fork, which repeats an interval that exists, need none.  What was not consumed is freed. */
    method Add(start: nat, end: nat, firstOrShared: bool, slab: ViewNode?) returns (ok: bool, freed: ViewNode?)
      requires Valid() && start < end && (slab != null ==> slab !in nodes)
      requires firstOrShared ==> slab == null
      modifies this, nodes, slab
      ensures Valid()
      ensures ok <==> (firstOrShared && (old(Views()) == [] || Present(old(Views()), Interval(start, end)))) || slab != null
      ensures Views() == if ok then Added(old(Views()), Interval(start, end)) else old(Views())
      ensures freed != null ==> freed == slab && freed !in nodes && nodes == old(nodes)
      ensures old(Views()) == [] ==> nodes == old(nodes) && freed == slab
      ensures freed == null && slab != null && old(Views()) != [] ==> nodes == Spliced(old(nodes), old(Views()), Interval(start, end), slab)
    {
      hide WellFormed, Chain, Spliced, Added, Present;
      if !firstOrShared && slab == null {
        return false, null;
      }
      ok, freed := AddLocked(start, end, slab);
    }

    method Del(start: nat, end: nat) returns (freed: ViewNode?)
      requires Valid()
      modifies this, nodes
      ensures Valid() && Views() == Deleted(old(Views()), Interval(start, end))
      ensures freed != null ==> CutOut(old(nodes), nodes, freed)
      ensures freed == null ==> nodes == old(nodes)
    {
      freed := DelLocked(start, end);
    }

    /** One unit of an interval becomes one of each half, under one hold of the lock.  Two entries are
        preallocated because the deletion frees one only when it empties an entry; that one is used first. */
    method SplitView(start: nat, end: nat, mid: nat, slab1: ViewNode?, slab2: ViewNode?)
        returns (ok: bool, freed: seq<ViewNode>)
      requires Valid() && start < mid < end
      requires (slab1 != null ==> slab1 !in nodes) && (slab2 != null ==> slab2 !in nodes)
      requires slab1 != null && slab2 != null ==> slab1 != slab2
      modifies this, nodes, slab1, slab2
      ensures Valid() && (ok <==> slab1 != null && slab2 != null)
      ensures Views() == if ok then Split(old(Views()), Interval(start, end), mid) else old(Views())
      ensures ok ==> multiset(nodes) + multiset(freed) == multiset(old(nodes)) + multiset([slab1, slab2])
      ensures !ok ==> nodes == old(nodes)
      ensures !ok ==> freed == (if slab1 != null then [slab1] else []) + (if slab2 != null then [slab2] else [])
    {
      hide WellFormed, Chain, Added, Deleted, Present;
      if slab1 == null || slab2 == null {
        freed := (if slab1 != null then [slab1] else []) + (if slab2 != null then [slab2] else []);
        return false, freed;
      }
      freed := SplitWith(start, end, mid, slab1, slab2);
      return true, freed;
    }

    static lemma SpareAccount(was: seq<ViewNode>, cut: seq<ViewNode>, ns: seq<ViewNode>,
        dead: ViewNode, n1: ViewNode, n2: ViewNode, left: seq<ViewNode>)
      requires multiset(was) == multiset(cut) + multiset{dead}
      requires multiset(ns) + multiset(left) == multiset(cut) + multiset([dead, n1])
      ensures multiset(ns) + multiset([n2] + left) == multiset(was) + multiset([n1, n2])
    {
      var m, l := multiset(ns), multiset(left);
      assert multiset([n2] + left) == multiset{n2} + l;
      calc {
        m + (multiset{n2} + l);
        (m + l) + multiset{n2};
        (multiset(cut) + (multiset{dead} + multiset{n1})) + multiset{n2};
        (multiset(cut) + multiset{dead}) + (multiset{n1} + multiset{n2});
        multiset(was) + multiset([n1, n2]);
      }
    }

    method SplitWith(start: nat, end: nat, mid: nat, n1: ViewNode, n2: ViewNode) returns (freed: seq<ViewNode>)
      requires Valid() && start < mid < end && n1 !in nodes && n2 !in nodes && n1 != n2
      modifies this, nodes, n1, n2
      ensures Valid() && Views() == Split(old(Views()), Interval(start, end), mid)
      ensures multiset(nodes) + multiset(freed) == multiset(old(nodes)) + multiset([n1, n2])
    {
      hide WellFormed, Chain, Added, Deleted, Present, CutOut;
      ghost var was := nodes;
      ghost var frame := (set n | n in was) + {n1, n2};
      NodesDistinct();
      var dead := DelLocked(start, end);
      if dead == null {
        freed := AddHalves(start, mid, end, n1, n2, frame);
      } else {
        CutGone(was, nodes, dead);
        CutAccount(was, nodes, dead);
        ghost var cut := nodes;
        var left := AddHalves(start, mid, end, dead, n1, frame);
        freed := [n2] + left;
        SpareAccount(was, cut, nodes, dead, n1, n2, left);
      }
    }

    static lemma Account(a: multiset<ViewNode>, b: multiset<ViewNode>, c: multiset<ViewNode>,
        left1: seq<ViewNode>, left2: seq<ViewNode>, in1: seq<ViewNode>, in2: seq<ViewNode>)
      requires b + multiset(left1) == a + multiset(in1) && c + multiset(left2) == b + multiset(in2)
      ensures c + multiset(left1 + left2) == a + multiset(in1 + in2)
    {
      var l1, l2, i1, i2 := multiset(left1), multiset(left2), multiset(in1), multiset(in2);
      assert multiset(left1 + left2) == l1 + l2 && multiset(in1 + in2) == i1 + i2;
      calc {
        c + (l1 + l2);
        (c + l2) + l1;
        (b + i2) + l1;
        (b + l1) + i2;
        (a + i1) + i2;
        a + (i1 + i2);
      }
    }

    method AddHalves(start: nat, mid: nat, end: nat, n1: ViewNode, n2: ViewNode, ghost frame: set<ViewNode>)
        returns (left: seq<ViewNode>)
      requires Valid() && start < mid < end && n1 !in nodes && n2 !in nodes && n1 != n2
      requires n1 in frame && n2 in frame && forall m :: m in nodes ==> m in frame
      modifies this, frame
      ensures Valid() && Views() == Added(Added(old(Views()), Interval(start, mid)), Interval(mid, end))
      ensures multiset(nodes) + multiset(left) == multiset(old(nodes)) + multiset([n1, n2])
    {
      hide WellFormed, Chain, Added;
      ghost var before := multiset(nodes);
      var left1 := AddHalf(start, mid, n1, frame);
      ghost var between := multiset(nodes);
      var left2 := AddHalf(mid, end, n2, frame);
      left := left1 + left2;
      Account(before, between, multiset(nodes), left1, left2, [n1], [n2]);
      assert [n1] + [n2] == [n1, n2];
    }

    /** Adding with an entry at hand cannot fail; the entry is linked or given back. */
    method AddHalf(start: nat, end: nat, n: ViewNode, ghost frame: set<ViewNode>) returns (left: seq<ViewNode>)
      requires Valid() && start < end && n !in nodes
      requires n in frame && forall m :: m in nodes ==> m in frame
      modifies this, frame
      ensures Valid() && Views() == Added(old(Views()), Interval(start, end))
      ensures multiset(nodes) + multiset(left) == multiset(old(nodes)) + multiset([n])
      ensures forall m :: m in nodes ==> m in old(nodes) || m == n
    {
      hide WellFormed, Chain, Added, Present, Spliced;
      ghost var was, before := nodes, Views();
      var ok, rest := AddLocked(start, end, n);
      if rest == null {
        SplicedAccount(was, before, Interval(start, end), n);
        SplicedIn(was, before, Interval(start, end), n);
        return [];
      }
      return [n];
    }

    static lemma SplicedIn(ns: seq<ViewNode>, vs: seq<View>, iv: Interval, n: ViewNode)
      requires ns != [] && |vs| == |ns|
      ensures forall m :: m in Spliced(ns, vs, iv, n) ==> m in ns || m == n
    {
    }

    // -------------------------------------------------------------------------------------------
    // Coverage queries

    /** One walk from left to right; see `UncoveredIsExact` for what the answer means. */
    method FindUncovered(start: nat, end: nat) returns (fine: bool, lo: nat, hi: nat)
      requires Valid() && start < end
      ensures fine <==> Uncovered(Views(), start, end).Fine?
      ensures fine ==> Uncovered(Views(), start, end) == Fine(lo, hi)
      ensures !fine ==> lo == start && hi == end
    {
      hide WellFormed;
      if views.count == 0 {
        return true, start, end;
      }
      var v: ViewNode?, from: nat := views, start;
      ghost var i, es := 0, Entries();
      while v != null
        invariant 0 <= i <= |nodes| && (v == null <==> i == |nodes|) && (v != null ==> v == nodes[i]) && from < end
        invariant Uncovered(es[i..], from, end) == Uncovered(es, start, end)
        decreases |nodes| - i
      {
        Walk(i);
        assert es[i..][0] == es[i] == ViewOf(v) && es[i..][1..] == es[i + 1..];
        if v.end > from {
          if v.start >= end {
            break;
          }
          if v.start <= from && v.end >= end {
            return true, 0, 0;
          }
          if from < v.start && v.end < end {
            return false, start, end;
          }
          if v.start <= from {
            from := v.end;
          } else {
            return true, from, v.start;
          }
        }
        v, i := v.next, i + 1;
      }
      return true, from, end;
    }

    /** Does any view meet the range?  Sorted by start, so the walk may stop early. */
    method IsCovered(start: nat, end: nat) returns (covered: bool)
      requires Valid()
      ensures covered <==> Met(Views(), start, end)
    {
      if views.count == 0 {
        return false;
      }
      var v: ViewNode? := views;
      ghost var i := 0;
      while v != null
        invariant 0 <= i <= |nodes| && (v == null <==> i == |nodes|) && (v != null ==> v == nodes[i])
        invariant forall k :: 0 <= k < i ==> !(Views()[k].iv.start < end && start < Views()[k].iv.end)
        decreases |nodes| - i
      {
        Walk(i);
        if v.start >= end {
          assert forall k :: i < k < |nodes| ==> Before(Views()[i].iv, Views()[k].iv);
          return false;
        }
        if v.end > start {
          assert Views()[i] == ViewOf(v);
          return true;
        }
        v, i := v.next, i + 1;
      }
      return false;
    }

    /** A dying vmdesc gives back every overflow entry. */
    method Exit() returns (freed: seq<ViewNode>)
      requires Chain()
      modifies this, views
      ensures nodes == [views] && views.next == null && freed == old(nodes)[1..]
    {
      Walk(0);
      var v := views.next;
      freed := [];
      ghost var i := 1;
      while v != null
        invariant 1 <= i <= |nodes| && (v == null <==> i == |nodes|) && (v != null ==> v == nodes[i])
        invariant freed == nodes[1..i]
        decreases |nodes| - i
        modifies {}
      {
        Walk(i);
        freed := freed + [v];
        v, i := v.next, i + 1;
      }
      views.next := null;
      nodes := [views];
    }
  }
}
