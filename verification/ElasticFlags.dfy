/**
  What merging and splitting do to the flags: only a block's head is asked for them, so what counts is under which flags
  a member is.
 */
module ElasticFlags {
  import opened PowerOfTwo
  import opened ElasticGeometry

  /** The head of the block `m` is in carries `f`. */
  predicate Under(d: Group, m: nat, f: Flag)
    requires m < |d| && Head(d, m) < |d|
  {
    f in d[Head(d, m)].flags
  }

  /** Every member is under the same flags, and in a block of the same state. */
  ghost predicate SameUnder(d: Group, e: Group) {
    && |e| == |d|
    && (forall m: nat :: m < |d| ==> Head(d, m) < |d| && Head(e, m) < |e| && e[Head(e, m)].state == d[Head(d, m)].state)
    && (forall m: nat, f :: m < |d| ==> (Under(e, m, f) <==> Under(d, m, f)))
  }

  /** A descriptor that was a head before, or is none afterwards, keeps its own flags and state. */
  ghost predicate OthersKept(d: Group, e: Group) {
    && |e| == |d|
    && forall i: nat :: i < |d| && (Head(d, i) == i || Head(e, i) != i) ==> e[i].flags == d[i].flags && e[i].state == d[i].state
  }

  // ---------------------------------------------------------------------------------------------
  // Splitting

  lemma ReduceUnder(d: Group, s: nat, m: nat)
    requires Partition(d) && s < |d| && Head(d, s) == s && d[s].order > 0 && m < |d|
    ensures s + Pow2(d[s].order) <= |d|
    ensures var r := Reduce(d, s);
            && Head(d, m) < |d| && Head(r, m) < |d|
            && r[Head(r, m)].flags == d[Head(d, m)].flags && r[Head(r, m)].state == d[Head(d, m)].state
    ensures var r := Reduce(d, s);
            Head(d, m) == m || Head(r, m) != m ==> r[m].flags == d[m].flags && r[m].state == d[m].state
  {
    hide InBounds, OrdersUniform, CeilingsTiled;
    ReduceOrders(d, s, m);
    ReduceHead(d, s, m);
    HeadInside(d, m);
    ReduceHead(d, s, s + Pow2(d[s].order - 1));
  }

  /** Splitting a block once leaves every member under the flags it was under. */
  lemma ReduceKeepsFlags(d: Group, s: nat)
    requires Partition(d) && s < |d| && Head(d, s) == s && d[s].order > 0
    ensures s + Pow2(d[s].order) <= |d|
    ensures SameUnder(d, Reduce(d, s)) && OthersKept(d, Reduce(d, s))
  {
    ReduceUnder(d, s, s);
    hide Partition, Reduce, Head;
    forall m: nat | m < |d|
      ensures Head(d, m) < |d| && Head(Reduce(d, s), m) < |d|
      ensures Reduce(d, s)[Head(Reduce(d, s), m)].flags == d[Head(d, m)].flags
      ensures Reduce(d, s)[Head(Reduce(d, s), m)].state == d[Head(d, m)].state
      ensures Head(d, m) == m || Head(Reduce(d, s), m) != m ==>
        Reduce(d, s)[m].flags == d[m].flags && Reduce(d, s)[m].state == d[m].state
    {
      ReduceUnder(d, s, m);
    }
  }

  /** Splitting it all the way does so too, except that a member without a page keeps flags of its own. */
  lemma CompleteUnder(d: Group, s: nat, m: nat, f: Flag)
    requires Geometry(d) && s < |d| && Head(d, s) == s && m < |d|
    ensures var r := ReduceComplete(d, s);
            && Head(d, m) < |d| && Head(r, m) < |d| && r[Head(r, m)].state == d[Head(d, m)].state
            && (Under(r, m, f) <==> if Head(d, m) == s && m != s && !d[m].hasPage then f in d[m].flags else Under(d, m, f))
            && (Head(d, m) == m || Head(r, m) != m ==> r[m].flags == d[m].flags && r[m].state == d[m].state)
  {
    hide InBounds, OrdersUniform, CeilingsTiled;
    CompleteHead(d, s, m);
    HeadInside(d, m);
  }

  lemma CompleteOthersKept(d: Group, s: nat)
    requires Geometry(d) && s < |d| && Head(d, s) == s
    ensures OthersKept(d, ReduceComplete(d, s))
    ensures forall m: nat :: m < |d| ==> Head(d, m) < |d| && Head(ReduceComplete(d, s), m) < |d|
    ensures forall m: nat :: m < |d| ==>
      ReduceComplete(d, s)[Head(ReduceComplete(d, s), m)].state == d[Head(d, m)].state
  {
    var r := ReduceComplete(d, s);
    hide Geometry, ReduceComplete, BlockHead;
    forall m: nat | m < |d|
      ensures Head(d, m) < |d| && Head(r, m) < |d| && r[Head(r, m)].state == d[Head(d, m)].state
      ensures Head(d, m) == m || Head(r, m) != m ==> r[m].flags == d[m].flags && r[m].state == d[m].state
    {
      CompleteUnder(d, s, m, WProtect);
    }
  }

  /** So a complete split leaves every member under its flags exactly when the members without a page agree with the
      head. */
  lemma CompleteKeepsFlagsIff(d: Group, s: nat)
    requires Geometry(d) && s < |d| && Head(d, s) == s
    ensures OthersKept(d, ReduceComplete(d, s))
    ensures SameUnder(d, ReduceComplete(d, s)) <==>
              forall m: nat, f :: m < |d| && Head(d, m) == s && !d[m].hasPage ==> (f in d[m].flags <==> f in d[s].flags)
  {
    var r := ReduceComplete(d, s);
    CompleteOthersKept(d, s);
    hide Geometry, ReduceComplete, BlockHead, OthersKept;
    if forall m: nat, f :: m < |d| && Head(d, m) == s && !d[m].hasPage ==> (f in d[m].flags <==> f in d[s].flags) {
      forall m: nat, f | m < |d|
        ensures Under(r, m, f) <==> Under(d, m, f)
      {
        CompleteUnder(d, s, m, f);
      }
    }
    if SameUnder(d, r) {
      forall m: nat, f | m < |d| && Head(d, m) == s && !d[m].hasPage
        ensures f in d[m].flags <==> f in d[s].flags
      {
        CompleteUnder(d, s, m, f);
        assert Under(r, m, f) <==> Under(d, m, f);
      }
    }
  }

  /** A block in use has pages everywhere. */
  lemma CompleteOfResident(d: Group, s: nat)
    requires Geometry(d) && s < |d| && Head(d, s) == s && MembersResident(d, s)
    ensures SameUnder(d, ReduceComplete(d, s))
  {
    CompleteKeepsFlagsIff(d, s);
  }

  // ---------------------------------------------------------------------------------------------
  // Merging

  lemma StretchUnder(d: Group, s: nat, p: nat, m: nat, f: Flag)
    requires Partition(d) && Buddies(d, s, p) && m < |d|
    ensures var r, b := Stretch(d, s, p), s + Pow2(d[s].order);
            && Head(d, m) < |d| && Head(r, m) < |d|
            && (!(s <= m < s + Pow2(d[s].order + 1)) ==> (Under(r, m, f) <==> Under(d, m, f)))
            && (s <= m < s + Pow2(d[s].order + 1) ==>
                  && (Under(d, m, f) <==> if m < b then f in d[s].flags else f in d[b].flags)
                  && (Under(r, m, f) <==> f in r[s].flags))
            && ((f in d[s].flags <==> f in d[b].flags) ==> (f in r[s].flags <==> f in d[s].flags))
  {
    hide InBounds, OrdersUniform, CeilingsTiled;
    StretchOrders(d, s, p);
    if s <= m < s + Pow2(d[s].order + 1) {
      HalfHead(d, s, p, m);
      HeadMerged(d, s, p, m);
    } else {
      HeadElsewhere(d, s, p, m);
    }
  }

  /** Merging two buddies leaves every member under flag `f` or not, as it was, exactly when the two heads agree on it.
      The code asks that of write protection, and never loses dirtiness. */
  lemma StretchKeepsFlagIff(d: Group, s: nat, p: nat, f: Flag)
    requires Partition(d) && Buddies(d, s, p)
    ensures forall m: nat :: m < |d| ==> Head(d, m) < |d| && Head(Stretch(d, s, p), m) < |d|
    ensures (forall m: nat :: m < |d| ==> (Under(Stretch(d, s, p), m, f) <==> Under(d, m, f))) <==>
              (f in d[s].flags <==> f in d[s + Pow2(d[s].order)].flags)
  {
    var r, b := Stretch(d, s, p), s + Pow2(d[s].order);
    assert s < b < s + Pow2(d[s].order + 1);
    StretchUnder(d, s, p, s, f);
    StretchUnder(d, s, p, b, f);
    var agree := f in d[s].flags <==> f in d[b].flags;
    assert !agree ==> !((Under(r, s, f) <==> Under(d, s, f)) && (Under(r, b, f) <==> Under(d, b, f)));
    hide Partition, Stretch, BlockHead, Under, Pow2, Buddies;
    forall m: nat | m < |d|
      ensures Head(d, m) < |d| && Head(r, m) < |d|
      ensures agree ==> (Under(r, m, f) <==> Under(d, m, f))
    {
      StretchUnder(d, s, p, m, f);
    }
  }

  /** Where they do not agree: the merged block has the flags of the lower head and the dirtiness of the upper one; the
      other flags of the upper one too, but for its list marks, if that is the half taken off a list. */
  lemma MergedUnder(d: Group, s: nat, p: nat, m: nat, f: Flag)
    requires Partition(d) && Buddies(d, s, p) && s <= m < s + Pow2(d[s].order + 1)
    ensures var b := s + Pow2(d[s].order);
            && m < |d| && Head(d, s) == s && Head(d, b) == b && Head(Stretch(d, s, p), m) == s
            && (Under(Stretch(d, s, p), m, f) <==>
                  Under(d, s, f) || (Under(d, b, f) && (f == Dirty || (p == b && f !in {Proactive, Promote}))))
  {
    hide InBounds, OrdersUniform, CeilingsTiled;
    HalfHead(d, s, p, s);
    HalfHead(d, s, p, s + Pow2(d[s].order));
    HeadMerged(d, s, p, m);
    StretchOrders(d, s, p);
  }

  /** The merged block is in the state of the half that stays off the lists, the faulting one. */
  lemma StretchState(d: Group, s: nat, p: nat)
    requires Partition(d) && Buddies(d, s, p)
    ensures Stretch(d, s, p)[s].state == d[if s == p then s + Pow2(d[s].order) else s].state
  {
    hide InBounds, OrdersUniform, CeilingsTiled;
    StretchOrders(d, s, p);
  }
}
