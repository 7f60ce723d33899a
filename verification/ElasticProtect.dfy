/**
  Write protection over whole runs.  Private copy-on-write is armed on every subblock of a block, but the fault path
  reads it from the head; merging and splitting must keep the two the same.
 */
module ElasticProtect {
  import opened PowerOfTwo
  import opened ElasticGeometry
  import opened ElasticFlags
  import opened ElasticRuns

  /** Every member says of its protection what its head says. */
  ghost predicate Alike(d: Group) {
    forall m: nat :: m < |d| ==> Head(d, m) < |d| && (WProtect in d[m].flags <==> Under(d, m, WProtect))
  }

  /** Blocks are merged only when their heads agree on protection. */
  ghost predicate Agreed(d: Group, e: Event)
    requires Enabled(d, e)
  {
    e.StretchWith? ==> (WProtect in d[e.s].flags <==> WProtect in d[e.s + Pow2(d[e.s].order)].flags)
  }

  ghost predicate AllAgreed(d: Group, es: seq<Event>)
    requires Schedulable(d, es)
    decreases |es|
  {
    es == [] || (Agreed(d, es[0]) && AllAgreed(Apply(d, es[0]), es[1..]))
  }

  /** Was member `m` last protected or unprotected?  `was`: if neither. */
  ghost predicate LastProtected(d: Group, es: seq<Event>, m: nat, was: bool)
    requires Schedulable(d, es)
    decreases |es|
  {
    if es == [] then was
    else LastProtected(Apply(d, es[0]), es[1..], m, Protected(d, es[0], m, was))
  }

  predicate Protected(d: Group, e: Event, m: nat, was: bool) {
    if (e.Protect? || e.Unprotect?) && m < |d| && Head(d, m) == e.h then e.Protect? else was
  }

  /** What one event does to one member's protection, and to its head's. */
  ghost predicate Follows(d: Group, e: Event, m: nat)
    requires Enabled(d, e)
  {
    var r := Apply(d, e);
    && m < |d| && Head(d, m) < |d| && Head(r, m) < |d|
    && (WProtect in r[m].flags <==> Under(r, m, WProtect))
    && (Under(r, m, WProtect) <==> Protected(d, e, m, Under(d, m, WProtect)))
  }

  lemma ReduceFollows(d: Group, s: nat, m: nat)
    requires Geometry(d) && Alike(d) && m < |d| && Enabled(d, ReduceHead(s))
    ensures Follows(d, ReduceHead(s), m)
  {
    hide Partition, HeadsOnly, UsedResident, CleanMembers, Alike, BlockHead, Pow2, Reduce;
    AlikeAt(d, m);
    ReduceUnder(d, s, m);
  }

  lemma CompleteFollows(d: Group, s: nat, m: nat)
    requires Geometry(d) && Alike(d) && m < |d| && Enabled(d, ReduceAll(s))
    ensures Follows(d, ReduceAll(s), m)
  {
    hide Partition, HeadsOnly, UsedResident, CleanMembers, Alike, BlockHead, Pow2, ReduceComplete;
    AlikeAt(d, m);
    CompleteUnder(d, s, m, WProtect);
  }

  lemma AlikeAt(d: Group, m: nat)
    requires Alike(d) && m < |d|
    ensures Head(d, m) < |d| && (WProtect in d[m].flags <==> Under(d, m, WProtect))
  {
  }

  lemma StretchFollows(d: Group, s: nat, p: nat, m: nat)
    requires Geometry(d) && Alike(d) && m < |d| && Enabled(d, StretchWith(s, p)) && Agreed(d, StretchWith(s, p))
    ensures Follows(d, StretchWith(s, p), m)
  {
    hide Alike, Stretch, BlockHead, Under, Pow2, Partition, HeadsOnly, UsedResident, CleanMembers, MembersResident;
    AlikeAt(d, m);
    StretchKeepsFlagIff(d, s, p, WProtect);
    StretchKeepsOwn(d, s, p, m);
  }

  /** A merge clears nobody's own protection, and sets it only where both heads have it. */
  lemma StretchKeepsOwn(d: Group, s: nat, p: nat, m: nat)
    requires Partition(d) && Buddies(d, s, p) && m < |d|
    requires WProtect in d[s].flags <==> WProtect in d[s + Pow2(d[s].order)].flags
    ensures WProtect in Stretch(d, s, p)[m].flags <==> WProtect in d[m].flags
  {
    hide InBounds, OrdersUniform, CeilingsTiled;
    StretchOrders(d, s, p);
  }

  lemma OwnKept(d: Group, e: Event, i: nat)
    requires Enabled(d, e) && KeepsBlocks(e) && i < |d|
    ensures WProtect in Apply(d, e)[i].flags <==>
              if (e.Protect? || e.Unprotect?) && e.h <= i < e.h + Size(d, e.h) then e.Protect? else WProtect in d[i].flags
  {
    hide BlockHead, Pow2, MembersResident;
  }

  lemma KeptHeads(d: Group, e: Event, m: nat)
    requires Geometry(d) && Enabled(d, e) && KeepsBlocks(e) && m < |d|
    ensures Head(Apply(d, e), m) == Head(d, m) < |d|
    ensures Head(d, m) == e.h <==> e.h <= m < e.h + Size(d, e.h)
    ensures Head(d, m) == e.h <==> e.h <= Head(d, m) < e.h + Size(d, e.h)
  {
    hide InBounds, OrdersUniform, CeilingsTiled, HeadsOnly, UsedResident, CleanMembers, Apply;
    KeepsOrders(d, e);
    HeadInside(d, m);
    ResidentMember(d, e.h, m);
    ResidentMember(d, e.h, Head(d, m));
  }

  lemma KeptFollows(d: Group, e: Event, m: nat)
    requires Geometry(d) && Alike(d) && m < |d| && Enabled(d, e) && KeepsBlocks(e)
    ensures Follows(d, e, m)
  {
    hide Geometry, Alike, Apply, BlockHead, Pow2;
    AlikeAt(d, m);
    KeptHeads(d, e, m);
    OwnKept(d, e, m);
    OwnKept(d, e, Head(d, m));
    hide Enabled, Head;
  }

  lemma StepFollows(d: Group, e: Event, m: nat)
    requires Geometry(d) && Alike(d) && m < |d| && Enabled(d, e) && Agreed(d, e)
    ensures Follows(d, e, m)
  {
    hide Geometry, Alike, Follows, Apply;
    match e
    case StretchWith(s, p) => StretchFollows(d, s, p, m);
    case ReduceHead(s) => ReduceFollows(d, s, m);
    case ReduceAll(s) => CompleteFollows(d, s, m);
    case _ => KeptFollows(d, e, m);
  }

  lemma StepAlike(d: Group, e: Event)
    requires Geometry(d) && Alike(d) && Enabled(d, e) && Agreed(d, e)
    ensures Alike(Apply(d, e))
  {
    var r := Apply(d, e);
    hide Geometry, Apply, BlockHead, Protected;
    forall m: nat | m < |d|
      ensures Head(r, m) < |d| && (WProtect in r[m].flags <==> Under(r, m, WProtect))
    {
      StepFollows(d, e, m);
    }
  }

  /** Along every sequence of events a block's members agree with its head on protection, and a member is under it
      exactly when the last event that protected or unprotected its block protected it: no merge, split, eviction or
      writeback grants or takes it. */
  lemma {:induction false} ProtectionFollows(d: Group, es: seq<Event>, m: nat)
    requires Geometry(d) && Alike(d) && Schedulable(d, es) && AllAgreed(d, es) && m < |d|
    ensures Alike(After(d, es)) && Head(d, m) < |d| && Head(After(d, es), m) < |d|
    ensures Under(After(d, es), m, WProtect) <==> LastProtected(d, es, m, Under(d, m, WProtect))
    decreases |es|
  {
    if es != [] {
      StepGeometry(d, es[0]);
      StepAlike(d, es[0]);
      StepFollows(d, es[0], m);
      hide Geometry, Alike, Enabled, Agreed, Protected;
      ProtectionFollows(Apply(d, es[0]), es[1..], m);
    }
  }

  // ---------------------------------------------------------------------------------------------
  // A flag that a complete split takes away

  const BARE_PAIR := [Desc(1, 1, {Touched}, Init, false, false), Desc(1, 1, {}, Init, false, false)]

  /** A block without pages whose head alone carries a flag: its member is under it, and after a complete split is
      not. */
  lemma PagelessMemberLeft()
    ensures Geometry(BARE_PAIR) && Head(BARE_PAIR, 0) == 0 && Head(BARE_PAIR, 1) == 0
    ensures Under(BARE_PAIR, 1, Touched)
    ensures var r := ReduceComplete(BARE_PAIR, 0); Head(r, 1) == 1 && !Under(r, 1, Touched)
  {
    var d := BARE_PAIR;
    assert Pow2(1) == 2 * Pow2(0);
    NewGroupGeometry(d, 1);
    HeadUnique(0, 1, 1);
    hide Geometry, Pow2;
    CompleteUnder(d, 0, 1, Touched);
    hide ReduceComplete, BlockHead;
    CompleteIsHead(d, 0, 1);
  }

  lemma CompleteIsHead(d: Group, s: nat, m: nat)
    requires Geometry(d) && s < |d| && Head(d, s) == s && s <= m < s + Size(d, s) && m < |d|
    ensures Head(ReduceComplete(d, s), m) == m
  {
    CompleteHead(d, s, m);
  }
}
