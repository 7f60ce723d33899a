/**
  Any sequence of stretches and splits, with blocks fetched, moved between lists, dirtied, written back and given up
  in between.
 */
module ElasticRuns {
  import opened PowerOfTwo
  import opened ElasticGeometry
  import opened ElasticCounts

  datatype Event =
    | StretchWith(s: nat, p: nat)
    | ReduceHead(s: nat)
    | ReduceAll(s: nat)
    | MarkDirty(h: nat)
    | Populate(h: nat)
    | Move(h: nat, to: RState)
    | Clean(h: nat)
    | Release(h: nat)
    | Protect(h: nat)
    | Unprotect(h: nat)

  /** The flags that outlive the local page. */
  const KEPT := {Touched, Pinned, WProtect}

  ghost predicate Enabled(d: Group, e: Event) {
    match e
    case StretchWith(s, p) =>
      Buddies(d, s, p) && MembersResident(d, s) && MembersResident(d, s + Pow2(d[s].order))
    case ReduceHead(s) => s < |d| && Head(d, s) == s && d[s].order > 0 && s + Pow2(d[s].order) <= |d|
    case ReduceAll(s) => s < |d| && Head(d, s) == s
    case MarkDirty(h) => h < |d| && Head(d, h) == h && MembersResident(d, h)
    case Populate(h) => h < |d| && Head(d, h) == h && d[h].state == Init
    case Move(h, to) => h < |d| && Head(d, h) == h && MembersResident(d, h) && to != Init
    case Clean(h) => h < |d| && Head(d, h) == h
    case Release(h) => h < |d| && Head(d, h) == h
    case Protect(h) => h < |d| && Head(d, h) == h
    case Unprotect(h) => h < |d| && Head(d, h) == h
  }

  /** Every member of the block of `h` gets a local page. */
  ghost function Populated(d: Group, h: nat): (r: Group)
    requires h < |d|
    ensures |r| == |d|
  {
    seq(|d|, i requires 0 <= i < |d| =>
      if h <= i < h + Size(d, h) then d[i].(hasPage := true, state := if i == h then Active else d[i].state) else d[i])
  }

  /** Every member gives its local page up, and with it what the flags said of it. */
  ghost function Released(d: Group, h: nat): (r: Group)
    requires h < |d|
    ensures |r| == |d|
  {
    seq(|d|, i requires 0 <= i < |d| =>
      if h <= i < h + Size(d, h) then d[i].(hasPage := false, state := Init, flags := d[i].flags * KEPT) else d[i])
  }

  /** A fork protects every member of the block, and the last owner left drops that from every member. */
  ghost function ProtectedAs(d: Group, h: nat, on: bool): (r: Group)
    requires h < |d|
    ensures |r| == |d|
  {
    seq(|d|, i requires 0 <= i < |d| =>
      if h <= i < h + Size(d, h) then
        d[i].(flags := if on then d[i].flags + {WProtect} else d[i].flags - {WProtect})
      else d[i])
  }

  ghost function Apply(d: Group, e: Event): (r: Group)
    requires Enabled(d, e)
    ensures |r| == |d|
  {
    match e
    case StretchWith(s, p) => Stretch(d, s, p)
    case ReduceHead(s) => Reduce(d, s)
    case ReduceAll(s) => ReduceComplete(d, s)
    case MarkDirty(h) => d[h := d[h].(flags := d[h].flags + {Dirty})]
    case Populate(h) => Populated(d, h)
    case Move(h, to) => d[h := d[h].(state := to)]
    case Clean(h) => d[h := d[h].(flags := d[h].flags - {Dirty})]
    case Release(h) => Released(d, h)
    case Protect(h) => ProtectedAs(d, h, true)
    case Unprotect(h) => ProtectedAs(d, h, false)
  }

  /** Events that leave the blocks as they are. */
  predicate KeepsBlocks(e: Event) {
    e.MarkDirty? || e.Populate? || e.Move? || e.Clean? || e.Release? || e.Protect? || e.Unprotect?
  }

  lemma KeepsOrders(d: Group, e: Event)
    requires Geometry(d) && Enabled(d, e) && KeepsBlocks(e)
    ensures Partition(Apply(d, e))
    ensures forall m :: 0 <= m < |d| ==> Head(Apply(d, e), m) == Head(d, m) && Head(d, m) < |d|
  {
    hide InBounds, OrdersUniform, CeilingsTiled, HeadsOnly, UsedResident, CleanMembers;
    var r := Apply(d, e);
    PartitionFrame(d, r);
    forall m | 0 <= m < |d|
      ensures Head(r, m) == Head(d, m) && Head(d, m) < |d|
    {
      HeadInside(d, m);
    }
  }

  lemma ResidentMember(d: Group, h: nat, m: nat)
    requires Partition(d) && h < |d| && Head(d, h) == h && m < |d|
    ensures Head(d, m) == h <==> h <= m < h + Size(d, h)
    ensures MembersResident(d, h) && Head(d, m) == h ==> d[m].hasPage
  {
    hide InBounds, OrdersUniform, CeilingsTiled;
    HeadInside(d, m);
    if h <= m < h + Size(d, h) {
      MemberOf(d, h, m);
    }
  }

  lemma KeepsGeometry(d: Group, e: Event)
    requires Geometry(d) && Enabled(d, e) && KeepsBlocks(e)
    ensures Geometry(Apply(d, e))
  {
    hide InBounds, OrdersUniform, CeilingsTiled;
    var r := Apply(d, e);
    KeepsOrders(d, e);
    forall m | 0 <= m < |d|
      ensures Head(r, m) != m ==> r[m].state == Init
      ensures Head(r, m) < |r| && InUse(r, Head(r, m)) ==> r[m].hasPage
      ensures !r[m].hasPage ==> Dirty !in r[m].flags
    {
      ResidentMember(d, e.h, m);
      assert d[e.h].order == r[e.h].order;
    }
  }

  lemma StepGeometry(d: Group, e: Event)
    requires Geometry(d) && Enabled(d, e)
    ensures Geometry(Apply(d, e))
  {
    hide InBounds, OrdersUniform, CeilingsTiled, HeadsOnly, UsedResident, CleanMembers;
    match e
    case StretchWith(s, p) => StretchGeometry(d, s, p);
    case ReduceHead(s) => ReduceGeometry(d, s);
    case ReduceAll(s) => CompleteGeometry(d, s);
    case _ => KeepsGeometry(d, e);
  }

  ghost predicate StaysDirty(d: Group, r: Group, m: nat) {
    && m < |d| && m < |r| && Head(d, m) < |d| && Head(r, m) < |r|
    && (UnderDirty(d, m) ==> UnderDirty(r, m))
  }

  /** The event writes the block of `m` back, or gives its pages up. */
  predicate Cleans(d: Group, e: Event, m: nat) {
    (e.Clean? || e.Release?) && m < |d| && Head(d, m) == e.h
  }

  lemma StepDirty(d: Group, e: Event, m: nat)
    requires Geometry(d) && Enabled(d, e) && m < |d| && !Cleans(d, e, m)
    ensures StaysDirty(d, Apply(d, e), m)
  {
    hide InBounds, OrdersUniform, CeilingsTiled, HeadsOnly, UsedResident, CleanMembers;
    match e
    case StretchWith(s, p) => StretchKeepsDirty(d, s, p, m);
    case ReduceHead(s) => ReduceKeepsDirty(d, s, m);
    case ReduceAll(s) => CompleteKeepsDirty(d, s, m);
    case _ => KeepsDirty(d, e, m);
  }

  lemma KeepsDirty(d: Group, e: Event, m: nat)
    requires Geometry(d) && Enabled(d, e) && m < |d| && KeepsBlocks(e) && !Cleans(d, e, m)
    ensures StaysDirty(d, Apply(d, e), m)
  {
    hide InBounds, OrdersUniform, CeilingsTiled, HeadsOnly, UsedResident, CleanMembers;
    KeepsOrders(d, e);
    HeadInside(d, m);
    ResidentMember(d, e.h, Head(d, m));
  }

  ghost predicate Schedulable(d: Group, es: seq<Event>)
    decreases |es|
  {
    es == [] || (Enabled(d, es[0]) && Schedulable(Apply(d, es[0]), es[1..]))
  }

  ghost function After(d: Group, es: seq<Event>): (r: Group)
    requires Schedulable(d, es)
    ensures |r| == |d|
    decreases |es|
  {
    if es == [] then d else After(Apply(d, es[0]), es[1..])
  }

  ghost predicate CleanedIn(d: Group, es: seq<Event>, m: nat)
    requires Schedulable(d, es)
    decreases |es|
  {
    es != [] && (Cleans(d, es[0], m) || CleanedIn(Apply(d, es[0]), es[1..], m))
  }

  /** Along any such sequence the blocks stay a buddy partition below every ceiling, only heads carry a state, used
      blocks are resident, and what lies under a dirty head stays under a dirty head until its block is written
      back or given up. */
  lemma {:induction false} DirtinessNeverLost(d: Group, es: seq<Event>, m: nat)
    requires Geometry(d) && Schedulable(d, es) && m < |d|
    ensures Geometry(After(d, es)) && (!CleanedIn(d, es, m) ==> StaysDirty(d, After(d, es), m))
    decreases |es|
  {
    hide InBounds, OrdersUniform, CeilingsTiled, HeadsOnly, UsedResident, CleanMembers;
    HeadInside(d, m);
    if es != [] {
      StepGeometry(d, es[0]);
      if !Cleans(d, es[0], m) {
        StepDirty(d, es[0], m);
      }
      DirtinessNeverLost(Apply(d, es[0]), es[1..], m);
    }
  }

  /** A group as it is allocated: one block, its order the ceiling of every member. */
  lemma NewGroupGeometry(d: Group, k: nat)
    requires |d| == Pow2(k)
    requires forall i :: 0 <= i < |d| ==>
      d[i].order == d[i].ceiling == k && d[i].state == Init && !d[i].hasPage && Dirty !in d[i].flags
    ensures Geometry(d)
  {
    forall m | 0 <= m < |d|
      ensures BlockHead(m, k) == 0
    {
      HeadBounds(0, k);
      HeadUnique(0, m, k);
    }
  }
}
