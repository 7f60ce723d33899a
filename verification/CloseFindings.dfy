/**
  Runs that reach the two situations the bookkeeping of CloseRuns does not survive: a fork of what is left of a split
  range after one half was unmapped, and a copy-on-write of a group on which the vmr of the other half is recorded.
 */
module CloseFindings {
  import opened PowerOfTwo
  import opened ViewIntervals
  import opened Regions
  import opened CloseDirectory
  import opened CloseRuns
  import opened ForkRange
  import opened CloseRunsSafety
  import opened CloseCuts

  /** One group of two subblocks of one page, viewed by vmr 1 in its lower half and by vmr 2 in its upper half. */
  const SPACE := Space(Shape(2, 1, 0, 2, false, false), [Region(0, 2, 1, false)], 1)

  const GROUP: seq<Slot> := [Some(7), Some(7)]

  /** Every subblock is a block of its own: the fault that filled the group was split since. */
  const HEADS: seq<nat> := [0, 1]

  type HalfVmr = v: nat | 1 <= v <= 2 witness 1

  function Own(v: HalfVmr): Interval {
    Interval(v - 1, v)
  }

  lemma SpaceIsValid()
    ensures ValidSpace(SPACE) && forall p: nat, q: nat :: Mates(SPACE, p, q) <==> p < 2 && q < 2
  {
    var r := SPACE.regions[0];
    assert Pow2(1) == 2 * Pow2(0);
    assert Cut(SPACE.shape, r);
    forall x: nat
      ensures Hits(SPACE.regions, x) == if x < 2 then 1 else 0
    {
      assert SPACE.regions[1..] == [];
    }
    forall p: nat, q: nat
      ensures Mates(SPACE, p, q) <==> p < 2 && q < 2
    {
      assert SameGroup(SPACE.shape, r, p, q) <==> p < 2 && q < 2;
    }
  }

  lemma {:induction false} Append(m: Space, s: State, es: seq<Event>, e: Event)
    requires WholeRun(m, s, es) && Enabled(m, After(m, s, es), e) && CutsNoGroup(m, After(m, s, es), e)
    ensures WholeRun(m, s, es + [e]) && After(m, s, es + [e]) == Apply(m, After(m, s, es), e)
    decreases |es|
  {
    hide Enabled, CutsNoGroup, Apply;
    if es == [] {
      assert [e][1..] == [] && es + [e] == [e];
    } else {
      assert (es + [e])[1..] == es[1..] + [e];
      Append(m, Apply(m, s, es[0]), es[1..], e);
    }
  }

  // ---------------------------------------------------------------------------------------------
  // Both halves open, one of them recorded

  predicate BothOpen(s: State) {
    && |s.dirs| == 1 && s.dirs[0].views == [View(Own(1), 1), View(Own(2), 1)] && s.dirs[0].refcount == 2
    && s.vmrs == map[1 := Attached(0, Own(1)), 2 := Attached(0, Own(2))]
  }

  /** Nothing is allocated yet. */
  ghost predicate Unfilled(s: State) {
    && BothOpen(s) && s.dirs[0].slots == [None, None] && s.given == {}
    && forall d: Desc :: Ref(s.descs, d) == 0 && Names(s.descs, d) == {}
  }

  /** The group is there, and the upper half's vmr is recorded on its second descriptor. */
  ghost predicate Recorded(s: State) {
    && BothOpen(s) && s.dirs[0].slots == GROUP && s.given == {Desc(0, 7), Desc(1, 7)}
    && Ref(s.descs, Desc(0, 7)) == 1 && Names(s.descs, Desc(0, 7)) == {} && Names(s.descs, Desc(1, 7)) == {2}
  }

  const HALVES: seq<Event> := [Create(1, Own(1)), Open(2, 0, Own(2)), NewGroup(0, 0, 7), Name(Desc(1, 7), 2)]

  lemma OpenHalves() returns (s: State)
    ensures Enabled(SPACE, EMPTY, Create(1, Own(1)))
    ensures var r := Apply(SPACE, EMPTY, Create(1, Own(1)));
            Enabled(SPACE, r, Open(2, 0, Own(2))) && s == Apply(SPACE, r, Open(2, 0, Own(2))) && Unfilled(s)
  {
    SpaceIsValid();
    var r := Apply(SPACE, EMPTY, Create(1, Own(1)));
    assert Uses(r, 1, 0);
    s := Apply(SPACE, r, Open(2, 0, Own(2)));
    assert r.dirs[0].views == [View(Own(1), 1)];
    assert Position(r.dirs[0].views[1..], Own(2)) == 0;
  }

  lemma RecordUpper(s: State) returns (r: State)
    requires Unfilled(s)
    ensures Enabled(SPACE, s, NewGroup(0, 0, 7))
    ensures var q := Apply(SPACE, s, NewGroup(0, 0, 7));
            Enabled(SPACE, q, Name(Desc(1, 7), 2)) && r == Apply(SPACE, q, Name(Desc(1, 7), 2)) && Recorded(r)
  {
    SpaceIsValid();
    assert Uses(s, 1, 0);
    var q := Apply(SPACE, s, NewGroup(0, 0, 7));
    assert q.dirs[0].slots == GROUP;
    assert Mates(SPACE, 1, 1) && PageOf(Own(2), 1, 1, 1);
    assert Reaches(SPACE, Own(2), 1);
    assert q.given == {Desc(0, 7), Desc(1, 7)};
    assert GroupSlots(SPACE, 0, 7) == GROUP;
    hide Mates, ValidSpace, Reaches;
    r := Apply(SPACE, q, Name(Desc(1, 7), 2));
    assert Ref(q.descs, Desc(0, 7)) == 1;
    assert Names(q.descs, Desc(0, 7)) == {} && Names(q.descs, Desc(1, 7)) == {};
  }

  lemma HalvesRun() returns (s: State)
    ensures ValidSpace(SPACE) && WholeRun(SPACE, EMPTY, HALVES) && s == After(SPACE, EMPTY, HALVES) && Recorded(s)
  {
    SpaceIsValid();
    var a := OpenHalves();
    s := RecordUpper(a);
    hide ValidSpace, Enabled, Apply, Unfilled, Recorded, Mates;
    Append(SPACE, EMPTY, [], Create(1, Own(1)));
    Append(SPACE, EMPTY, [] + [Create(1, Own(1))], Open(2, 0, Own(2)));
    Append(SPACE, EMPTY, [] + [Create(1, Own(1))] + [Open(2, 0, Own(2))], NewGroup(0, 0, 7));
    Append(SPACE, EMPTY, [] + [Create(1, Own(1))] + [Open(2, 0, Own(2))] + [NewGroup(0, 0, 7)], Name(Desc(1, 7), 2));
    assert [] + [Create(1, Own(1))] + [Open(2, 0, Own(2))] + [NewGroup(0, 0, 7)] + [Name(Desc(1, 7), 2)] == HALVES;
  }

  // ---------------------------------------------------------------------------------------------
  // One half closes, the other forks

  /** Vmr `c` leaves: its half is walked, the group is met by the other half and stays. */
  function LeaveEvent(c: HalfVmr, ds: Descs): Event {
    Close(c, Walk(1, c - 1, c, c - 1, c, false), GROUP, Strip(Strip(ds, Desc(0, 7), c), Desc(1, 7), c))
  }

  /** What of the group the child of the remaining vmr gets. */
  function HalfGroup(o: HalfVmr): seq<Slot> {
    if o == 1 then [Some(7), None] else [None, Some(7)]
  }

  lemma LeaveWalk(c: HalfVmr)
    ensures var o: HalfVmr := 3 - c; var views := Deleted([View(Own(1), 1), View(Own(2), 1)], Own(c));
            && views == [View(Own(o), 1)]
            && PlanWalk(views, Own(c), 1, 2, 1) == Walk(1, c - 1, c, c - 1, c, false)
  {
    var o: HalfVmr := 3 - c;
    var was, views := [View(Own(1), 1), View(Own(2), 1)], [View(Own(o), 1)];
    assert was[1..] == [View(Own(2), 1)] && Position(was[1..], Own(2)) == 0;
    assert Position(was, Own(c)) == c - 1;
    assert Deleted(was, Own(c)) == views;
    assert views[1..] == [] && Uncovered([], c - 1, c) == Fine(c - 1, c);
    assert Uncovered(views, c - 1, c) == Fine(c - 1, c);
  }

  lemma LeaveDone(c: HalfVmr, ds: Descs)
    ensures var o: HalfVmr := 3 - c; var e := LeaveEvent(c, ds);
            AllDone(SPACE.shape, SPACE.regions, e.w, [View(Own(o), 1)], 1, c, 1, GROUP, ds, GROUP, e.descs)
  {
    var o: HalfVmr := 3 - c;
    var w, views := Walk(1, c - 1, c, c - 1, c, false), [View(Own(o), 1)];
    var r := SPACE.regions[0];
    assert Pow2(1) == 2 * Pow2(0);
    forall p: nat
      ensures !GoneBy(SPACE.shape, SPACE.regions, 1, w, views, 1, p)
      ensures VisitedBy(SPACE.shape, SPACE.regions, 1, w, p) <==> p < 2
    {
      assert Visited(SPACE.shape, r, w, p) <==> p < 2;
      assert !Gone(SPACE.shape, r, w, views, 1, p);
    }
    hide GoneBy, VisitedBy;
  }

  lemma HalfLeaves(s: State, c: HalfVmr) returns (r: State)
    requires Recorded(s)
    ensures Enabled(SPACE, s, LeaveEvent(c, s.descs)) && CutsNoGroup(SPACE, s, LeaveEvent(c, s.descs))
    ensures r == Apply(SPACE, s, LeaveEvent(c, s.descs))
    ensures var o: HalfVmr := 3 - c;
            |r.dirs| == 1 && r.dirs[0].slots == GROUP && r.vmrs == map[o := Attached(0, Own(o))]
  {
    LeaveWalk(c);
    LeaveDone(c, s.descs);
    hide AllDone, PlanWalk, Deleted;
    r := Apply(SPACE, s, LeaveEvent(c, s.descs));
  }

  lemma RestIsCopied(o: HalfVmr)
    ensures var halves := [Half(3, Own(o))];
            && BlocksOf(SPACE, HEADS) && Forkable(SPACE, halves)
            && CopyStart(SPACE, halves, HEADS) == o - 1 && CopyEnd(SPACE, halves, HEADS) == o
            && CopiedSlots(SPACE, GROUP, halves, HEADS) == HalfGroup(o)
  {
    SpaceIsValid();
    var halves := [Half(3, Own(o))];
    hide ValidSpace, Mates, IsCopied;
    EndsOfSplit(SPACE, halves, HEADS);
    hide CopyStart, CopyEnd;
    ChildIsBetween(SPACE, GROUP, halves, HEADS);
  }

  lemma RestForks(s: State, o: HalfVmr)
    requires |s.dirs| == 1 && s.dirs[0].slots == GROUP && s.vmrs == map[o := Attached(0, Own(o))]
    ensures Enabled(SPACE, s, Fork(0, [Half(3, Own(o))], HEADS))
  {
    RestIsCopied(o);
    assert Uses(s, o, 0);
    hide BlocksOf, CopiedSlots, CopyStart, CopyEnd, Forkable;
  }

  lemma ForkOfRest(s: State, o: HalfVmr)
    requires |s.dirs| == 1 && s.dirs[0].slots == GROUP && Enabled(SPACE, s, Fork(0, [Half(3, Own(o))], HEADS))
    ensures var fork := Fork(0, [Half(3, Own(o))], HEADS);
            !CutsNoGroup(SPACE, s, fork) && Apply(SPACE, s, fork).dirs[1].slots == HalfGroup(o)
  {
    SpaceIsValid();
    RestIsCopied(o);
    hide ValidSpace, Enabled, CopiedSlots, CopyStart, CopyEnd, Mates;
    assert FallsInside(SPACE, GROUP, 1);
  }

  lemma HalfIsPart(o: HalfVmr)
    ensures !WholeSlots(SPACE, HalfGroup(o))
  {
    SpaceIsValid();
    assert Mates(SPACE, 0, 1) && HalfGroup(o)[0] != HalfGroup(o)[1];
  }

  /** Once one half is unmapped, a fork copies the other half's slot and not its group's other one: in the child the
      group is named in part. */
  lemma HalfForkCutsAGroup(o: HalfVmr) returns (es: seq<Event>)
    ensures ValidSpace(SPACE) && WholeRun(SPACE, EMPTY, es)
    ensures |es| == 5 && es[..4] == HALVES && es[4].Close? && es[4].v == 3 - o
    ensures var s, fork := After(SPACE, EMPTY, es), Fork(0, [Half(3, Own(o))], HEADS);
            && Enabled(SPACE, s, fork) && !CutsNoGroup(SPACE, s, fork)
            && var child := Apply(SPACE, s, fork).dirs[1].slots;
               child == HalfGroup(o) && !WholeSlots(SPACE, child)
  {
    var s := HalvesRun();
    var c: HalfVmr := 3 - o;
    var r := HalfLeaves(s, c);
    RestForks(r, o);
    ForkOfRest(r, o);
    HalfIsPart(o);
    hide WholeRun, After, Enabled, Apply, ValidSpace, CutsNoGroup, WholeSlots;
    es := HALVES + [LeaveEvent(c, s.descs)];
    Append(SPACE, EMPTY, HALVES, LeaveEvent(c, s.descs));
  }

  // ---------------------------------------------------------------------------------------------
  // What comes of the child

  lemma LeadOfGroup(dir: seq<Slot>)
    requires |dir| == 2
    ensures LeadNamed(SPACE, dir, 0) <==> dir[0].Some?
    ensures LeadNamed(SPACE, dir, 1) <==> dir[0].Some?
  {
    SpaceIsValid();
    var i, h := LeadOf(SPACE, 0);
    LeadIs(SPACE, dir, i, 0, h);
    MatesLead(SPACE, dir, 0, 1);
  }

  /** The child that was forked from the lower half has the first slot alone: its last close takes the second, which
      is empty.  The one forked from the upper half has the second alone: its last close passes the group over, and
      the slot and its reference stay. */
  lemma HalfForkLastClose(o: HalfVmr, ds0: Descs, ok: bool, dir: seq<Slot>, ds: Descs)
    requires LastWalked(SPACE, HalfGroup(o), ds0, ok, dir, ds)
    ensures o == 1 ==> !ok
    ensures o == 2 ==> ok && dir == [None, Some(7)] && Ref(ds, Desc(1, 7)) == Ref(ds0, Desc(1, 7))
  {
    LeadOfGroup(HalfGroup(o));
    hide LeadNamed;
  }

  // ---------------------------------------------------------------------------------------------
  // Both halves fork, one of them writes

  const BOTH: seq<Half> := [Half(3, Own(1)), Half(4, Own(2))]

  /** After a fork of both halves, which cuts nothing, a write of vmr 1 replaces the group while vmr 2 is recorded on
      it: vmr 2 stays on a descriptor that its directory does not name any more. */
  lemma SiblingIsStranded()
    ensures ValidSpace(SPACE) && WholeRun(SPACE, EMPTY, HALVES)
    ensures var s, fork := After(SPACE, EMPTY, HALVES), Fork(0, BOTH, HEADS);
            && Enabled(SPACE, s, fork) && CutsNoGroup(SPACE, s, fork)
            && var r := Apply(SPACE, s, fork);
            && Enabled(SPACE, r, Replace(0, 0, 8, 1, {1})) && !StrandsNobody(SPACE, r, Replace(0, 0, 8, 1, {1}))
            && var q := Apply(SPACE, r, Replace(0, 0, 8, 1, {1}));
               |q.dirs| > 0 && 2 in Names(q.descs, Desc(1, 7)) && !Named(q.dirs[0].slots, Desc(1, 7)) && !NamesOk(SPACE, q)
  {
    var s := HalvesRun();
    HalvesOk();
    BothFork(s);
    ForkOfBoth(s);
    var r := Apply(SPACE, s, Fork(0, BOTH, HEADS));
    assert Names(r.descs, Desc(0, 7)) == {} && 2 in Names(r.descs, Desc(1, 7)) && r.given == {Desc(0, 7), Desc(1, 7)};
    hide Enabled, Apply, Base, Recorded, ValidSpace, CutsNoGroup, StrandsNobody, NamesOk, WholeRun, After, Names, Named;
    ForkOk(SPACE, s, 0, BOTH, HEADS);
    LowerWrites(r);
    WriteOfLower(r);
  }

  lemma HalvesOk()
    requires ValidSpace(SPACE) && WholeRun(SPACE, EMPTY, HALVES)
    ensures Base(SPACE, After(SPACE, EMPTY, HALVES))
  {
    EmptyOk(SPACE);
    hide Base, NamesOk, WholeRun, After, ValidSpace;
    RunOk(SPACE, EMPTY, HALVES);
  }

  lemma WriteOfLower(r: State)
    requires Base(SPACE, r) && Enabled(SPACE, r, Replace(0, 0, 8, 1, {1})) && Uses(r, 2, 0)
    requires |r.dirs| == 2 && r.dirs[0].slots == GROUP && 2 in Names(r.descs, Desc(1, 7))
    ensures !StrandsNobody(SPACE, r, Replace(0, 0, 8, 1, {1}))
    ensures var q := Apply(SPACE, r, Replace(0, 0, 8, 1, {1}));
            |q.dirs| > 0 && 2 in Names(q.descs, Desc(1, 7)) && !Named(q.dirs[0].slots, Desc(1, 7)) && !NamesOk(SPACE, q)
  {
    SpaceIsValid();
    OtherStrands(SPACE, r, 0, 0, 8, 1, {1}, 1, 2);
    hide Base, Enabled, ValidSpace, Apply, Mates, Names, Named, Tied;
  }

  lemma BothAreCopied()
    ensures BlocksOf(SPACE, HEADS) && Forkable(SPACE, BOTH)
    ensures CopiedSlots(SPACE, GROUP, BOTH, HEADS) == GROUP
    ensures CopyStart(SPACE, BOTH, HEADS) == 0 && CopyEnd(SPACE, BOTH, HEADS) == 2
  {
    SpaceIsValid();
    hide ValidSpace, Mates;
    EndsOfSplit(SPACE, BOTH, HEADS);
    ChildIsBetween(SPACE, GROUP, BOTH, HEADS);
    assert CopiedSlots(SPACE, GROUP, BOTH, HEADS) == GROUP;
  }

  lemma BothFork(s: State)
    requires Recorded(s)
    ensures Enabled(SPACE, s, Fork(0, BOTH, HEADS)) && CutsNoGroup(SPACE, s, Fork(0, BOTH, HEADS))
  {
    BothAreCopied();
    assert Uses(s, 1, 0) && Uses(s, 2, 0);
    hide BlocksOf, CopiedSlots, CopyStart, CopyEnd, Forkable;
  }

  lemma ForkOfBoth(s: State)
    requires Recorded(s) && Enabled(SPACE, s, Fork(0, BOTH, HEADS))
    ensures var r := Apply(SPACE, s, Fork(0, BOTH, HEADS));
            && Uses(r, 1, 0) && r.vmrs[1].iv == Own(1) && Uses(r, 2, 0) && |r.dirs| == 2 && r.dirs[0].slots == GROUP
            && r.given == s.given && r.descs.names == s.descs.names && Ref(r.descs, Desc(0, 7)) == 2
  {
    BothAreCopied();
    JoinedVmrs(s.vmrs, 1, BOTH);
    hide Enabled, CopiedSlots, Joined, ViewsOf, AddRefs;
  }

  lemma LowerWrites(r: State)
    requires Uses(r, 1, 0) && r.vmrs[1].iv == Own(1) && |r.dirs| == 2 && r.dirs[0].slots == GROUP
    requires r.given == {Desc(0, 7), Desc(1, 7)} && Ref(r.descs, Desc(0, 7)) == 2 && Names(r.descs, Desc(0, 7)) == {}
    ensures Enabled(SPACE, r, Replace(0, 0, 8, 1, {1}))
  {
    SpaceIsValid();
    assert Mates(SPACE, 0, 0) && PageOf(Own(1), 1, 0, 0);
    assert Reaches(SPACE, Own(1), 0);
    hide Mates, ValidSpace, Reaches;
    forall q: nat
      ensures (q in {1} ==> Mates(SPACE, 0, q)) && (Mates(SPACE, 0, q) && Names(r.descs, Desc(q, 7)) != {} ==> q in {1})
    {
    }
  }
}
