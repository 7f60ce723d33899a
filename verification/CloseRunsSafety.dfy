/**
  What holds of directories and shared descriptors after any run: groups are named whole, references count slots,
  a descriptor is given back exactly when no slot names it, and then no vmr is recorded on it.
 */
module CloseRunsSafety {
  import opened PowerOfTwo
  import opened ViewIntervals
  import opened Regions
  import opened CloseDirectory
  import opened CloseSafety
  import opened CloseRuns
  import opened ForkRange

  // ---------------------------------------------------------------------------------------------
  // The invariant

  function Viewers(vmrs: map<Vmr, Attached>, t: nat, iv: Interval): (r: set<Vmr>)
    ensures forall v :: v in r <==> v in vmrs && vmrs[v] == Attached(t, iv)
  {
    set v | v in vmrs && vmrs[v] == Attached(t, iv)
  }

  function Users(vmrs: map<Vmr, Attached>, t: nat): (r: set<Vmr>)
    ensures forall v :: v in r <==> v in vmrs && vmrs[v].dir == t
  {
    set v | v in vmrs && vmrs[v].dir == t
  }

  /** The view list holds one unit of its interval for every vmr of the directory, and the count is theirs. */
  ghost predicate ViewsOk(vmrs: map<Vmr, Attached>, t: nat, x: Dir) {
    && WellFormed(x.views) && x.refcount == |Users(vmrs, t)|
    && forall iv: Interval :: Multiplicity(x.views, iv) == |Viewers(vmrs, t, iv)|
  }

  ghost predicate DirsOk(m: Space, s: State) {
    forall t :: 0 <= t < |s.dirs| ==> WholeSlots(m, s.dirs[t].slots) && ViewsOk(s.vmrs, t, s.dirs[t])
  }

  ghost predicate VmrsOk(m: Space, s: State)
  {
    forall v :: v in s.vmrs ==> s.vmrs[v].dir < |s.dirs| && ViewFits(m, s.vmrs[v].iv)
  }

  /** A descriptor allocated is given back exactly when nothing counts it. */
  ghost predicate GivenOk(s: State) {
    forall d: Desc :: (Ref(s.descs, d) != 0 ==> d in s.given) && (d in s.descs.freed <==> d in s.given && Ref(s.descs, d) == 0)
  }

  /** The names on a descriptor are open vmrs whose directory still has a slot for it and whose view meets its
      group. */
  ghost predicate NamesOk(m: Space, s: State)
  {
    forall d: Desc, v :: v in Names(s.descs, d) ==> Tied(m, s, d, v)
  }

  /** Everything but the records. */
  ghost predicate Base(m: Space, s: State) {
    ValidSpace(m) && VmrsOk(m, s) && DirsOk(m, s) && Counted(SlotsOf(s.dirs), s.descs) && GivenOk(s)
  }

  ghost predicate Inv(m: Space, s: State) {
    Base(m, s) && NamesOk(m, s)
  }

  // ---------------------------------------------------------------------------------------------
  // Views

  lemma EnterViews(vmrs: map<Vmr, Attached>, t: nat, v: Vmr, iv: Interval, x: Dir)
    requires ViewsOk(vmrs, t, x) && v !in vmrs && iv.start < iv.end
    ensures ViewsOk(vmrs[v := Attached(t, iv)], t, x.(views := Added(x.views, iv), refcount := x.refcount + 1))
  {
    var after := vmrs[v := Attached(t, iv)];
    AddedWellFormed(x.views, iv);
    assert Users(after, t) == Users(vmrs, t) + {v};
    forall jv: Interval
      ensures Multiplicity(Added(x.views, iv), jv) == |Viewers(after, t, jv)|
    {
      AddedMultiplicity(x.views, iv, jv);
      assert Viewers(after, t, jv) == if jv == iv then Viewers(vmrs, t, jv) + {v} else Viewers(vmrs, t, jv);
    }
  }

  lemma NoViewsYet(vmrs: map<Vmr, Attached>, t: nat, slots: seq<Slot>)
    requires forall v :: v in vmrs ==> vmrs[v].dir != t
    ensures ViewsOk(vmrs, t, Dir(slots, [], 0))
  {
    assert Users(vmrs, t) == {};
    forall iv: Interval
      ensures Multiplicity([], iv) == |Viewers(vmrs, t, iv)|
    {
      assert Viewers(vmrs, t, iv) == {};
    }
  }

  /** Vmrs of another directory make no difference. */
  lemma OtherViews(a: map<Vmr, Attached>, b: map<Vmr, Attached>, t: nat, x: Dir)
    requires ViewsOk(a, t, x) && forall v :: (v in a && a[v].dir == t) || (v in b && b[v].dir == t) ==> v in a && v in b && a[v] == b[v]
    ensures ViewsOk(b, t, x)
  {
    assert Users(b, t) == Users(a, t);
    forall iv: Interval
      ensures Multiplicity(x.views, iv) == |Viewers(b, t, iv)|
    {
      assert Viewers(b, t, iv) == Viewers(a, t, iv);
    }
  }

  lemma LeaveViews(vmrs: map<Vmr, Attached>, t: nat, v: Vmr, x: Dir)
    requires ViewsOk(vmrs, t, x) && v in vmrs && vmrs[v].dir == t
    ensures x.refcount > 0
    ensures ViewsOk(vmrs - {v}, t, x.(views := Deleted(x.views, vmrs[v].iv), refcount := x.refcount - 1))
  {
    var iv, after := vmrs[v].iv, vmrs - {v};
    assert Users(after, t) == Users(vmrs, t) - {v};
    assert v in Users(vmrs, t) && v in Viewers(vmrs, t, iv);
    PresentMultiplicity(x.views, iv);
    DeletedWellFormed(x.views, iv);
    forall jv: Interval
      ensures Multiplicity(Deleted(x.views, iv), jv) == |Viewers(after, t, jv)|
    {
      DeletedMultiplicity(x.views, iv, jv);
      assert Viewers(after, t, jv) == if jv == iv then Viewers(vmrs, t, jv) - {v} else Viewers(vmrs, t, jv);
    }
  }

  /** The pages of an open vmr's view are seen. */
  lemma ViewIsSeen(vmrs: map<Vmr, Attached>, t: nat, v: Vmr, x: Dir, page: nat)
    requires ViewsOk(vmrs, t, x) && v in vmrs && vmrs[v].dir == t && vmrs[v].iv.start <= page < vmrs[v].iv.end
    ensures Seen(x.views, page) && x.refcount > 0
  {
    var iv := vmrs[v].iv;
    assert v in Viewers(vmrs, t, iv) && v in Users(vmrs, t);
    PresentMultiplicity(x.views, iv);
    var i := Position(x.views, iv);
    assert x.views[i].iv == iv && Sees(x.views[i].iv, page);
  }

  // ---------------------------------------------------------------------------------------------
  // Counts

  lemma {:induction false} CountAppend(dirs: seq<seq<Slot>>, slots: seq<Slot>, ds: Descs, after: Descs)
    requires Counted(dirs, ds)
    requires forall d: Desc :: Ref(after, d) == Ref(ds, d) + if Named(slots, d) then 1 else 0
    ensures Counted(dirs + [slots], after)
  {
    assert (dirs + [slots])[..|dirs|] == dirs;
  }

  lemma CountChange(dirs: seq<seq<Slot>>, t: nat, slots: seq<Slot>, ds: Descs, after: Descs)
    requires t < |dirs| && Counted(dirs, ds)
    requires forall d: Desc ::
      Ref(after, d) == Ref(ds, d) - (if Named(dirs[t], d) then 1 else 0) + if Named(slots, d) then 1 else 0
    ensures Counted(dirs[t := slots], after)
  {
    forall d: Desc
      ensures Ref(after, d) == Count(dirs[t := slots], d)
    {
      CountUpdate(dirs, t, slots, d);
    }
  }

  /** Members of a group are counted alike. */
  lemma {:induction false} CountAlike(m: Space, dirs: seq<seq<Slot>>, p: nat, q: nat, id: GroupId)
    requires ValidSpace(m) && Mates(m, p, q) && forall t :: 0 <= t < |dirs| ==> WholeSlots(m, dirs[t])
    ensures Count(dirs, Desc(p, id)) == Count(dirs, Desc(q, id))
    decreases |dirs|
  {
    MatesInside(m, p, q);
    if dirs != [] {
      var last := |dirs| - 1;
      assert WholeSlots(m, dirs[last]);
      CountAlike(m, dirs[..last], p, q, id);
    }
  }

  lemma {:induction false} CountPositive(dirs: seq<seq<Slot>>, t: nat, d: Desc)
    requires t < |dirs| && Named(dirs[t], d)
    ensures Count(dirs, d) > 0
  {
    CountUpdate(dirs, t, dirs[t], d);
  }

  lemma {:induction false} CountZero(dirs: seq<seq<Slot>>, d: Desc)
    requires Count(dirs, d) == 0
    ensures forall t :: 0 <= t < |dirs| ==> !Named(dirs[t], d)
  {
    forall t | 0 <= t < |dirs|
      ensures !Named(dirs[t], d)
    {
      if Named(dirs[t], d) {
        CountPositive(dirs, t, d);
      }
    }
  }

  lemma RefAlike(m: Space, s: State, p: nat, q: nat, id: GroupId)
    requires Base(m, s) && Mates(m, p, q)
    ensures Ref(s.descs, Desc(p, id)) == Ref(s.descs, Desc(q, id))
  {
    hide GivenOk, NamesOk, VmrsOk, ValidSpace;
    forall t | 0 <= t < |SlotsOf(s.dirs)|
      ensures WholeSlots(m, SlotsOf(s.dirs)[t])
    {
      assert WholeSlots(m, s.dirs[t].slots);
    }
    CountAlike(m, SlotsOf(s.dirs), p, q, id);
  }

  /** What a close asks of the directory it walks. */
  lemma DirIsConsistent(m: Space, s: State, t: nat)
    requires Base(m, s) && t < |s.dirs|
    ensures Consistent(m.shape, m.regions, s.dirs[t].slots, s.descs)
  {
    RegionsAreApart(m.shape, m.regions);
    assert WholeSlots(m, s.dirs[t].slots);
    forall i | 0 <= i < |m.regions|
      ensures Cut(m.shape, m.regions[i]) && GroupsWhole(m.shape, m.regions[i], s.dirs[t].slots, s.descs)
    {
      assert Cut(m.shape, m.regions[i]);
      RegionOfGroups(m, s, t, i);
    }
  }

  lemma RegionOfGroups(m: Space, s: State, t: nat, i: nat)
    requires Base(m, s) && t < |s.dirs| && i < |m.regions| && Cut(m.shape, m.regions[i])
    ensures GroupsWhole(m.shape, m.regions[i], s.dirs[t].slots, s.descs)
  {
    var slots := s.dirs[t].slots;
    assert WholeSlots(m, slots) && m.regions[i].end <= |slots|;
    forall p: nat, q: nat | SameGroup(m.shape, m.regions[i], p, q)
      ensures slots[p] == slots[q] && (slots[p].Some? ==> Ref(s.descs, Desc(p, slots[p].value)) == Ref(s.descs, Desc(q, slots[p].value)))
    {
      assert Mates(m, p, q);
      if slots[p].Some? {
        RefAlike(m, s, p, q, slots[p].value);
      }
    }
  }

  // ---------------------------------------------------------------------------------------------
  // Events that change no directory

  /** Being tied needs the directory's slot and the vmr, and no more. */
  lemma StillTied(m: Space, s: State, r: State, d: Desc, v: Vmr)
    requires Tied(m, s, d, v) && v in r.vmrs && r.vmrs[v] == s.vmrs[v]
    requires s.vmrs[v].dir < |r.dirs| && Named(r.dirs[s.vmrs[v].dir].slots, d)
    ensures Tied(m, r, d, v)
  {
  }

  /** What an event keeps: the bookkeeping, and the records where they were in order. */
  ghost predicate Kept(m: Space, s: State, r: State) {
    Base(m, r) && (NamesOk(m, s) ==> NamesOk(m, r))
  }

  /** Only names change, and those that are there are tied. */
  lemma NamesChange(m: Space, s: State, descs: Descs)
    requires Base(m, s) && descs.refcnt == s.descs.refcnt && descs.freed == s.descs.freed
    requires NamesOk(m, s) ==> forall d: Desc, v :: v in Names(descs, d) ==> Tied(m, s, d, v)
    ensures Kept(m, s, s.(descs := descs))
  {
    hide Reaches, WholeSlots, ViewsOk, ValidSpace, ViewFits;
    var r := s.(descs := descs);
    forall d: Desc
      ensures Ref(descs, d) == Ref(s.descs, d)
    {
    }
    forall d: Desc, v | NamesOk(m, s) && v in Names(descs, d)
      ensures Tied(m, r, d, v)
    {
      StillTied(m, s, r, d, v);
    }
  }

  lemma NameOk(m: Space, s: State, d: Desc, v: Vmr)
    requires Base(m, s) && Enabled(m, s, Name(d, v))
    ensures Kept(m, s, Apply(m, s, Name(d, v)))
  {
    hide Tied, DirsOk, VmrsOk, Counted, GivenOk, ValidSpace;
    NamesChange(m, s, Apply(m, s, Name(d, v)).descs);
  }

  lemma ForgetOk(m: Space, s: State, d: Desc, v: Vmr)
    requires Base(m, s)
    ensures Kept(m, s, Apply(m, s, Forget(d, v)))
  {
    hide Tied, DirsOk, VmrsOk, Counted, GivenOk, ValidSpace;
    NamesChange(m, s, Apply(m, s, Forget(d, v)).descs);
  }

  lemma OpenOk(m: Space, s: State, v: Vmr, t: nat, iv: Interval)
    requires Base(m, s) && Enabled(m, s, Open(v, t, iv))
    ensures Kept(m, s, Apply(m, s, Open(v, t, iv)))
  {
    var r := Apply(m, s, Open(v, t, iv));
    EnterViews(s.vmrs, t, v, iv, s.dirs[t]);
    hide Reaches, WholeSlots, ViewsOk, ValidSpace, ViewFits;
    assert SlotsOf(r.dirs) == SlotsOf(s.dirs);
    forall u | 0 <= u < |r.dirs|
      ensures WholeSlots(m, r.dirs[u].slots) && ViewsOk(r.vmrs, u, r.dirs[u])
    {
      if u != t {
        OtherViews(s.vmrs, r.vmrs, u, s.dirs[u]);
      }
    }
    forall d: Desc, u | NamesOk(m, s) && u in Names(r.descs, d)
      ensures Tied(m, r, d, u)
    {
      StillTied(m, s, r, d, u);
    }
  }

  lemma {:induction false} JoinedVmrs(vmrs: map<Vmr, Attached>, t: nat, halves: seq<Half>)
    requires NewVmrs(vmrs, halves)
    ensures var r := Joined(vmrs, t, halves);
            && (forall u :: u in vmrs ==> u in r && r[u] == vmrs[u])
            && (forall u :: u in r && u !in vmrs ==> exists k: nat :: k < |halves| && u == halves[k].v && r[u] == Attached(t, halves[k].iv))
    decreases |halves|
  {
    if halves != [] {
      var last := |halves| - 1;
      JoinedVmrs(vmrs, t, halves[..last]);
      var q, r := Joined(vmrs, t, halves[..last]), Joined(vmrs, t, halves);
      forall u | u in r && u !in vmrs
        ensures exists k: nat :: k < |halves| && u == halves[k].v && r[u] == Attached(t, halves[k].iv)
      {
        if u != halves[last].v {
          var k: nat :| k < last && u == halves[..last][k].v && q[u] == Attached(t, halves[..last][k].iv);
          assert u == halves[k].v && r[u] == Attached(t, halves[k].iv);
        }
      }
    }
  }

  lemma {:induction false} JoinedViews(vmrs: map<Vmr, Attached>, t: nat, halves: seq<Half>, slots: seq<Slot>)
    requires NewVmrs(vmrs, halves) && (forall v :: v in vmrs ==> vmrs[v].dir != t)
    requires forall k: nat :: k < |halves| ==> halves[k].iv.start < halves[k].iv.end
    ensures ViewsOk(Joined(vmrs, t, halves), t, Dir(slots, ViewsOf(halves), |halves|))
    decreases |halves|
  {
    if halves == [] {
      NoViewsYet(vmrs, t, slots);
    } else {
      var last := |halves| - 1;
      var front, x := halves[..last], halves[last];
      JoinedViews(vmrs, t, front, slots);
      JoinedVmrs(vmrs, t, front);
      hide ViewsOk;
      EnterViews(Joined(vmrs, t, front), t, x.v, x.iv, Dir(slots, ViewsOf(front), last));
    }
  }

  /** A directory more, with the vmrs that view it. */
  function WithDir(s: State, halves: seq<Half>, slots: seq<Slot>, descs: Descs): State {
    s.(dirs := s.dirs + [Dir(slots, ViewsOf(halves), |halves|)], vmrs := Joined(s.vmrs, |s.dirs|, halves), descs := descs)
  }

  lemma NewDirViews(m: Space, s: State, halves: seq<Half>, slots: seq<Slot>, descs: Descs)
    requires Base(m, s) && NewVmrs(s.vmrs, halves) && WholeSlots(m, slots)
    requires forall k: nat :: k < |halves| ==> ViewFits(m, halves[k].iv)
    ensures var r := WithDir(s, halves, slots, descs); VmrsOk(m, r) && DirsOk(m, r)
  {
    var r := WithDir(s, halves, slots, descs);
    JoinedVmrs(s.vmrs, |s.dirs|, halves);
    JoinedViews(s.vmrs, |s.dirs|, halves, slots);
    hide Reaches, WholeSlots, ViewsOk, ValidSpace, ViewFits, Counted, GivenOk;
    forall u | 0 <= u < |r.dirs|
      ensures WholeSlots(m, r.dirs[u].slots) && ViewsOk(r.vmrs, u, r.dirs[u])
    {
      if u < |s.dirs| {
        OtherViews(s.vmrs, r.vmrs, u, s.dirs[u]);
      }
    }
  }

  lemma NewDirOk(m: Space, s: State, halves: seq<Half>, slots: seq<Slot>, descs: Descs)
    requires Base(m, s) && NewVmrs(s.vmrs, halves) && WholeSlots(m, slots)
    requires forall k: nat :: k < |halves| ==> ViewFits(m, halves[k].iv)
    requires descs.names == s.descs.names && descs.freed == s.descs.freed
    requires forall d: Desc :: Ref(descs, d) == Ref(s.descs, d) + if Named(slots, d) then 1 else 0
    requires forall d: Desc :: Named(slots, d) ==> Ref(s.descs, d) > 0
    ensures Kept(m, s, WithDir(s, halves, slots, descs))
  {
    var r := WithDir(s, halves, slots, descs);
    NewDirViews(m, s, halves, slots, descs);
    JoinedVmrs(s.vmrs, |s.dirs|, halves);
    hide Reaches, WholeSlots, ViewsOk, ValidSpace, ViewFits, VmrsOk, DirsOk;
    assert SlotsOf(r.dirs) == SlotsOf(s.dirs) + [slots];
    CountAppend(SlotsOf(s.dirs), slots, s.descs, descs);
    hide Counted;
    forall d: Desc, u | NamesOk(m, s) && u in Names(r.descs, d)
      ensures Tied(m, r, d, u)
    {
      assert u in Names(s.descs, d);
      StillTied(m, s, r, d, u);
    }
  }

  lemma CreateOk(m: Space, s: State, v: Vmr, iv: Interval)
    requires Base(m, s) && Enabled(m, s, Create(v, iv))
    ensures Kept(m, s, Apply(m, s, Create(v, iv)))
  {
    var slots: seq<Slot> := seq(m.shape.len, _ => None);
    var halves := [Half(v, iv)];
    assert halves[..0] == [] && Joined(s.vmrs, |s.dirs|, []) == s.vmrs && ViewsOf([]) == [];
    assert Apply(m, s, Create(v, iv)) == WithDir(s, halves, slots, s.descs);
    hide Counted, GivenOk, NamesOk, VmrsOk, DirsOk, ValidSpace, WithDir;
    NewDirOk(m, s, halves, slots, s.descs);
  }

  lemma ForkOk(m: Space, s: State, t: nat, halves: seq<Half>, heads: seq<nat>)
    requires Base(m, s) && Enabled(m, s, Fork(t, halves, heads)) && CutsNoGroup(m, s, Fork(t, halves, heads))
    ensures Kept(m, s, Apply(m, s, Fork(t, halves, heads)))
  {
    var child := CopiedSlots(m, s.dirs[t].slots, halves, heads);
    assert WholeSlots(m, s.dirs[t].slots);
    ForkWholeIff(m, s.dirs[t].slots, halves, heads);
    forall d: Desc | Named(child, d)
      ensures Ref(s.descs, d) > 0
    {
      CountPositive(SlotsOf(s.dirs), t, d);
    }
    assert Apply(m, s, Fork(t, halves, heads)) == WithDir(s, halves, child, AddRefs(s.descs, child));
    hide Counted, GivenOk, NamesOk, VmrsOk, DirsOk, ValidSpace, WholeSlots, FallsInside, CopiedSlots, BlocksOf, WithDir, AddRefs;
    NewDirOk(m, s, halves, child, AddRefs(s.descs, child));
  }

  // ---------------------------------------------------------------------------------------------
  // New groups and replaced ones

  lemma WithGroupWhole(m: Space, slots: seq<Slot>, p: nat, id: GroupId)
    requires ValidSpace(m) && WholeSlots(m, slots)
    ensures WholeSlots(m, WithGroup(m, slots, p, id))
  {
    hide ValidSpace, Mates;
    var r := WithGroup(m, slots, p, id);
    forall a: nat, b: nat | a < |r| && b < |r| && Mates(m, a, b)
      ensures r[a] == r[b]
    {
      if Mates(m, p, a) {
        MatesChain(m, p, a, b);
      } else if Mates(m, p, b) {
        MatesInside(m, a, b);
        MatesChain(m, p, b, a);
      }
    }
  }

  /** Slots of one directory change, the views stay. */
  lemma SlotsChange(m: Space, s: State, r: State, t: nat, slots: seq<Slot>)
    requires Base(m, s) && t < |s.dirs| && r.dirs == s.dirs[t := s.dirs[t].(slots := slots)] && r.vmrs == s.vmrs
    requires WholeSlots(m, slots)
    ensures VmrsOk(m, r) && DirsOk(m, r) && SlotsOf(r.dirs) == SlotsOf(s.dirs)[t := slots]
  {
    assert ViewsOk(s.vmrs, t, s.dirs[t]);
    assert ViewsOk(r.vmrs, t, r.dirs[t]);
    hide WholeSlots, ViewsOk, ValidSpace, ViewFits, Counted, NamesOk, GivenOk;
  }

  lemma NotGiven(s: State, id: GroupId, d: Desc)
    requires FreshId(s, id) && d.id == id && GivenOk(s)
    ensures Ref(s.descs, d) == 0 && d !in s.descs.freed && d !in s.given
  {
  }

  lemma NewGroupRefs(m: Space, s: State, t: nat, p: nat, id: GroupId)
    requires Base(m, s) && Enabled(m, s, NewGroup(t, p, id))
    ensures var r := Apply(m, s, NewGroup(t, p, id));
            && (forall d: Desc :: Ref(r.descs, d) == Ref(s.descs, d)
                  - (if Named(s.dirs[t].slots, d) then 1 else 0) + if Named(r.dirs[t].slots, d) then 1 else 0)
            && (forall d: Desc :: Named(s.dirs[t].slots, d) ==> Named(r.dirs[t].slots, d))
  {
    assert WholeSlots(m, s.dirs[t].slots);
    hide ValidSpace, DirsOk, VmrsOk, Counted, GivenOk, NamesOk, Mates;
    forall q: nat | q < m.shape.len && Mates(m, p, q)
      ensures s.dirs[t].slots[q] == None
    {
    }
  }

  lemma NewGroupGiven(m: Space, s: State, t: nat, p: nat, id: GroupId)
    requires Base(m, s) && Enabled(m, s, NewGroup(t, p, id))
    ensures GivenOk(Apply(m, s, NewGroup(t, p, id)))
  {
    var r := Apply(m, s, NewGroup(t, p, id));
    hide ValidSpace, DirsOk, VmrsOk, Counted, NamesOk, Mates;
    forall d: Desc
      ensures (Ref(r.descs, d) != 0 ==> d in r.given) && (d in r.descs.freed <==> d in r.given && Ref(r.descs, d) == 0)
    {
      if d.id == id {
        NotGiven(s, id, d);
      }
    }
  }

  lemma NewGroupOk(m: Space, s: State, t: nat, p: nat, id: GroupId)
    requires Base(m, s) && Enabled(m, s, NewGroup(t, p, id))
    ensures Kept(m, s, Apply(m, s, NewGroup(t, p, id)))
  {
    var r := Apply(m, s, NewGroup(t, p, id));
    var slots := WithGroup(m, s.dirs[t].slots, p, id);
    assert WholeSlots(m, s.dirs[t].slots);
    WithGroupWhole(m, s.dirs[t].slots, p, id);
    SlotsChange(m, s, r, t, slots);
    NewGroupRefs(m, s, t, p, id);
    NewGroupGiven(m, s, t, p, id);
    hide WholeSlots, ValidSpace, Mates, DirsOk, VmrsOk, Reaches, GivenOk;
    CountChange(SlotsOf(s.dirs), t, slots, s.descs, r.descs);
    hide Counted, SlotsOf;
    forall d: Desc, u | NamesOk(m, s) && u in Names(r.descs, d)
      ensures Tied(m, r, d, u)
    {
      assert u in Names(s.descs, d);
      StillTied(m, s, r, d, u);
    }
  }

  lemma ReplacedId(m: Space, s: State, t: nat, p: nat, id: GroupId)
    requires Base(m, s) && t < |s.dirs| && p < |s.dirs[t].slots| && s.dirs[t].slots[p].Some? && FreshId(s, id)
    ensures s.dirs[t].slots[p] != Some(id)
  {
    var d := Desc(p, s.dirs[t].slots[p].value);
    CountPositive(SlotsOf(s.dirs), t, d);
    assert Ref(s.descs, d) != 0;
  }

  lemma ReplacedByGroup(m: Space, s: State, t: nat, p: nat, id: GroupId, v: Vmr, resident: set<nat>)
    requires Enabled(m, s, Replace(t, p, id, v, resident))
    ensures var was, r := s.dirs[t].slots[p].value, Apply(m, s, Replace(t, p, id, v, resident));
            forall d: Desc :: Ref(r.descs, d) == Ref(s.descs, d)
              - (if Named(GroupSlots(m, p, was), d) then 1 else 0) + if Named(GroupSlots(m, p, id), d) then 1 else 0
  {
    hide Reaches, Mates, GroupSlots, Named;
  }

  /** What a replacement leaves of the references, told by slots. */
  lemma ReplacedRefs(m: Space, s: State, t: nat, p: nat, id: GroupId, v: Vmr, resident: set<nat>)
    requires Base(m, s) && Enabled(m, s, Replace(t, p, id, v, resident))
    ensures var was, r := s.dirs[t].slots[p].value, Apply(m, s, Replace(t, p, id, v, resident));
            forall d: Desc :: Ref(r.descs, d) == Ref(s.descs, d)
              - (if Named(s.dirs[t].slots, d) then 1 else 0) + if Named(WithGroup(m, s.dirs[t].slots, p, id), d) then 1 else 0
  {
    ReplacedId(m, s, t, p, id);
    ReplacedByGroup(m, s, t, p, id, v, resident);
    assert WholeSlots(m, s.dirs[t].slots);
    GroupOrNot(m, s.dirs[t].slots, p, s.dirs[t].slots[p].value, id);
    hide Inv, Base, Apply, Enabled, Named, WithGroup, GroupSlots, WholeSlots, Ref;
  }

  /** Within the group the slots named the old group and then the new one; elsewhere nothing differs. */
  lemma GroupOrNot(m: Space, slots: seq<Slot>, p: nat, was: GroupId, id: GroupId)
    requires WholeSlots(m, slots) && p < |slots| && slots[p] == Some(was) && was != id
    ensures forall d: Desc ::
      (if Named(WithGroup(m, slots, p, id), d) then 1 else 0) - (if Named(slots, d) then 1 else 0)
      == (if Named(GroupSlots(m, p, id), d) then 1 else 0) - (if Named(GroupSlots(m, p, was), d) then 1 else 0)
  {
    hide Mates;
    forall q: nat | q < |slots| && Mates(m, p, q)
      ensures slots[q] == Some(was)
    {
    }
  }

  /** What a replacement leaves of everything else. */
  lemma ReplacedRest(m: Space, s: State, t: nat, p: nat, id: GroupId, v: Vmr, resident: set<nat>)
    requires Enabled(m, s, Replace(t, p, id, v, resident))
    ensures var was, r := s.dirs[t].slots[p].value, Apply(m, s, Replace(t, p, id, v, resident));
            && r.vmrs == s.vmrs && r.dirs == s.dirs[t := s.dirs[t].(slots := WithGroup(m, s.dirs[t].slots, p, id))]
            && r.given == s.given + GroupDescs(m, p, id) && r.descs.freed == s.descs.freed
            && (forall d: Desc :: Names(r.descs, d) ==
                  if d.pos in resident && d.id == id then {v}
                  else if d.pos in resident && d.id == was then Names(s.descs, d) - {v} else Names(s.descs, d))
  {
    hide Reaches, Mates, WithGroup, GroupSlots, GroupDescs;
  }

  /** References move from descriptors that keep one to descriptors that are new. */
  lemma GivenMoves(s: State, r: State, was: seq<Slot>, now: seq<Slot>)
    requires GivenOk(s) && r.descs.freed == s.descs.freed
    requires forall d: Desc ::
      Ref(r.descs, d) == Ref(s.descs, d) - (if Named(was, d) then 1 else 0) + if Named(now, d) then 1 else 0
    requires forall d: Desc :: Named(was, d) ==> Ref(s.descs, d) > 1
    requires forall d: Desc :: Named(now, d) ==> Ref(s.descs, d) == 0 && d !in s.descs.freed && !Named(was, d)
    requires forall d: Desc :: d in r.given <==> d in s.given || Named(now, d)
    ensures GivenOk(r)
  {
    hide Named;
  }

  lemma FreshGroup(m: Space, s: State, p: nat, was: GroupId, id: GroupId)
    requires FreshId(s, id) && GivenOk(s) && was != id
    ensures forall d: Desc :: Named(GroupSlots(m, p, id), d) ==>
              Ref(s.descs, d) == 0 && d !in s.descs.freed && !Named(GroupSlots(m, p, was), d)
    ensures forall d: Desc :: d in GroupDescs(m, p, id) <==> Named(GroupSlots(m, p, id), d)
  {
    hide Mates;
    forall d: Desc | Named(GroupSlots(m, p, id), d)
      ensures Ref(s.descs, d) == 0 && d !in s.descs.freed
    {
      NotGiven(s, id, d);
    }
  }

  lemma ReplacedGiven(m: Space, s: State, t: nat, p: nat, id: GroupId, v: Vmr, resident: set<nat>)
    requires Base(m, s) && Enabled(m, s, Replace(t, p, id, v, resident))
    ensures GivenOk(Apply(m, s, Replace(t, p, id, v, resident)))
  {
    var was, r := s.dirs[t].slots[p].value, Apply(m, s, Replace(t, p, id, v, resident));
    ReplacedByGroup(m, s, t, p, id, v, resident);
    ReplacedRest(m, s, t, p, id, v, resident);
    ReplacedId(m, s, t, p, id);
    GroupIsCountedTwice(m, s, t, p, id, v, resident);
    FreshGroup(m, s, p, was, id);
    hide Counted, NamesOk, VmrsOk, DirsOk, ValidSpace, Apply, GivenOk, GroupSlots, GroupDescs, WithGroup, Ref, Named, Names, Mates, Reaches;
    GivenMoves(s, r, GroupSlots(m, p, was), GroupSlots(m, p, id));
  }

  lemma GroupIsCountedTwice(m: Space, s: State, t: nat, p: nat, id: GroupId, v: Vmr, resident: set<nat>)
    requires Base(m, s) && Enabled(m, s, Replace(t, p, id, v, resident))
    ensures forall d: Desc :: Named(GroupSlots(m, p, s.dirs[t].slots[p].value), d) ==> Ref(s.descs, d) > 1
  {
    var was := s.dirs[t].slots[p].value;
    forall d: Desc | Named(GroupSlots(m, p, was), d)
      ensures Ref(s.descs, d) > 1
    {
      RefAlike(m, s, p, d.pos, was);
    }
  }

  /** Everything but the names survives any replacement. */
  lemma ReplaceCounts(m: Space, s: State, t: nat, p: nat, id: GroupId, v: Vmr, resident: set<nat>)
    requires Base(m, s) && Enabled(m, s, Replace(t, p, id, v, resident))
    ensures var r := Apply(m, s, Replace(t, p, id, v, resident));
            VmrsOk(m, r) && DirsOk(m, r) && Counted(SlotsOf(r.dirs), r.descs) && GivenOk(r)
  {
    var r := Apply(m, s, Replace(t, p, id, v, resident));
    var slots := WithGroup(m, s.dirs[t].slots, p, id);
    assert WholeSlots(m, s.dirs[t].slots);
    WithGroupWhole(m, s.dirs[t].slots, p, id);
    SlotsChange(m, s, r, t, slots);
    ReplacedGiven(m, s, t, p, id, v, resident);
    ReplacedRefs(m, s, t, p, id, v, resident);
    hide ValidSpace, GivenOk, NamesOk, VmrsOk, DirsOk, Mates, Reaches, WholeSlots, MoveNames, AddRefs, DropRefs;
    CountChange(SlotsOf(s.dirs), t, slots, s.descs, r.descs);
  }

  /** A replacement keeps the names in order exactly when no other vmr of the directory is recorded on the group. */
  lemma ReplaceNamesIff(m: Space, s: State, t: nat, p: nat, id: GroupId, v: Vmr, resident: set<nat>)
    requires Inv(m, s) && Enabled(m, s, Replace(t, p, id, v, resident))
    ensures NamesOk(m, Apply(m, s, Replace(t, p, id, v, resident))) <==> NoOther(m, s, t, p, v)
  {
    var r := Apply(m, s, Replace(t, p, id, v, resident));
    if NoOther(m, s, t, p, v) {
      ReplaceNames(m, s, t, p, id, v, resident);
    } else {
      var was := s.dirs[t].slots[p].value;
      var q: nat, u :| Mates(m, p, q) && u in Names(s.descs, Desc(q, was)) && u != v && Uses(s, u, t);
      OtherStrands(m, s, t, p, id, v, resident, q, u);
    }
  }

  /** Another vmr of the directory stays recorded on a descriptor its directory no longer names. */
  lemma OtherStrands(m: Space, s: State, t: nat, p: nat, id: GroupId, v: Vmr, resident: set<nat>, q: nat, u: Vmr)
    requires Base(m, s) && Enabled(m, s, Replace(t, p, id, v, resident))
    requires Mates(m, p, q) && u in Names(s.descs, Desc(q, s.dirs[t].slots[p].value)) && u != v && Uses(s, u, t)
    ensures var r, d := Apply(m, s, Replace(t, p, id, v, resident)), Desc(q, s.dirs[t].slots[p].value);
            u in Names(r.descs, d) && Uses(r, u, t) && t < |r.dirs| && !Named(r.dirs[t].slots, d) && !Tied(m, r, d, u)
  {
    ReplacedId(m, s, t, p, id);
    MatesInside(m, p, q);
    ReplacedRest(m, s, t, p, id, v, resident);
    assert WholeSlots(m, s.dirs[t].slots);
    hide Inv, Base, Mates, Reaches, Apply, Names, GroupDescs, WholeSlots;
  }

  /** The faulting vmr on its own new descriptors. */
  lemma EnteredIsTied(m: Space, s: State, t: nat, p: nat, id: GroupId, v: Vmr, resident: set<nat>, d: Desc)
    requires Base(m, s) && Enabled(m, s, Replace(t, p, id, v, resident)) && d.pos in resident && d.id == id
    ensures Tied(m, Apply(m, s, Replace(t, p, id, v, resident)), d, v)
  {
    MatesInside(m, p, d.pos);
    assert WholeSlots(m, s.dirs[t].slots);
    ReachesAlike(m, s.vmrs[v].iv, p, d.pos);
    hide ValidSpace, Counted, GivenOk, NamesOk, VmrsOk, DirsOk, Mates, Reaches;
  }

  lemma ReachesAlike(m: Space, iv: Interval, p: nat, q: nat)
    requires ValidSpace(m) && Mates(m, p, q) && Reaches(m, iv, p)
    ensures Reaches(m, iv, q)
  {
    var r: nat, x: nat :| Mates(m, p, r) && PageOf(iv, m.sb, r, x);
    MatesInside(m, p, q);
    MatesChain(m, q, p, r);
  }

  lemma KeptIsTied(m: Space, s: State, t: nat, p: nat, id: GroupId, v: Vmr, resident: set<nat>, d: Desc, u: Vmr)
    requires Inv(m, s) && Enabled(m, s, Replace(t, p, id, v, resident)) && NoOther(m, s, t, p, v)
    requires u in Names(s.descs, d) && u in Names(Apply(m, s, Replace(t, p, id, v, resident)).descs, d)
    requires !(d.pos in resident && d.id == id)
    ensures Tied(m, Apply(m, s, Replace(t, p, id, v, resident)), d, u)
  {
    var r := Apply(m, s, Replace(t, p, id, v, resident));
    ReplacedRest(m, s, t, p, id, v, resident);
    assert Tied(m, s, d, u);
    if s.vmrs[u].dir == t && Mates(m, p, d.pos) {
      OnlyTheFaulting(m, s, t, p, id, v, resident, d, u);
      assert false;
    }
    hide Inv, Base, NoOther, Reaches, Apply, Mates, Enabled, Names, GroupDescs;
    StillTied(m, s, r, d, u);
  }

  lemma OnlyTheFaulting(m: Space, s: State, t: nat, p: nat, id: GroupId, v: Vmr, resident: set<nat>, d: Desc, u: Vmr)
    requires Inv(m, s) && Enabled(m, s, Replace(t, p, id, v, resident)) && NoOther(m, s, t, p, v)
    requires u in Names(s.descs, d) && Uses(s, u, t) && Mates(m, p, d.pos)
    ensures u == v && d.pos in resident && d.id == s.dirs[t].slots[p].value
    ensures d.id != id
  {
    assert Tied(m, s, d, u) && WholeSlots(m, s.dirs[t].slots);
    ReplacedId(m, s, t, p, id);
    hide Inv, Base, Reaches, Tied, Counted, Mates;
    assert s.dirs[t].slots[d.pos] == s.dirs[t].slots[p];
  }

  lemma ReplacedIsTied(m: Space, s: State, t: nat, p: nat, id: GroupId, v: Vmr, resident: set<nat>, d: Desc, u: Vmr)
    requires Inv(m, s) && Enabled(m, s, Replace(t, p, id, v, resident)) && NoOther(m, s, t, p, v)
    requires u in Names(Apply(m, s, Replace(t, p, id, v, resident)).descs, d)
    ensures Tied(m, Apply(m, s, Replace(t, p, id, v, resident)), d, u)
  {
    ReplacedRest(m, s, t, p, id, v, resident);
    hide Inv, Base, Tied, NoOther, Enabled, Apply, Mates, Names, GroupDescs, WithGroup;
    if d.pos in resident && d.id == id {
      EnteredIsTied(m, s, t, p, id, v, resident, d);
    } else {
      KeptIsTied(m, s, t, p, id, v, resident, d, u);
    }
  }

  lemma ReplaceNames(m: Space, s: State, t: nat, p: nat, id: GroupId, v: Vmr, resident: set<nat>)
    requires Inv(m, s) && Enabled(m, s, Replace(t, p, id, v, resident)) && NoOther(m, s, t, p, v)
    ensures NamesOk(m, Apply(m, s, Replace(t, p, id, v, resident)))
  {
    hide Inv, Base, Tied, NoOther, Enabled, Apply, Names;
    forall d: Desc, u | u in Names(Apply(m, s, Replace(t, p, id, v, resident)).descs, d)
      ensures Tied(m, Apply(m, s, Replace(t, p, id, v, resident)), d, u)
    {
      ReplacedIsTied(m, s, t, p, id, v, resident, d, u);
    }
  }

  lemma ReplaceOk(m: Space, s: State, t: nat, p: nat, id: GroupId, v: Vmr, resident: set<nat>)
    requires Base(m, s) && Enabled(m, s, Replace(t, p, id, v, resident))
    ensures var r := Apply(m, s, Replace(t, p, id, v, resident));
            Base(m, r) && (NamesOk(m, s) && NoOther(m, s, t, p, v) ==> NamesOk(m, r))
  {
    ReplaceCounts(m, s, t, p, id, v, resident);
    if NamesOk(m, s) && NoOther(m, s, t, p, v) {
      ReplaceNames(m, s, t, p, id, v, resident);
    }
    hide Counted, GivenOk, NamesOk, VmrsOk, DirsOk, NoOther, Enabled, Apply;
  }

  // ---------------------------------------------------------------------------------------------
  // Close

  /** What a close decides on. */
  ghost predicate Closing(m: Space, s: State, v: Vmr, t: nat, views: seq<View>, left: nat, w: Walk, slots: seq<Slot>, descs: Descs) {
    && Base(m, s) && Uses(s, v, t) && t < |s.dirs| && s.dirs[t].refcount > 0
    && views == Deleted(s.dirs[t].views, s.vmrs[v].iv) && left == s.dirs[t].refcount - 1
    && w == PlanWalk(views, s.vmrs[v].iv, left, |s.dirs[t].slots|, m.sb)
    && AllDone(m.shape, m.regions, w, views, m.sb, v, |m.regions|, s.dirs[t].slots, s.descs, slots, descs)
  }

  lemma ClosingIsClose(m: Space, s: State, v: Vmr, w: Walk, slots: seq<Slot>, descs: Descs)
    requires Base(m, s) && Enabled(m, s, Close(v, w, slots, descs))
    ensures var t := s.vmrs[v].dir;
            Closing(m, s, v, t, Deleted(s.dirs[t].views, s.vmrs[v].iv), s.dirs[t].refcount - 1, w, slots, descs)
  {
    hide Inv, Base, AllDone, PlanWalk;
  }

  /** The close is one of those CloseSafety speaks of. */
  lemma ClosingIsClosedBy(m: Space, s: State, v: Vmr, t: nat, views: seq<View>, left: nat, w: Walk, slots: seq<Slot>, descs: Descs)
    requires Closing(m, s, v, t, views, left, w, slots, descs)
    ensures ClosedBy(m.shape, m.regions, views, s.vmrs[v].iv, left, m.sb, v, s.dirs[t].slots, s.descs, slots, descs)
  {
    DirIsConsistent(m, s, t);
    assert ViewsOk(s.vmrs, t, s.dirs[t]) && WholeSlots(m, s.dirs[t].slots);
    assert ViewFits(m, s.vmrs[v].iv);
    LeaveViews(s.vmrs, t, v, s.dirs[t]);
    hide AllDone, Consistent, RegionsOf, Counted, GivenOk, NamesOk, DirsOk, PlanWalk;
  }

  /** A group goes or stays as a whole. */
  lemma GoneAlike(m: Space, w: Walk, views: seq<View>, p: nat, q: nat)
    requires ValidSpace(m) && Mates(m, p, q) && GoneBy(m.shape, m.regions, |m.regions|, w, views, m.sb, p)
    ensures GoneBy(m.shape, m.regions, |m.regions|, w, views, m.sb, q)
  {
    var i :| 0 <= i < |m.regions| && SameGroup(m.shape, m.regions[i], p, q);
    var j :| 0 <= j < |m.regions| && Gone(m.shape, m.regions[j], w, views, m.sb, p);
    RegionsAreApart(m.shape, m.regions);
    assert Holds(m.regions[i], p) && Holds(m.regions[j], p);
    OnlyOne(m.regions, i, j, p);
    assert Gone(m.shape, m.regions[i], w, views, m.sb, q);
  }

  lemma ClosedSlotsWhole(m: Space, s: State, v: Vmr, t: nat, views: seq<View>, left: nat, w: Walk, slots: seq<Slot>, descs: Descs)
    requires Closing(m, s, v, t, views, left, w, slots, descs)
    ensures WholeSlots(m, slots)
  {
    var was := s.dirs[t].slots;
    assert WholeSlots(m, was);
    hide PlanWalk, Counted, GivenOk, NamesOk, DirsOk, VmrsOk, GoneBy, VisitedBy, Mates, ValidSpace;
    forall p: nat, q: nat | p < |slots| && q < |slots| && Mates(m, p, q)
      ensures slots[p] == slots[q]
    {
      MatesInside(m, p, q);
      if GoneBy(m.shape, m.regions, |m.regions|, w, views, m.sb, p) {
        GoneAlike(m, w, views, p, q);
      } else if GoneBy(m.shape, m.regions, |m.regions|, w, views, m.sb, q) {
        GoneAlike(m, w, views, q, p);
      }
      assert was[p] == was[q];
    }
  }

  /** References are dropped exactly with the slots. */
  lemma ClosedRefs(m: Space, s: State, v: Vmr, t: nat, views: seq<View>, left: nat, w: Walk, slots: seq<Slot>, descs: Descs)
    requires Closing(m, s, v, t, views, left, w, slots, descs)
    ensures forall d: Desc :: Ref(descs, d) == Ref(s.descs, d)
              - (if Named(s.dirs[t].slots, d) then 1 else 0) + if Named(slots, d) then 1 else 0
    ensures forall d: Desc :: d in descs.freed <==>
              d in s.descs.freed || (Named(s.dirs[t].slots, d) && !Named(slots, d) && Ref(s.descs, d) == 1)
    ensures forall d: Desc :: Names(descs, d) <= Names(s.descs, d)
    ensures forall d: Desc :: Named(slots, d) ==> Named(s.dirs[t].slots, d)
  {
    hide PlanWalk, Inv, Base, GoneBy, VisitedBy;
  }

  lemma ClosedGiven(m: Space, s: State, v: Vmr, t: nat, views: seq<View>, left: nat, w: Walk, slots: seq<Slot>, descs: Descs)
    requires Closing(m, s, v, t, views, left, w, slots, descs)
    ensures forall d: Desc :: (Ref(descs, d) != 0 ==> d in s.given) && (d in descs.freed <==> d in s.given && Ref(descs, d) == 0)
  {
    ClosedRefs(m, s, v, t, views, left, w, slots, descs);
    forall d: Desc | Named(s.dirs[t].slots, d)
      ensures Ref(s.descs, d) > 0
    {
      CountPositive(SlotsOf(s.dirs), t, d);
    }
    hide AllDone, PlanWalk, ValidSpace, Counted, NamesOk, DirsOk, VmrsOk, Named, Names;
  }

  /** The closing vmr is on no descriptor any more. */
  lemma CloserIsGone(m: Space, s: State, v: Vmr, t: nat, views: seq<View>, left: nat, w: Walk, slots: seq<Slot>, descs: Descs, d: Desc)
    requires Closing(m, s, v, t, views, left, w, slots, descs) && NamesOk(m, s)
    ensures v !in Names(descs, d)
  {
    if v in Names(s.descs, d) {
      var iv := s.vmrs[v].iv;
      assert Tied(m, s, d, v) && WholeSlots(m, s.dirs[t].slots) && ViewFits(m, iv);
      var q: nat, x: nat :| Mates(m, d.pos, q) && PageOf(iv, m.sb, q, x);
      var i :| 0 <= i < |m.regions| && SameGroup(m.shape, m.regions[i], d.pos, q);
      assert Cut(m.shape, m.regions[i]);
      hide Counted, GivenOk, NamesOk, DirsOk, VmrsOk, PlanWalk, AllDone, Cut, ProperShape, Walks, Pow2;
      GroupInsideRegion(m.shape, m.regions[i], q);
      EveryPageWalked(views, iv, left, |s.dirs[t].slots|, m.sb, HeadIndex(m.shape, d.pos, m.regions[i].order), Pow2(m.regions[i].order), x);
      VisitedIsStripped(m, w, views, v, s.dirs[t].slots, s.descs, slots, descs, d, i);
    } else {
      ClosedRefs(m, s, v, t, views, left, w, slots, descs);
    }
  }

  lemma VisitedIsStripped(m: Space, w: Walk, views: seq<View>, v: Vmr, was: seq<Slot>, ds: Descs, slots: seq<Slot>, descs: Descs, d: Desc, i: nat)
    requires AllDone(m.shape, m.regions, w, views, m.sb, v, |m.regions|, was, ds, slots, descs) && Named(was, d)
    requires i < |m.regions| && Visited(m.shape, m.regions[i], w, d.pos)
    ensures v !in Names(descs, d)
  {
    assert VisitedBy(m.shape, m.regions, |m.regions|, w, d.pos);
    hide Visited, GoneBy;
  }

  /** A vmr that stays keeps the slots it is recorded under: what is released is met by no view that stays. */
  lemma StayerKeepsSlot(m: Space, s: State, v: Vmr, t: nat, views: seq<View>, left: nat, w: Walk, slots: seq<Slot>, descs: Descs, d: Desc, u: Vmr)
    requires Closing(m, s, v, t, views, left, w, slots, descs) && NamesOk(m, s)
    requires u in Names(s.descs, d) && u != v && Uses(s, u, t)
    ensures Named(slots, d)
  {
    assert Tied(m, s, d, u) && ViewsOk(s.vmrs, t, s.dirs[t]);
    ClosingIsClosedBy(m, s, v, t, views, left, w, slots, descs);
    var iv := s.vmrs[u].iv;
    var q: nat, x: nat :| Mates(m, d.pos, q) && PageOf(iv, m.sb, q, x);
    LeaveViews(s.vmrs, t, v, s.dirs[t]);
    var vmrs := s.vmrs - {v};
    ViewIsSeen(vmrs, t, u, s.dirs[t].(views := views, refcount := left), x);
    hide Counted, GivenOk, NamesOk, DirsOk, VmrsOk, PlanWalk, ValidSpace, ClosedBy, ViewsOk, Seen, GoneBy, VisitedBy;
    if slots[d.pos] == None {
      PageInside(q, x, m.sb);
      ReleasedAreUnseen(m.shape, m.regions, views, s.vmrs[v].iv, left, m.sb, v, s.dirs[t].slots, s.descs, slots, descs, d.pos, q, x);
    }
  }

  lemma PageInside(q: nat, x: nat, sb: nat)
    requires sb > 0 && x / sb == q
    ensures q * sb <= x < (q + 1) * sb
  {
    assert x == q * sb + x % sb;
  }

  lemma LeftName(m: Space, s: State, v: Vmr, w: Walk, slots: seq<Slot>, descs: Descs, d: Desc, u: Vmr)
    requires Inv(m, s) && Enabled(m, s, Close(v, w, slots, descs)) && u in Names(descs, d)
    ensures u != v && Tied(m, s, d, u) && (Uses(s, u, s.vmrs[v].dir) ==> Named(slots, d))
  {
    var t := s.vmrs[v].dir;
    var views, left := Deleted(s.dirs[t].views, s.vmrs[v].iv), s.dirs[t].refcount - 1;
    ClosingIsClose(m, s, v, w, slots, descs);
    hide AllDone, PlanWalk, Deleted, Reaches, Closing, Enabled, DirsOk, VmrsOk, ValidSpace, Counted, GivenOk;
    ClosedRefs(m, s, v, t, views, left, w, slots, descs);
    CloserIsGone(m, s, v, t, views, left, w, slots, descs, d);
    if Uses(s, u, t) {
      StayerKeepsSlot(m, s, v, t, views, left, w, slots, descs, d, u);
    }
  }

  lemma CloseKeepsName(m: Space, s: State, v: Vmr, w: Walk, slots: seq<Slot>, descs: Descs, d: Desc, u: Vmr)
    requires Inv(m, s) && Enabled(m, s, Close(v, w, slots, descs)) && u in Names(descs, d)
    ensures Tied(m, Apply(m, s, Close(v, w, slots, descs)), d, u)
  {
    LeftName(m, s, v, w, slots, descs, d, u);
    hide Inv, Base, AllDone, PlanWalk, Deleted, Reaches, Names;
    StillTied(m, s, Apply(m, s, Close(v, w, slots, descs)), d, u);
  }

  lemma ClosedDirs(m: Space, s: State, v: Vmr, w: Walk, slots: seq<Slot>, descs: Descs)
    requires Base(m, s) && Enabled(m, s, Close(v, w, slots, descs))
    ensures var r := Apply(m, s, Close(v, w, slots, descs));
            VmrsOk(m, r) && DirsOk(m, r) && SlotsOf(r.dirs) == SlotsOf(s.dirs)[s.vmrs[v].dir := slots]
  {
    var t, r := s.vmrs[v].dir, Apply(m, s, Close(v, w, slots, descs));
    ClosingIsClose(m, s, v, w, slots, descs);
    ClosedSlotsWhole(m, s, v, t, Deleted(s.dirs[t].views, s.vmrs[v].iv), s.dirs[t].refcount - 1, w, slots, descs);
    assert ViewsOk(s.vmrs, t, s.dirs[t]);
    LeaveViews(s.vmrs, t, v, s.dirs[t]);
    assert ViewsOk(r.vmrs, t, r.dirs[t]);
    hide WholeSlots, ViewsOk, ValidSpace, ViewFits, Counted, NamesOk, GivenOk, AllDone, PlanWalk, Deleted, Closing;
    forall u | 0 <= u < |r.dirs|
      ensures WholeSlots(m, r.dirs[u].slots) && ViewsOk(r.vmrs, u, r.dirs[u])
    {
      if u != t {
        OtherViews(s.vmrs, r.vmrs, u, s.dirs[u]);
      }
    }
  }

  lemma CloseOk(m: Space, s: State, v: Vmr, w: Walk, slots: seq<Slot>, descs: Descs)
    requires Base(m, s) && Enabled(m, s, Close(v, w, slots, descs))
    ensures Kept(m, s, Apply(m, s, Close(v, w, slots, descs)))
  {
    var t, r := s.vmrs[v].dir, Apply(m, s, Close(v, w, slots, descs));
    var views, left := Deleted(s.dirs[t].views, s.vmrs[v].iv), s.dirs[t].refcount - 1;
    ClosingIsClose(m, s, v, w, slots, descs);
    ClosedDirs(m, s, v, w, slots, descs);
    ClosedRefs(m, s, v, t, views, left, w, slots, descs);
    ClosedGiven(m, s, v, t, views, left, w, slots, descs);
    hide ValidSpace, DirsOk, VmrsOk, AllDone, PlanWalk, Deleted, Closing, Tied;
    CountChange(SlotsOf(s.dirs), t, slots, s.descs, descs);
    hide Counted;
    forall d: Desc, u | NamesOk(m, s) && u in Names(r.descs, d)
      ensures Tied(m, r, d, u)
    {
      CloseKeepsName(m, s, v, w, slots, descs, d, u);
    }
  }

  lemma MatesIn(m: Space, i: nat, p: nat, q: nat)
    requires ValidSpace(m) && i < |m.regions| && Holds(m.regions[i], p)
    ensures Mates(m, p, q) <==> SameGroup(m.shape, m.regions[i], p, q)
  {
    if Mates(m, p, q) {
      var j :| 0 <= j < |m.regions| && SameGroup(m.shape, m.regions[j], p, q);
      RegionsAreApart(m.shape, m.regions);
      assert Holds(m.regions[j], p);
      OnlyOne(m.regions, i, j, p);
    }
  }

  /** A page that is seen is viewed by an open vmr of the directory. */
  lemma SeenHasViewer(vmrs: map<Vmr, Attached>, t: nat, x: Dir, page: nat) returns (u: Vmr)
    requires ViewsOk(vmrs, t, x) && Seen(x.views, page)
    ensures u in vmrs && vmrs[u].dir == t && vmrs[u].iv.start <= page < vmrs[u].iv.end
  {
    var i :| 0 <= i < |x.views| && Sees(x.views[i].iv, page);
    var iv := x.views[i].iv;
    PresentMultiplicity(x.views, iv);
    assert Viewers(vmrs, t, iv) != {};
    u :| u in Viewers(vmrs, t, iv);
  }

  /** Another vmr of the directory views a page of the group. */
  ghost predicate ViewedByOther(m: Space, s: State, v: Vmr, t: nat, p: nat) {
    exists u :: u != v && Uses(s, u, t) && Reaches(m, s.vmrs[u].iv, p)
  }

  lemma SeenByOther(m: Space, s: State, v: Vmr, t: nat, i: nat, p: nat)
    requires Base(m, s) && Uses(s, v, t) && t < |s.dirs| && i < |m.regions| && Holds(m.regions[i], p)
    ensures GroupSeen(m.shape, m.regions[i], Deleted(s.dirs[t].views, s.vmrs[v].iv), m.sb, p) <==> ViewedByOther(m, s, v, t, p)
  {
    var vmrs, views := s.vmrs - {v}, Deleted(s.dirs[t].views, s.vmrs[v].iv);
    assert ViewsOk(s.vmrs, t, s.dirs[t]);
    LeaveViews(s.vmrs, t, v, s.dirs[t]);
    var after := s.dirs[t].(views := views, refcount := s.dirs[t].refcount - 1);
    var r := m.regions[i];
    hide Base, ViewsOk, Deleted, SameGroup, Seen;
    if GroupSeen(m.shape, r, views, m.sb, p) {
      var x: nat :| PageOfGroup(m.shape, r, m.sb, p, x) && Seen(views, x);
      var u := SeenHasViewer(vmrs, t, after, x);
      BaseSpace(m, s);
      MatesIn(m, i, p, x / m.sb);
      assert PageOf(s.vmrs[u].iv, m.sb, x / m.sb, x);
      assert Uses(s, u, t) && Reaches(m, s.vmrs[u].iv, p);
    }
    if ViewedByOther(m, s, v, t, p) {
      var u :| u != v && Uses(s, u, t) && Reaches(m, s.vmrs[u].iv, p);
      var q: nat, x: nat :| Mates(m, p, q) && PageOf(s.vmrs[u].iv, m.sb, q, x);
      ViewIsSeen(vmrs, t, u, after, x);
      BaseSpace(m, s);
      MatesIn(m, i, p, q);
      assert PageOfGroup(m.shape, r, m.sb, p, x);
    }
  }

  lemma BaseSpace(m: Space, s: State)
    requires Base(m, s)
    ensures ValidSpace(m)
  {
  }

  /** A group inside the closing vmr's view loses its slots exactly when no other vmr of the directory views a page of
      it. */
  lemma GroupGoesIff(m: Space, s: State, v: Vmr, w: Walk, slots: seq<Slot>, descs: Descs, p: nat)
    requires Base(m, s) && Enabled(m, s, Close(v, w, slots, descs))
    requires p < |s.dirs[s.vmrs[v].dir].slots| && s.dirs[s.vmrs[v].dir].slots[p].Some?
    requires forall x: nat :: Mates(m, p, x / m.sb) ==> s.vmrs[v].iv.start <= x < s.vmrs[v].iv.end
    ensures p < |slots| && (slots[p] == None <==> !ViewedByOther(m, s, v, s.vmrs[v].dir, p))
  {
    var t, iv := s.vmrs[v].dir, s.vmrs[v].iv;
    var views, left := Deleted(s.dirs[t].views, iv), s.dirs[t].refcount - 1;
    ClosingIsClose(m, s, v, w, slots, descs);
    hide Base, AllDone, PlanWalk, Deleted, Enabled;
    GroupGoes(m, s, v, t, views, left, w, slots, descs, p);
  }

  lemma GroupGoes(m: Space, s: State, v: Vmr, t: nat, views: seq<View>, left: nat, w: Walk, slots: seq<Slot>, descs: Descs, p: nat)
    requires Closing(m, s, v, t, views, left, w, slots, descs) && p < |s.dirs[t].slots| && s.dirs[t].slots[p].Some?
    requires forall x: nat :: Mates(m, p, x / m.sb) ==> s.vmrs[v].iv.start <= x < s.vmrs[v].iv.end
    ensures p < |slots| && (slots[p] == None <==> !ViewedByOther(m, s, v, t, p))
  {
    ClosingIsClosedBy(m, s, v, t, views, left, w, slots, descs);
    var was, iv := s.dirs[t].slots, s.vmrs[v].iv;
    BaseSpace(m, s);
    var i := RegionOfPosition(m.shape, m.regions, p);
    hide Base, AllDone, PlanWalk, Deleted, ValidSpace;
    if left > 0 {
      forall x: nat | PageOfGroup(m.shape, m.regions[i], m.sb, p, x)
        ensures iv.start <= x < iv.end
      {
        MatesIn(m, i, p, x / m.sb);
      }
      SeenByOther(m, s, v, t, i, p);
      ClearedIff(m.shape, m.regions, views, iv, left, m.sb, v, was, s.descs, slots, descs, i, p);
    } else {
      LastCloseEmpties(m.shape, m.regions, views, iv, m.sb, v, was, s.descs, slots, descs, p);
      OnlyUser(m, s, v, t);
    }
  }

  lemma OnlyUser(m: Space, s: State, v: Vmr, t: nat)
    requires Base(m, s) && Uses(s, v, t) && t < |s.dirs| && s.dirs[t].refcount == 1
    ensures forall u :: Uses(s, u, t) ==> u == v
  {
    assert ViewsOk(s.vmrs, t, s.dirs[t]);
    forall u | Uses(s, u, t)
      ensures u == v
    {
      var us := Users(s.vmrs, t);
      assert u in us && |us - {u}| == 0;
      assert v in us - {u} || v == u;
    }
  }

  /** A descriptor given back by a close was recorded for the closing vmr at most, and is recorded for nobody
      then. */
  lemma FreedIsNameless(m: Space, s: State, v: Vmr, w: Walk, slots: seq<Slot>, descs: Descs, d: Desc)
    requires Inv(m, s) && Enabled(m, s, Close(v, w, slots, descs))
    requires d in descs.freed && d !in s.descs.freed
    ensures Names(s.descs, d) <= {v} && Names(descs, d) == {}
  {
    var t := s.vmrs[v].dir;
    var views, left := Deleted(s.dirs[t].views, s.vmrs[v].iv), s.dirs[t].refcount - 1;
    ClosingIsClose(m, s, v, w, slots, descs);
    ClosedRefs(m, s, v, t, views, left, w, slots, descs);
    CloserIsGone(m, s, v, t, views, left, w, slots, descs, d);
    hide Inv, Base, AllDone, PlanWalk, Deleted, Closing, Enabled;
    forall u | u in Names(s.descs, d)
      ensures u == v
    {
      OnlyTheCloser(m, s, v, t, views, left, w, slots, descs, d, u);
    }
  }

  lemma OnlyTheCloser(m: Space, s: State, v: Vmr, t: nat, views: seq<View>, left: nat, w: Walk, slots: seq<Slot>, descs: Descs, d: Desc, u: Vmr)
    requires Closing(m, s, v, t, views, left, w, slots, descs) && NamesOk(m, s) && u in Names(s.descs, d)
    requires Ref(s.descs, d) == 1 && Named(s.dirs[t].slots, d) && !Named(slots, d)
    ensures u == v
  {
    assert Tied(m, s, d, u);
    hide DirsOk, VmrsOk, GivenOk, NamesOk, ValidSpace, AllDone, PlanWalk, Deleted, Reaches, Named;
    if s.vmrs[u].dir != t {
      TwoDirs(SlotsOf(s.dirs), t, s.vmrs[u].dir, d);
    } else if u != v {
      StayerKeepsSlot(m, s, v, t, views, left, w, slots, descs, d, u);
    }
  }

  lemma TwoDirs(dirs: seq<seq<Slot>>, t: nat, u: nat, d: Desc)
    requires t < |dirs| && u < |dirs| && t != u && Named(dirs[t], d) && Named(dirs[u], d)
    ensures Count(dirs, d) > 1
  {
    var none: seq<Slot> := [];
    CountUpdate(dirs, t, none, d);
    CountPositive(dirs[t := none], u, d);
  }

  /** What a replacement leaves behind when another vmr `u` of the directory is recorded on the group: once `u` has
      closed, the old descriptor is still recorded for it, and whoever drops the last slot gives the descriptor
      back under that record. */
  lemma StrandedNameStays(m: Space, s: State, t: nat, p: nat, id: GroupId, v: Vmr, resident: set<nat>, q: nat, u: Vmr,
      w: Walk, slots: seq<Slot>, descs: Descs)
    requires Base(m, s) && Enabled(m, s, Replace(t, p, id, v, resident))
    requires Mates(m, p, q) && u in Names(s.descs, Desc(q, s.dirs[t].slots[p].value)) && u != v && Uses(s, u, t)
    requires Enabled(m, Apply(m, s, Replace(t, p, id, v, resident)), Close(u, w, slots, descs))
    ensures var r := Apply(m, Apply(m, s, Replace(t, p, id, v, resident)), Close(u, w, slots, descs));
            u !in r.vmrs && u in Names(r.descs, Desc(q, s.dirs[t].slots[p].value))
  {
    OtherStrands(m, s, t, p, id, v, resident, q, u);
    hide Inv, Base, PlanWalk, GoneBy, VisitedBy, NoOther, Mates, Tied;
  }

  // ---------------------------------------------------------------------------------------------
  // Runs

  /** Every event that cuts no group keeps the bookkeeping; the records stay in order if it strands nobody. */
  lemma StepOk(m: Space, s: State, e: Event)
    requires Base(m, s) && Enabled(m, s, e) && CutsNoGroup(m, s, e)
    ensures Base(m, Apply(m, s, e))
    ensures NamesOk(m, s) && StrandsNobody(m, s, e) ==> NamesOk(m, Apply(m, s, e))
  {
    match e {
      case Create(v, iv) => CreateOk(m, s, v, iv);
      case Open(v, t, iv) => OpenOk(m, s, v, t, iv);
      case NewGroup(t, p, id) => NewGroupOk(m, s, t, p, id);
      case Name(d, v) => NameOk(m, s, d, v);
      case Forget(d, v) => ForgetOk(m, s, d, v);
      case Fork(t, halves, heads) => ForkOk(m, s, t, halves, heads);
      case Replace(t, p, id, v, resident) => ReplaceOk(m, s, t, p, id, v, resident);
      case Close(v, w, slots, descs) => CloseOk(m, s, v, w, slots, descs);
    }
    hide Base, NamesOk, NoOther, FallsInside, AllDone, PlanWalk;
  }

  /** Runs in which no fork cuts a group. */
  ghost predicate WholeRun(m: Space, s: State, es: seq<Event>)
    decreases |es|
  {
    es == [] || (Enabled(m, s, es[0]) && CutsNoGroup(m, s, es[0]) && WholeRun(m, Apply(m, s, es[0]), es[1..]))
  }

  ghost function After(m: Space, s: State, es: seq<Event>): State
    requires WholeRun(m, s, es)
    decreases |es|
  {
    if es == [] then s else After(m, Apply(m, s, es[0]), es[1..])
  }

  /** No replacement on the way strands a record. */
  ghost predicate OrderlyRun(m: Space, s: State, es: seq<Event>)
    requires WholeRun(m, s, es)
    decreases |es|
  {
    es == [] || (StrandsNobody(m, s, es[0]) && OrderlyRun(m, Apply(m, s, es[0]), es[1..]))
  }

  const EMPTY := State([], map[], Descs(map[], map[], {}), {})

  lemma EmptyOk(m: Space)
    requires ValidSpace(m)
    ensures Inv(m, EMPTY)
  {
  }

  lemma {:induction false} RunOk(m: Space, s: State, es: seq<Event>)
    requires Base(m, s) && WholeRun(m, s, es)
    ensures Base(m, After(m, s, es))
    ensures NamesOk(m, s) && OrderlyRun(m, s, es) ==> NamesOk(m, After(m, s, es))
    decreases |es|
  {
    if es != [] {
      StepOk(m, s, es[0]);
      hide Base, NamesOk, Enabled, CutsNoGroup, StrandsNobody, Apply;
      RunOk(m, Apply(m, s, es[0]), es[1..]);
    }
  }

  /** Over every run whose forks cut no group a descriptor's reference count is the number of directories naming it,
      every directory names its groups whole, and a descriptor that was allocated is given back exactly when nothing
      names it. */
  lemma CountsOverRuns(m: Space, es: seq<Event>)
    requires ValidSpace(m) && WholeRun(m, EMPTY, es)
    ensures var r := After(m, EMPTY, es);
            && (forall d: Desc :: Ref(r.descs, d) == Count(SlotsOf(r.dirs), d))
            && (forall t :: 0 <= t < |r.dirs| ==> WholeSlots(m, r.dirs[t].slots))
            && (forall d: Desc :: d in r.given ==> (d in r.descs.freed <==> Count(SlotsOf(r.dirs), d) == 0))
  {
    EmptyOk(m);
    RunOk(m, EMPTY, es);
    hide ValidSpace, NamesOk, VmrsOk, WholeRun, After, WholeSlots, ViewsOk;
  }

  /** Over every such run whose replacements strand nobody, whoever is recorded on a descriptor is an open vmr whose
      directory names the descriptor and whose view meets its group; so nobody is recorded on one that was given
      back. */
  lemma NamesOverRuns(m: Space, es: seq<Event>, d: Desc)
    requires ValidSpace(m) && WholeRun(m, EMPTY, es) && OrderlyRun(m, EMPTY, es)
    ensures var r := After(m, EMPTY, es);
            && (forall v :: v in Names(r.descs, d) ==> Tied(m, r, d, v))
            && (d in r.descs.freed ==> Names(r.descs, d) == {} && forall t :: 0 <= t < |r.dirs| ==> !Named(r.dirs[t].slots, d))
  {
    EmptyOk(m);
    RunOk(m, EMPTY, es);
    var r := After(m, EMPTY, es);
    if d in r.descs.freed {
      CountZero(SlotsOf(r.dirs), d);
    }
    hide ValidSpace, VmrsOk, WholeRun, After, WholeSlots, ViewsOk;
  }
}
