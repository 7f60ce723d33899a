/**
  Directories and the descriptors they share, over whole runs: namespaces are opened, forked and viewed by more
  vmrs, groups are allocated and replaced by copy-on-write, vmrs enter and leave the records of descriptors, and
  vmrs close.  All directories here are forks of one namespace, or of others of the same shape.
 */
module CloseRuns {
  import opened PowerOfTwo
  import opened ViewIntervals
  import opened Regions
  import opened CloseDirectory
  import opened CloseSafety

  /** Pages to a subblock. */
  type SubblockSize = n: nat | n > 0 witness 1

  /** What the directories have in common. */
  datatype Space = Space(shape: Shape, regions: seq<Region>, sb: SubblockSize)

  datatype Dir = Dir(slots: seq<Slot>, views: seq<View>, refcount: nat)

  /** The directory a vmr views, and the pages it views of it. */
  datatype Attached = Attached(dir: nat, iv: Interval)

  /** `given`: every descriptor ever allocated. */
  datatype State = State(dirs: seq<Dir>, vmrs: map<Vmr, Attached>, descs: Descs, given: set<Desc>)

  /** A vmr of a forked child, with the view it takes over.  A range that was split forks half by half. */
  datatype Half = Half(v: Vmr, iv: Interval)

  datatype Event =
    | Create(v: Vmr, iv: Interval)
    | Open(v: Vmr, t: nat, iv: Interval)
    | NewGroup(t: nat, p: nat, id: GroupId)
    | Name(d: Desc, v: Vmr)
    | Forget(d: Desc, v: Vmr)
    | Fork(t: nat, halves: seq<Half>, heads: seq<nat>)
    | Replace(t: nat, p: nat, id: GroupId, v: Vmr, resident: set<nat>)
    | Close(v: Vmr, w: Walk, slots: seq<Slot>, descs: Descs)

  // ---------------------------------------------------------------------------------------------
  // Groups

  ghost predicate ValidSpace(m: Space) {
    ProperShape(m.shape) && RegionsOf(m.shape, m.regions)
  }

  /** Positions of one group. */
  ghost predicate Mates(m: Space, p: nat, q: nat) {
    exists i :: 0 <= i < |m.regions| && SameGroup(m.shape, m.regions[i], p, q)
  }

  lemma MatesChain(m: Space, p: nat, q: nat, r: nat)
    requires ValidSpace(m) && Mates(m, p, q) && Mates(m, q, r)
    ensures Mates(m, p, r) && Mates(m, q, p)
  {
    var i :| 0 <= i < |m.regions| && SameGroup(m.shape, m.regions[i], p, q);
    var j :| 0 <= j < |m.regions| && SameGroup(m.shape, m.regions[j], q, r);
    RegionsAreApart(m.shape, m.regions);
    assert Holds(m.regions[i], q) && Holds(m.regions[j], q);
    OnlyOne(m.regions, i, j, q);
    assert SameGroup(m.shape, m.regions[i], p, r) && SameGroup(m.shape, m.regions[i], q, p);
  }

  lemma MatesInside(m: Space, p: nat, q: nat)
    requires ValidSpace(m) && Mates(m, p, q)
    ensures p < m.shape.len && q < m.shape.len && Mates(m, q, p) && Mates(m, p, p) && Mates(m, q, q)
  {
    var i :| 0 <= i < |m.regions| && SameGroup(m.shape, m.regions[i], p, q);
    assert Cut(m.shape, m.regions[i]);
    assert SameGroup(m.shape, m.regions[i], q, p) && SameGroup(m.shape, m.regions[i], p, p) && SameGroup(m.shape, m.regions[i], q, q);
  }

  /** Does `iv` view a page of the group of position `p`? */
  ghost predicate Reaches(m: Space, iv: Interval, p: nat) {
    exists q: nat, x: nat :: Mates(m, p, q) && PageOf(iv, m.sb, q, x)
  }

  predicate PageOf(iv: Interval, sb: SubblockSize, q: nat, x: nat) {
    iv.start <= x < iv.end && x / sb == q
  }

  /** The slots of a group name one group, or nothing. */
  ghost predicate WholeSlots(m: Space, slots: seq<Slot>) {
    |slots| == m.shape.len
    && forall p: nat, q: nat :: p < |slots| && q < |slots| && Mates(m, p, q) ==> slots[p] == slots[q]
  }

  // ---------------------------------------------------------------------------------------------
  // Counting slots

  /** One reference more for every descriptor named. */
  function AddRefs(ds: Descs, slots: seq<Slot>): (r: Descs)
    ensures r.names == ds.names && r.freed == ds.freed
    ensures forall d: Desc :: Ref(r, d) == Ref(ds, d) + if Named(slots, d) then 1 else 0
  {
    if slots == [] then ds
    else
      var last := |slots| - 1;
      var q := AddRefs(ds, slots[..last]);
      if slots[last] == None then q
      else
        var d := Desc(last, slots[last].value);
        q.(refcnt := q.refcnt[d := Ref(q, d) + 1])
  }

  /** One reference less. */
  function DropRefs(ds: Descs, slots: seq<Slot>): (r: Descs)
    ensures r.names == ds.names && r.freed == ds.freed
    ensures forall d: Desc :: Ref(r, d) == Ref(ds, d) - if Named(slots, d) then 1 else 0
  {
    if slots == [] then ds
    else
      var last := |slots| - 1;
      var q := DropRefs(ds, slots[..last]);
      if slots[last] == None then q else Drop(q, Desc(last, slots[last].value))
  }

  function SlotsOf(dirs: seq<Dir>): (r: seq<seq<Slot>>)
    ensures |r| == |dirs| && forall i :: 0 <= i < |dirs| ==> r[i] == dirs[i].slots
  {
    seq(|dirs|, i requires 0 <= i < |dirs| => dirs[i].slots)
  }

  /** The group of `p` alone, naming `id`. */
  ghost function GroupSlots(m: Space, p: nat, id: GroupId): (r: seq<Slot>)
    ensures |r| == m.shape.len
    ensures forall q :: 0 <= q < |r| ==> r[q] == if Mates(m, p, q) then Some(id) else None
  {
    seq(m.shape.len, q requires 0 <= q < m.shape.len => if Mates(m, p, q) then Some(id) else None)
  }

  /** `slots` with the group of `p` naming `id`. */
  ghost function WithGroup(m: Space, slots: seq<Slot>, p: nat, id: GroupId): (r: seq<Slot>)
    ensures |r| == |slots|
    ensures forall q :: 0 <= q < |r| ==> r[q] == if Mates(m, p, q) then Some(id) else slots[q]
  {
    seq(|slots|, q requires 0 <= q < |slots| => if Mates(m, p, q) then Some(id) else slots[q])
  }

  ghost function GroupDescs(m: Space, p: nat, id: GroupId): (r: set<Desc>)
    ensures forall d: Desc :: d in r <==> d.id == id && d.pos < m.shape.len && Mates(m, p, d.pos)
  {
    set q: nat | q < m.shape.len && Mates(m, p, q) :: Desc(q, id)
  }

  // ---------------------------------------------------------------------------------------------
  // What a fork copies

  predicate ViewFits(m: Space, iv: Interval) {
    iv.start < iv.end && CeilDiv(iv.end, m.sb) <= m.shape.len
  }

  function FirstIndex(m: Space, iv: Interval): nat {
    iv.start / m.sb
  }

  function EndIndex(m: Space, iv: Interval): nat {
    CeilDiv(iv.end, m.sb)
  }

  /** The head of the block of every position: blocks are runs of positions inside a group. */
  ghost predicate BlocksOf(m: Space, heads: seq<nat>) {
    && |heads| == m.shape.len
    && (forall p: nat :: p < |heads| ==> heads[p] <= p && Mates(m, heads[p], p))
    && (forall p: nat, q: nat :: q <= p < |heads| && heads[p] <= q ==> heads[q] == heads[p])
  }

  /** The blocks with a subblock under one of the views are copied, and copied whole. */
  ghost predicate IsCopied(m: Space, halves: seq<Half>, heads: seq<nat>, q: nat)
    requires q < |heads|
  {
    exists k: nat, p: nat :: k < |halves| && p < |heads| && UnderView(m, halves[k].iv, p) && heads[p] == heads[q]
  }

  predicate UnderView(m: Space, iv: Interval, p: nat) {
    FirstIndex(m, iv) <= p < EndIndex(m, iv)
  }

  ghost function CopiedSlots(m: Space, slots: seq<Slot>, halves: seq<Half>, heads: seq<nat>): (r: seq<Slot>)
    requires |heads| == |slots|
    ensures |r| == |slots|
    ensures forall q :: 0 <= q < |r| ==> r[q] == if IsCopied(m, halves, heads, q) then slots[q] else None
  {
    seq(|slots|, q requires 0 <= q < |slots| => if IsCopied(m, halves, heads, q) then slots[q] else None)
  }

  /** The end of the block of position `x`. */
  function BlockEnd(heads: seq<nat>, x: nat): (r: nat)
    requires x < |heads|
    ensures x < r <= |heads| && (forall q :: x <= q < r ==> heads[q] == heads[x]) && (r < |heads| ==> heads[r] != heads[x])
    decreases |heads| - x
  {
    if x + 1 < |heads| && heads[x + 1] == heads[x] then BlockEnd(heads, x + 1) else x + 1
  }

  /** The views taken over follow each other, and lie in the namespace. */
  predicate Forkable(m: Space, halves: seq<Half>) {
    && halves != [] && (forall k: nat :: k < |halves| ==> ViewFits(m, halves[k].iv))
    && (forall k: nat :: k + 1 < |halves| ==> halves[k].iv.end == halves[k + 1].iv.start)
  }

  /** The two ends of what is copied: those of the forked range, moved out to block boundaries. */
  function CopyStart(m: Space, halves: seq<Half>, heads: seq<nat>): nat
    requires Forkable(m, halves) && |heads| == m.shape.len
  {
    ViewIndices(m, halves[0].iv);
    heads[FirstIndex(m, halves[0].iv)]
  }

  function CopyEnd(m: Space, halves: seq<Half>, heads: seq<nat>): nat
    requires Forkable(m, halves) && |heads| == m.shape.len
  {
    ViewIndices(m, halves[|halves| - 1].iv);
    BlockEnd(heads, EndIndex(m, halves[|halves| - 1].iv) - 1)
  }

  lemma ViewIndices(m: Space, iv: Interval)
    requires ViewFits(m, iv)
    ensures FirstIndex(m, iv) < EndIndex(m, iv) <= m.shape.len
  {
    RoundOut(iv.start, iv.start, iv.end, m.sb);
  }

  /** Position `x` is inside a group that is named there, and not its first. */
  ghost predicate FallsInside(m: Space, slots: seq<Slot>, x: nat) {
    0 < x < |slots| && Mates(m, x - 1, x) && slots[x].Some?
  }

  function Joined(vmrs: map<Vmr, Attached>, t: nat, halves: seq<Half>): map<Vmr, Attached> {
    if halves == [] then vmrs
    else
      var x := halves[|halves| - 1];
      Joined(vmrs, t, halves[..|halves| - 1])[x.v := Attached(t, x.iv)]
  }

  function ViewsOf(halves: seq<Half>): seq<View> {
    if halves == [] then [] else Added(ViewsOf(halves[..|halves| - 1]), halves[|halves| - 1].iv)
  }

  /** The vmrs are new, and no two halves have the same. */
  predicate NewVmrs(vmrs: map<Vmr, Attached>, halves: seq<Half>) {
    && (forall k: nat :: k < |halves| ==> halves[k].v !in vmrs)
    && (forall k: nat, l: nat :: k < l < |halves| ==> halves[k].v != halves[l].v)
  }

  /** Records move with the pages: `v` leaves the old descriptors and enters the new ones. */
  function MoveNames(ds: Descs, v: Vmr, was: GroupId, id: GroupId, resident: set<nat>): (r: Descs)
    ensures r.refcnt == ds.refcnt && r.freed == ds.freed
    ensures forall d: Desc :: Names(r, d) ==
              if d.pos in resident && d.id == id then {v}
              else if d.pos in resident && d.id == was then Names(ds, d) - {v} else Names(ds, d)
  {
    var entered := set q | q in resident :: Desc(q, id);
    ds.(names := map d | d in ds.names.Keys + entered ::
          if d.pos in resident && d.id == id then {v}
          else if d.pos in resident && d.id == was then Names(ds, d) - {v} else Names(ds, d))
  }

  // ---------------------------------------------------------------------------------------------
  // Steps

  predicate Uses(s: State, v: Vmr, t: nat) {
    v in s.vmrs && s.vmrs[v].dir == t
  }

  ghost predicate InUse(s: State, t: nat) {
    t < |s.dirs| && exists v :: Uses(s, v, t)
  }

  /** `v` is recorded on `d` where it can be reached from `v`'s directory and `v`'s view. */
  ghost predicate Tied(m: Space, s: State, d: Desc, v: Vmr)
  {
    && v in s.vmrs && s.vmrs[v].dir < |s.dirs| && Named(s.dirs[s.vmrs[v].dir].slots, d)
    && Reaches(m, s.vmrs[v].iv, d.pos)
  }

  ghost predicate FreshId(s: State, id: GroupId) {
    forall d: Desc :: d in s.given ==> d.id != id
  }

  /** The child's view is one of the parent's. */
  ghost predicate Viewed(s: State, t: nat, iv: Interval) {
    exists u :: Uses(s, u, t) && s.vmrs[u].iv == iv
  }

  ghost predicate Enabled(m: Space, s: State, e: Event)
  {
    match e
    case Create(v, iv) => v !in s.vmrs && ViewFits(m, iv)
    case Open(v, t, iv) => v !in s.vmrs && ViewFits(m, iv) && InUse(s, t)
    case NewGroup(t, p, id) => InUse(s, t) && p < |s.dirs[t].slots| && s.dirs[t].slots[p] == None && FreshId(s, id)
    case Name(d, v) => Tied(m, s, d, v)
    case Forget(d, v) => true
    case Fork(t, halves, heads) =>
      && t < |s.dirs| && NewVmrs(s.vmrs, halves) && Forkable(m, halves) && BlocksOf(m, heads) && |s.dirs[t].slots| == |heads|
      && forall k: nat :: k < |halves| ==> Viewed(s, t, halves[k].iv)
    case Replace(t, p, id, v, resident) =>
      && Uses(s, v, t) && t < |s.dirs| && p < |s.dirs[t].slots| && s.dirs[t].slots[p].Some? && FreshId(s, id)
      && Ref(s.descs, Desc(p, s.dirs[t].slots[p].value)) > 1 && Reaches(m, s.vmrs[v].iv, p)
      && forall q: nat :: (q in resident ==> Mates(m, p, q))
           && (Mates(m, p, q) && Names(s.descs, Desc(q, s.dirs[t].slots[p].value)) != {} ==> q in resident)
    case Close(v, w, slots, descs) =>
      && v in s.vmrs && s.vmrs[v].dir < |s.dirs| && s.dirs[s.vmrs[v].dir].refcount > 0
      && var dir, iv := s.dirs[s.vmrs[v].dir], s.vmrs[v].iv;
      && w == PlanWalk(Deleted(dir.views, iv), iv, dir.refcount - 1, |dir.slots|, m.sb)
      && AllDone(m.shape, m.regions, w, Deleted(dir.views, iv), m.sb, v, |m.regions|, dir.slots, s.descs, slots, descs)
  }

  /** What keeps groups whole: neither end of what a fork copies falls inside a group. */
  ghost predicate CutsNoGroup(m: Space, s: State, e: Event)
    requires Enabled(m, s, e)
  {
    e.Fork? ==>
      && !FallsInside(m, s.dirs[e.t].slots, CopyStart(m, e.halves, e.heads))
      && !FallsInside(m, s.dirs[e.t].slots, CopyEnd(m, e.halves, e.heads))
  }

  /** What keeps the records in order besides: a group is replaced only when no other vmr of the same directory is
      recorded on it. */
  ghost predicate StrandsNobody(m: Space, s: State, e: Event)
    requires Enabled(m, s, e)
  {
    e.Replace? ==> NoOther(m, s, e.t, e.p, e.v)
  }

  ghost predicate NoOther(m: Space, s: State, t: nat, p: nat, v: Vmr)
    requires t < |s.dirs| && p < |s.dirs[t].slots| && s.dirs[t].slots[p].Some?
  {
    forall q: nat, u :: Mates(m, p, q) && u in Names(s.descs, Desc(q, s.dirs[t].slots[p].value)) && u != v ==> !Uses(s, u, t)
  }

  ghost function Apply(m: Space, s: State, e: Event): State
    requires Enabled(m, s, e)
  {
    match e
    case Create(v, iv) =>
      s.(dirs := s.dirs + [Dir(seq(m.shape.len, _ => None), Added([], iv), 1)], vmrs := s.vmrs[v := Attached(|s.dirs|, iv)])
    case Open(v, t, iv) =>
      var x := s.dirs[t];
      s.(dirs := s.dirs[t := x.(views := Added(x.views, iv), refcount := x.refcount + 1)], vmrs := s.vmrs[v := Attached(t, iv)])
    case NewGroup(t, p, id) =>
      s.(dirs := s.dirs[t := s.dirs[t].(slots := WithGroup(m, s.dirs[t].slots, p, id))],
         descs := AddRefs(s.descs, GroupSlots(m, p, id)), given := s.given + GroupDescs(m, p, id))
    case Name(d, v) => s.(descs := s.descs.(names := s.descs.names[d := Names(s.descs, d) + {v}]))
    case Forget(d, v) => s.(descs := Strip(s.descs, d, v))
    case Fork(t, halves, heads) =>
      var child := CopiedSlots(m, s.dirs[t].slots, halves, heads);
      s.(dirs := s.dirs + [Dir(child, ViewsOf(halves), |halves|)], vmrs := Joined(s.vmrs, |s.dirs|, halves),
         descs := AddRefs(s.descs, child))
    case Replace(t, p, id, v, resident) =>
      var was := s.dirs[t].slots[p].value;
      s.(dirs := s.dirs[t := s.dirs[t].(slots := WithGroup(m, s.dirs[t].slots, p, id))],
         descs := MoveNames(AddRefs(DropRefs(s.descs, GroupSlots(m, p, was)), GroupSlots(m, p, id)), v, was, id, resident),
         given := s.given + GroupDescs(m, p, id))
    case Close(v, w, slots, descs) =>
      var t := s.vmrs[v].dir;
      State(s.dirs[t := Dir(slots, Deleted(s.dirs[t].views, s.vmrs[v].iv), s.dirs[t].refcount - 1)],
            s.vmrs - {v}, descs, s.given)
  }
}
