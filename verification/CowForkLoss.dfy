/**
  Sharing the donor slot of a block that was never touched: there is no slot, and what the sharer writes is lost.
 */
module CowForkLoss {
  import DS = DonorSlots
  import opened CowFork
  import opened CowForkSafety
  import opened CowForkRefinement

  /** Event `e` can happen in `s`, shares nothing, and leads to `r`. */
  ghost predicate Leads(s: State, e: Event, r: State) {
    Typed(s) && Enabled(s, e) && Sound(s, e) && Apply(s, e) == r
  }

  ghost predicate SafeRun(s: State, es: seq<Event>) {
    Schedulable(s, es) && SoundRun(s, es)
  }

  lemma Prepend(s: State, e: Event, r: State, es: seq<Event>)
    requires Leads(s, e, r) && SafeRun(r, es)
    ensures SafeRun(s, [e] + es) && After(s, [e] + es) == After(r, es)
  {
    hide Enabled, Apply, Typed, Sound;
    assert ([e] + es)[1..] == es;
  }

  lemma EagerStep(g: Eager, e: Event, es: seq<Event>)
    ensures EagerAfter(g, [e] + es) == EagerAfter(EagerApply(g, e), es)
  {
    assert ([e] + es)[1..] == es;
  }

  // ---------------------------------------------------------------------------------------------
  // The sharer after the share

  /** Descriptor `n` at slot `(t, i)` refers to a record that holds no donor slot, and no other directory names it. */
  ghost predicate Husk(s: State, t: DirId, i: Idx, n: DS.DescId) {
    && Typed(s) && OpenAt(s, t, i) && s.dirs[t][i] == n && !NamedTwice(s.dirs, i, n)
    && DS.IsCow(s.pool, n) && DS.SlotOf(s.pool, n) == DS.None
  }

  lemma HuskChanged(s: State, t: DirId, i: Idx, n: DS.DescId, x: Descr)
    requires Husk(s, t, i, n)
    ensures Husk(Changed(s, n, x), t, i, n)
  {
    assert Changed(s, n, x).descs.Keys == s.descs.Keys;
  }

  lemma ChangedTwice(s: State, n: DS.DescId, x: Descr, y: Descr)
    ensures Changed(Changed(s, n, x), n, y) == Changed(s, n, y)
  {
    assert s.descs[n := x][n := y] == s.descs[n := y];
  }

  /** The sharer fetches the block: its first touch, so it gets zeroes. */
  lemma Fetches(s: State, t: DirId, i: Idx, n: DS.DescId)
    requires Husk(s, t, i, n) && s.descs[n].local.None? && !s.descs[n].touched && !s.descs[n].wprotect
    ensures Leads(s, Fetch(n, false), Changed(s, n, s.descs[n].(local := DS.Some(Local(ZERO, Active)), touched := true)))
  {
  }

  lemma Writes(s: State, t: DirId, i: Idx, n: DS.DescId, x: Descr, off: Off, v: nat)
    requires Husk(s, t, i, n) && x.idx == i && x.local == DS.Some(Local(ZERO, Active)) && !x.wprotect
    ensures var y := x.(dirty := true, ptes := x.ptes[t := true]);
            && Leads(Changed(s, n, x), MapWrite(t, i), Changed(s, n, y))
            && Leads(Changed(s, n, y), Store(t, i, off, v),
                     Changed(s, n, y.(local := DS.Some(Local(Put(ZERO, off, v), Active)))))
  {
    var y := x.(dirty := true, ptes := x.ptes[t := true]);
    HuskChanged(s, t, i, n, x);
    HuskChanged(s, t, i, n, y);
    hide DS.SlotOf, NamedTwice, Put;
    ChangedTwice(s, n, x, y);
    ChangedTwice(s, n, y, y.(local := DS.Some(Local(Put(ZERO, off, v), Active))));
  }

  /** Nothing is allocated for a descriptor that claims a donor copy, so the page goes nowhere. */
  lemma Leaves(s: State, t: DirId, i: Idx, n: DS.DescId, x: Descr, page: Content, slot: DS.Slot)
    requires Husk(s, t, i, n) && x.idx == i && x.local == DS.Some(Local(page, Active))
    ensures var y := x.(local := DS.Some(Local(page, Inactive)), ptes := map[]);
            var z := y.(local := DS.Some(Local(page, Writeback)), dirty := false);
            && Leads(Changed(s, n, x), Evict(n), Changed(s, n, y))
            && Leads(Changed(s, n, y), StartWriteback(n, slot, true), Changed(s, n, z))
            && Leads(Changed(s, n, z), FinishWriteback(n), Changed(s, n, z.(local := DS.None)))
  {
    var y := x.(local := DS.Some(Local(page, Inactive)), ptes := map[]);
    var z := y.(local := DS.Some(Local(page, Writeback)), dirty := false);
    HuskChanged(s, t, i, n, x);
    HuskChanged(s, t, i, n, y);
    HuskChanged(s, t, i, n, z);
    ChangedTwice(s, n, x, y);
    ChangedTwice(s, n, y, z);
    ChangedTwice(s, n, z, z.(local := DS.None));
  }

  /** Directory `t` is open and finds nothing in block `i`. */
  ghost predicate Gone(s: State, t: DirId, i: Idx) {
    OpenAt(s, t, i) && BlockOf(s, t, i) == Unknown
  }

  /** What the sharer may do: fetch, write one word, be evicted and written back. */
  function LossRun(t: DirId, i: Idx, n: DS.DescId, slot: DS.Slot, off: Off, v: nat): seq<Event> {
    [Fetch(n, false)] + ([MapWrite(t, i)] + ([Store(t, i, off, v)] + LeaveRun(n, slot)))
  }

  function LeaveRun(n: DS.DescId, slot: DS.Slot): seq<Event> {
    [Evict(n)] + ([StartWriteback(n, slot, true)] + ([FinishWriteback(n)] + []))
  }

  lemma LeaveLoses(s: State, t: DirId, i: Idx, n: DS.DescId, x: Descr, page: Content, slot: DS.Slot)
    requires Husk(s, t, i, n) && x.idx == i && x.local == DS.Some(Local(page, Active)) && x.touched
    ensures var r := Changed(s, n, x); SafeRun(r, LeaveRun(n, slot)) && Gone(After(r, LeaveRun(n, slot)), t, i)
  {
    var y := x.(local := DS.Some(Local(page, Inactive)), ptes := map[]);
    var z := y.(local := DS.Some(Local(page, Writeback)), dirty := false);
    var w := z.(local := DS.None);
    Leaves(s, t, i, n, x, page, slot);
    HuskChanged(s, t, i, n, w);
    var last := Changed(s, n, w);
    assert Gone(last, t, i);
    hide Leads, Husk, Gone, DS.SlotOf;
    assert SafeRun(last, []) && After(last, []) == last;
    Prepend(Changed(s, n, z), FinishWriteback(n), last, []);
    Prepend(Changed(s, n, y), StartWriteback(n, slot, true), Changed(s, n, z), [FinishWriteback(n)] + []);
    Prepend(Changed(s, n, x), Evict(n), Changed(s, n, y), [StartWriteback(n, slot, true)] + ([FinishWriteback(n)] + []));
  }

  /** From any state with such a descriptor the sharer can write a word and then find nothing in its block. */
  lemma HuskLoses(s: State, t: DirId, i: Idx, n: DS.DescId, slot: DS.Slot, off: Off, v: nat)
    requires Husk(s, t, i, n) && s.descs[n].idx == i
    requires s.descs[n].local.None? && !s.descs[n].touched && !s.descs[n].wprotect
    ensures SafeRun(s, LossRun(t, i, n, slot, off, v)) && Gone(After(s, LossRun(t, i, n, slot, off, v)), t, i)
  {
    var x := s.descs[n].(local := DS.Some(Local(ZERO, Active)), touched := true);
    var y := x.(dirty := true, ptes := x.ptes[t := true]);
    var z := y.(local := DS.Some(Local(Put(ZERO, off, v), Active)));
    Fetches(s, t, i, n);
    Writes(s, t, i, n, x, off, v);
    LeaveLoses(s, t, i, n, z, Put(ZERO, off, v), slot);
    hide Leads, Husk, Gone, SafeRun, LeaveRun;
    Prepend(Changed(s, n, y), Store(t, i, off, v), Changed(s, n, z), LeaveRun(n, slot));
    Prepend(Changed(s, n, x), MapWrite(t, i), Changed(s, n, y), [Store(t, i, off, v)] + LeaveRun(n, slot));
    Prepend(s, Fetch(n, false), Changed(s, n, x), [MapWrite(t, i)] + ([Store(t, i, off, v)] + LeaveRun(n, slot)));
  }

  // ---------------------------------------------------------------------------------------------
  // The share

  lemma UntouchedIsFree(s: State, d: DS.DescId)
    requires Good(s) && d in s.descs && !s.descs[d].touched
    ensures DS.IsFree(s.pool, d) && s.descs[d].local.None?
  {
    assert DescOk(s, d);
  }

  /** Sharing an untouched block leaves the sharer with a record over nothing. */
  lemma UntouchedShare(s: State, t: DirId, i: Idx, n: DS.DescId, c: DS.CrpId)
    requires Good(s) && Enabled(s, CowRemote(t, i, n, c)) && !s.descs[s.dirs[t][i]].touched
    ensures Typed(s)
    ensures var r := Apply(s, CowRemote(t, i, n, c));
            Husk(r, t, i, n) && r.descs[n] == Descr(i, DS.None, false, s.descs[s.dirs[t][i]].dirty, false, map[])
  {
    CowNames(s, t, i, n);
    GoodDirs(s);
    var d := s.dirs[t][i];
    UntouchedIsFree(s, d);
    var r := AfterRemote(s, t, i, n, c);
    RemotePieces(s, r, t, i, d, n, c);
    hide Good, NamedTwice;
    assert r.dirs[t][i] == n && DS.IsCow(r.pool, n);
  }

  /** However such a share came about, the sharer can lose what it writes: the share and the continuation given
      are possible, the word written is there under an eager fork, and here every read of the block fails. */
  lemma UntouchedShareLoses(s: State, g: Eager, t: DirId, i: Idx, n: DS.DescId, c: DS.CrpId, slot: DS.Slot, off: Off, v: nat)
    requires Good(s) && Refines(s, g) && Enabled(s, CowRemote(t, i, n, c)) && !s.descs[s.dirs[t][i]].touched
    ensures Typed(s)
    ensures var r, es := Apply(s, CowRemote(t, i, n, c)), LossRun(t, i, n, slot, off, v);
            && SafeRun(r, es) && EagerRead(EagerAfter(g, es), t, i, off) == Word(v)
            && Gone(After(r, es), t, i)
  {
    UntouchedShare(s, t, i, n, c);
    var r, es := Apply(s, CowRemote(t, i, n, c)), LossRun(t, i, n, slot, off, v);
    assert t < |g.mem|;
    hide Good, Apply, Refines, Gone, Husk;
    HuskLoses(r, t, i, n, slot, off, v);
    EagerLoss(g, t, i, n, slot, off, v);
  }

  lemma EagerLoss(g: Eager, t: DirId, i: Idx, n: DS.DescId, slot: DS.Slot, off: Off, v: nat)
    requires t < |g.mem|
    ensures EagerRead(EagerAfter(g, LossRun(t, i, n, slot, off, v)), t, i, off) == Word(v)
  {
    var e5: seq<Event> := [FinishWriteback(n)] + [];
    var e4 := [StartWriteback(n, slot, true)] + e5;
    var e3 := [Evict(n)] + e4;
    var g' := Write(g, t, i, off, v);
    EagerStep(g, Fetch(n, false), [MapWrite(t, i)] + ([Store(t, i, off, v)] + e3));
    EagerStep(g, MapWrite(t, i), [Store(t, i, off, v)] + e3);
    EagerStep(g, Store(t, i, off, v), e3);
    EagerStep(g', Evict(n), e4);
    EagerStep(g', StartWriteback(n, slot, true), e5);
    EagerStep(g', FinishWriteback(n), []);
    WriteReads(g, t, i, off, v);
  }

  /** Whatever happens from `s` on, as long as only touched blocks are shared, every open directory reads what an
      eager fork would read. */
  ghost predicate StaysRight(s: State, g: Eager) {
    forall es: seq<Event> :: SafeRun(s, es) ==> Refines(After(s, es), EagerAfter(g, es))
  }

  /** Sharing by reference keeps reads right, then and later, exactly when the block was touched. */
  lemma RemoteShareIff(s: State, g: Eager, t: DirId, i: Idx, n: DS.DescId, c: DS.CrpId)
    requires Good(s) && Refines(s, g) && Enabled(s, CowRemote(t, i, n, c))
    ensures Typed(s) && (StaysRight(Apply(s, CowRemote(t, i, n, c)), g) <==> s.descs[s.dirs[t][i]].touched)
  {
    TypedGood(s);
    var r := Apply(s, CowRemote(t, i, n, c));
    if s.descs[s.dirs[t][i]].touched {
      StepRefines(s, g, CowRemote(t, i, n, c));
      hide Good, Refines, Apply, Enabled;
      forall es: seq<Event> | SafeRun(r, es)
        ensures Refines(After(r, es), EagerAfter(g, es))
      {
        RunRefines(r, g, es);
      }
    } else {
      UntouchedShareLoses(s, g, t, i, n, c, 0, 0, 7);
      var es := LossRun(t, i, n, 0, 0, 7);
      hide Good, Apply, Enabled, LossRun, Refines, Gone;
      GoneIsNotRefined(After(r, es), EagerAfter(g, es), t, i);
    }
  }

  lemma GoneIsNotRefined(s: State, g: Eager, t: DirId, i: Idx)
    requires Gone(s, t, i)
    ensures !Refines(s, g)
  {
    assert Read(s, t, i, 0) != EagerRead(g, t, i, 0);
  }

  // ---------------------------------------------------------------------------------------------
  // Such a share does happen

  function LossStart(): State {
    State([map[]], {}, map[], DS.Pool(map[], map[], {}), map[])
  }

  /** A new block, forked and shared by the child before anybody touched it; then the child writes 7. */
  function LossEvents(): seq<Event> {
    [NewDesc(0, 0, 0)] + ([Fork(0)] + ([CowRemote(1, 0, 1, 9)] + LossRun(1, 0, 1, 5, 0, 7)))
  }

  lemma ForkOfNew(s: State)
    requires s == LossStart()
    ensures Typed(s) && Enabled(s, NewDesc(0, 0, 0))
    ensures var r := Apply(s, NewDesc(0, 0, 0));
            && Typed(r) && Enabled(r, Fork(0))
            && var q := Apply(r, Fork(0)); Typed(q) && Enabled(q, CowRemote(1, 0, 1, 9)) && !q.descs[q.dirs[1][0]].touched
  {
    var r := Apply(s, NewDesc(0, 0, 0));
    assert r.dirs == [map[0 := 0]] && Named(r.dirs, 0, 0, 0);
    var q := Apply(r, Fork(0));
    assert q.dirs == [map[0 := 0], map[0 := 0]];
    assert Named(q.dirs, 0, 0, 0) && Named(q.dirs, 1, 0, 0);
  }

  lemma PrependAny(s: State, e: Event, es: seq<Event>)
    requires Typed(s) && Enabled(s, e) && Schedulable(Apply(s, e), es)
    ensures Schedulable(s, [e] + es) && After(s, [e] + es) == After(Apply(s, e), es)
  {
    hide Enabled, Apply, Typed;
    assert ([e] + es)[1..] == es;
  }

  /** The child wrote 7 and finds nothing once its block has left the cache. */
  lemma UntouchedShareLosesAWrite()
    ensures Initial(LossStart()) && Schedulable(LossStart(), LossEvents())
    ensures EagerRead(EagerAfter(Eager([map[]]), LossEvents()), 1, 0, 0) == Word(7)
    ensures Read(After(LossStart(), LossEvents()), 1, 0, 0) == Lost
  {
    var s, g := LossStart(), Eager([map[]]);
    InitialGood(s);
    ForkOfNew(s);
    StepRefines(s, g, NewDesc(0, 0, 0));
    var r := Apply(s, NewDesc(0, 0, 0));
    StepRefines(r, g, Fork(0));
    var q, g' := Apply(r, Fork(0)), EagerApply(g, Fork(0));
    UntouchedShareLoses(q, g', 1, 0, 1, 9, 5, 0, 7);
    var es := LossRun(1, 0, 1, 5, 0, 7);
    hide Good, Refines, LossRun, Enabled, Typed, Apply, After, Schedulable, SoundRun;
    PrependAny(q, CowRemote(1, 0, 1, 9), es);
    PrependAny(r, Fork(0), [CowRemote(1, 0, 1, 9)] + es);
    PrependAny(s, NewDesc(0, 0, 0), [Fork(0)] + ([CowRemote(1, 0, 1, 9)] + es));
    EagerStep(g', CowRemote(1, 0, 1, 9), es);
    EagerStep(g, Fork(0), [CowRemote(1, 0, 1, 9)] + es);
    EagerStep(g, NewDesc(0, 0, 0), [Fork(0)] + ([CowRemote(1, 0, 1, 9)] + es));
  }
}
