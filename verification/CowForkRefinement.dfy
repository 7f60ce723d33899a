/**
  A private fork by copy-on-write reads like a fork that copied everything at once.
 */
module CowForkRefinement {
  import DS = DonorSlots
  import opened CowFork
  import opened CowForkSafety

  lemma BlockNamed(s: State, u: DirId, j: Idx)
    requires Good(s) && u < |s.dirs| && j in s.dirs[u]
    ensures s.dirs[u][j] in s.descs && BlockOf(s, u, j) == Meaning(s, s.dirs[u][j])
  {
    assert Named(s.dirs, u, j, s.dirs[u][j]);
  }

  /** Every directory that is still open finds in every block what it found. */
  ghost predicate SameBlocks(s: State, r: State) {
    && |r.dirs| == |s.dirs| && s.closed <= r.closed
    && forall u: DirId, j: Idx :: u < |r.dirs| && u !in r.closed ==> BlockOf(r, u, j) == BlockOf(s, u, j)
  }

  lemma SameBlocksRefine(s: State, r: State, g: Eager)
    requires Refines(s, g) && SameBlocks(s, r)
    ensures Refines(r, g)
  {
    hide BlockOf, WordAt, EagerRead;
    forall u: DirId, j: Idx, off: Off | u < |r.dirs| && u !in r.closed
      ensures Read(r, u, j, off) == EagerRead(g, u, j, off)
    {
      assert Read(s, u, j, off) == EagerRead(g, u, j, off);
    }
  }

  // ---------------------------------------------------------------------------------------------
  // Events that change no block

  /** Events that leave the directories and every block's contents as they were. */
  lemma QuietSame(s: State, r: State)
    requires Good(s) && r.dirs == s.dirs && Preserved(s, r) && s.closed <= r.closed
    ensures SameBlocks(s, r)
  {
    hide Good, Meaning;
    forall u: DirId, j: Idx | u < |r.dirs| && u !in r.closed
      ensures BlockOf(r, u, j) == BlockOf(s, u, j)
    {
      if j in s.dirs[u] {
        BlockNamed(s, u, j);
      }
    }
  }

  /** Retargeting one slot to a new descriptor that holds what was found there. */
  lemma SlotSame(s: State, r: State, t: DirId, i: Idx, n: DS.DescId)
    requires Good(s) && t < |s.dirs| && r.dirs == SetSlot(s.dirs, t, i, n) && r.closed == s.closed
    requires Preserved(s, r) && n in r.descs && Meaning(r, n) == BlockOf(s, t, i)
    ensures SameBlocks(s, r)
  {
    hide Good, Meaning;
    forall u: DirId, j: Idx | u < |r.dirs| && u !in r.closed
      ensures BlockOf(r, u, j) == BlockOf(s, u, j)
    {
      if (u != t || j != i) && j in s.dirs[u] {
        BlockNamed(s, u, j);
      }
    }
  }

  lemma NewDescSame(s: State, t: DirId, i: Idx, n: DS.DescId)
    requires Good(s) && Enabled(s, NewDesc(t, i, n))
    ensures Typed(s) && SameBlocks(s, Apply(s, NewDesc(t, i, n)))
  {
    TypedGood(s);
    NewDescGood(s, t, i, n);
    hide Good, Preserved, Meaning, SetSlot;
    SlotSame(s, Apply(s, NewDesc(t, i, n)), t, i, n);
  }

  /** The copy holds what the original held, so copying is not seen by anybody. */
  lemma CopySame(s: State, t: DirId, i: Idx, n: DS.DescId)
    requires Good(s) && Enabled(s, CowCopy(t, i, n))
    ensures SameBlocks(s, AfterCopy(s, t, i, n))
  {
    AfterCopyGood(s, t, i, n);
    BlockNamed(s, t, i);
    hide Good, Preserved, Meaning, SetSlot, CowFault, Resident;
    SlotSame(s, AfterCopy(s, t, i, n), t, i, n);
  }

  lemma HandoffSame(s: State, t: DirId, i: Idx, n: DS.DescId)
    requires Good(s) && Enabled(s, CowHandoff(t, i, n))
    ensures SameBlocks(s, AfterHandoff(s, t, i, n))
  {
    CowNames(s, t, i, n);
    GoodSlots(s, s.dirs[t][i]);
    NotCowResident(s, s.dirs[t][i]);
    AfterHandoffGood(s, t, i, n);
    BlockNamed(s, t, i);
    hide Good, Preserved, Meaning, SetSlot, CowFault;
    SlotSame(s, AfterHandoff(s, t, i, n), t, i, n);
  }

  lemma RemoteSame(s: State, t: DirId, i: Idx, n: DS.DescId, c: DS.CrpId)
    requires Good(s) && Enabled(s, CowRemote(t, i, n, c)) && Sound(s, CowRemote(t, i, n, c))
    ensures Typed(s) && SameBlocks(s, Apply(s, CowRemote(t, i, n, c)))
  {
    TypedGood(s);
    AfterRemoteGood(s, t, i, n, c);
    BlockNamed(s, t, i);
    hide Good, Preserved, Meaning, SetSlot;
    SlotSame(s, AfterRemote(s, t, i, n, c), t, i, n);
  }

  lemma CloseSame(s: State, r: State, t: DirId, i: Idx)
    requires Good(s) && SlotNamed(s, t, i) && t in s.closed && r.closed == s.closed
    requires r.dirs == ClearSlot(s.dirs, t, i) && MeaningKept(s, r, {s.dirs[t][i]})
    requires !LastName(s, t, i, s.dirs[t][i]) ==> Preserved(s, r)
    ensures SameBlocks(s, r)
  {
    var d := s.dirs[t][i];
    GoodName(s, t, i);
    forall u: DirId, j: Idx | u < |r.dirs| && u !in r.closed
      ensures BlockOf(r, u, j) == BlockOf(s, u, j)
    {
      if j in s.dirs[u] {
        BlockNamed(s, u, j);
        GoodName(s, u, j);
        if s.dirs[u][j] == d {
          assert Named(s.dirs, u, i, d) && u != t;
        }
      }
    }
  }

  lemma CloseStepSame(s: State, t: DirId, i: Idx)
    requires Good(s) && Enabled(s, CloseSlot(t, i))
    ensures Typed(s) && SameBlocks(s, Apply(s, CloseSlot(t, i)))
  {
    TypedGood(s);
    CloseSlotGood(s, t, i);
    hide Good, MeaningKept, Preserved, LastName, Meaning;
    CloseSame(s, Apply(s, CloseSlot(t, i)), t, i);
  }

  lemma QuietStepSame(s: State, e: Event)
    requires Good(s) && Enabled(s, e) && Sound(s, e)
    requires !e.Store? && !e.Fork? && !e.NewDesc? && !e.CowCopy? && !e.CowHandoff? && !e.CowRemote? && !e.CloseSlot?
    ensures Typed(s) && SameBlocks(s, Apply(s, e))
  {
    TypedGood(s);
    StepGood(s, e);
    var r := Apply(s, e);
    assert r.dirs == s.dirs && s.closed <= r.closed by {
      hide Good, Preserved, Meaning, Typed, Sound, DS.SlotOf, DS.Alloc, DS.FreeSlot, DS.FetchDone;
    }
    hide Good, Preserved, Apply, Enabled, Sound;
    QuietSame(s, r);
  }

  /** Only a fork and a store are noticed: everything else, copies and handovers included, leaves what every open
      directory finds in every block. */
  lemma StepSame(s: State, e: Event)
    requires Good(s) && Enabled(s, e) && Sound(s, e) && !e.Store? && !e.Fork?
    ensures Typed(s) && SameBlocks(s, Apply(s, e))
  {
    TypedGood(s);
    match e {
      case NewDesc(t, i, n) => NewDescSame(s, t, i, n);
      case CowCopy(t, i, n) => CopySame(s, t, i, n);
      case CowHandoff(t, i, n) => HandoffSame(s, t, i, n);
      case CowRemote(t, i, n, c) => RemoteSame(s, t, i, n, c);
      case CloseSlot(t, i) => CloseStepSame(s, t, i);
      case _ => QuietStepSame(s, e);
    }
    hide Good, SameBlocks;
  }

  // ---------------------------------------------------------------------------------------------
  // Stores and forks

  lemma OnlyName(s: State, t: DirId, u: DirId, i: Idx, d: DS.DescId)
    requires d in s.descs && s.descs[d].idx == i && Named(s.dirs, t, i, d) && Named(s.dirs, u, i, d) && !Shared(s, d)
    ensures t == u
  {
    if t < u {
      TwoNames(s.dirs, t, u, i, d);
    } else if u < t {
      TwoNames(s.dirs, u, t, i, d);
    }
  }

  lemma TwoNames(dirs: seq<map<Idx, DS.DescId>>, t: DirId, u: DirId, i: Idx, d: DS.DescId)
    requires t < u && Named(dirs, t, i, d) && Named(dirs, u, i, d)
    ensures NamedTwice(dirs, i, d)
  {
  }

  /** A write in place reaches one directory alone. */
  lemma OneBlockChanges(s: State, r: State, t: DirId, i: Idx)
    requires Good(s) && OpenAt(s, t, i) && !Shared(s, s.dirs[t][i])
    requires r.dirs == s.dirs && MeaningKept(s, r, {s.dirs[t][i]})
    ensures forall u: DirId, j: Idx :: u < |r.dirs| && (u != t || j != i) ==> BlockOf(r, u, j) == BlockOf(s, u, j)
  {
    var d := s.dirs[t][i];
    GoodName(s, t, i);
    hide Meaning, Good, Shared;
    forall u: DirId, j: Idx | u < |r.dirs| && (u != t || j != i)
      ensures BlockOf(r, u, j) == BlockOf(s, u, j)
    {
      if j in s.dirs[u] {
        BlockNamed(s, u, j);
        GoodName(s, u, j);
        if s.dirs[u][j] == d {
          OnlyName(s, t, u, i, d);
        }
      }
    }
  }

  lemma WriteReads(g: Eager, t: DirId, i: Idx, off: Off, v: nat)
    requires t < |g.mem|
    ensures |Write(g, t, i, off, v).mem| == |g.mem|
    ensures forall u: DirId, j: Idx, o: Off :: EagerRead(Write(g, t, i, off, v), u, j, o)
              == if u == t && j == i && o == off then Word(v) else EagerRead(g, u, j, o)
  {
  }

  lemma StoreRefines(s: State, g: Eager, t: DirId, i: Idx, off: Off, v: nat)
    requires Good(s) && Refines(s, g) && Enabled(s, Store(t, i, off, v))
    ensures Typed(s) && Refines(Apply(s, Store(t, i, off, v)), Write(g, t, i, off, v))
  {
    TypedGood(s);
    StoreGood(s, t, i, off, v);
    var r := Apply(s, Store(t, i, off, v));
    BlockNamed(s, t, i);
    assert r.dirs == s.dirs && r.closed == s.closed && s.dirs[t][i] in r.descs;
    OneBlockChanges(s, r, t, i);
    WriteReads(g, t, i, off, v);
    assert BlockOf(r, t, i) == Put(BlockOf(s, t, i), off, v);
    hide Good, MeaningKept, Meaning, Shared, Write, EagerRead, BlockOf, Put, Apply, Enabled;
    assert Read(s, t, i, off) == EagerRead(g, t, i, off);
    forall u: DirId, j: Idx, o: Off | u < |r.dirs| && u !in r.closed
      ensures Read(r, u, j, o) == EagerRead(Write(g, t, i, off, v), u, j, o)
    {
      assert Read(s, u, j, o) == EagerRead(g, u, j, o);
    }
  }

  lemma ForkRefines(s: State, r: State, g: Eager, t: DirId)
    requires Good(s) && Refines(s, g) && t < |s.dirs| && t !in s.closed
    requires r.dirs == s.dirs + [s.dirs[t]] && r.closed == s.closed && Preserved(s, r)
    ensures Refines(r, EagerApply(g, Fork(t)))
  {
    var g' := EagerApply(g, Fork(t));
    hide Good, Meaning;
    forall u: DirId, j: Idx, off: Off | u < |r.dirs| && u !in r.closed
      ensures Read(r, u, j, off) == EagerRead(g', u, j, off)
    {
      var w := if u < |s.dirs| then u else t;
      assert Read(s, w, j, off) == EagerRead(g, w, j, off);
      if j in s.dirs[w] {
        BlockNamed(s, w, j);
      }
    }
  }

  /** One event of the real system is one event of the eager one. */
  lemma StepRefines(s: State, g: Eager, e: Event)
    requires Good(s) && Refines(s, g) && Enabled(s, e) && Sound(s, e)
    ensures Good(Apply(s, e)) && Refines(Apply(s, e), EagerApply(g, e))
  {
    TypedGood(s);
    StepGood(s, e);
    var r := Apply(s, e);
    if e.Store? {
      StoreRefines(s, g, e.t, e.i, e.off, e.v);
    } else if e.Fork? {
      ForkGood(s, e.t);
      hide Good, Preserved, Meaning;
      ForkRefines(s, r, g, e.t);
    } else {
      StepSame(s, e);
      assert EagerApply(g, e) == g;
      hide Good, Preserved, Refines, SameBlocks, Apply, Enabled;
      SameBlocksRefine(s, r, g);
    }
  }

  // ---------------------------------------------------------------------------------------------
  // Runs

  /** One directory that names nothing, and donors with free slots. */
  predicate Initial(s: State) {
    s.dirs == [map[]] && s.closed == {} && s.descs == map[] && s.pool.remote == map[] && s.pool.crps == map[]
  }

  lemma InitialGood(s: State)
    requires Initial(s)
    ensures Good(s) && Refines(s, Eager([map[]]))
  {
  }

  ghost function Take(s: State, e: Event): State {
    if Typed(s) && Enabled(s, e) then Apply(s, e) else s
  }

  ghost predicate Schedulable(s: State, es: seq<Event>)
    decreases |es|
  {
    es == [] || (Enabled(s, es[0]) && Schedulable(Take(s, es[0]), es[1..]))
  }

  /** No donor slot is shared for a block that was never touched. */
  ghost predicate SoundRun(s: State, es: seq<Event>)
    requires Schedulable(s, es)
    decreases |es|
  {
    es == [] || (Sound(s, es[0]) && SoundRun(Take(s, es[0]), es[1..]))
  }

  ghost function After(s: State, es: seq<Event>): State
    requires Schedulable(s, es)
    decreases |es|
  {
    if es == [] then s else After(Take(s, es[0]), es[1..])
  }

  function EagerAfter(g: Eager, es: seq<Event>): Eager
    decreases |es|
  {
    if es == [] then g else EagerAfter(EagerApply(g, es[0]), es[1..])
  }

  lemma {:induction false} RunRefines(s: State, g: Eager, es: seq<Event>)
    requires Good(s) && Refines(s, g) && Schedulable(s, es) && SoundRun(s, es)
    ensures Good(After(s, es)) && Refines(After(s, es), EagerAfter(g, es))
    decreases |es|
  {
    if es != [] {
      TypedGood(s);
      StepRefines(s, g, es[0]);
      hide Good, Refines, Enabled, Apply, EagerApply, Sound, Typed;
      RunRefines(Take(s, es[0]), EagerApply(g, es[0]), es[1..]);
    }
  }

  /** Over every run of forks, nested ones included, faults, copies, handovers, donor sharing, fetches,
      evictions, writebacks and closes, each directory reads in every word exactly what it would read had every
      fork copied all memory at once. */
  lemma ForkRefinesEagerCopy(s: State, es: seq<Event>, t: DirId, i: Idx, off: Off)
    requires Initial(s) && Schedulable(s, es) && SoundRun(s, es)
    requires t < |After(s, es).dirs| && t !in After(s, es).closed
    ensures Read(After(s, es), t, i, off) == EagerRead(EagerAfter(Eager([map[]]), es), t, i, off)
  {
    InitialGood(s);
    RunRefines(s, Eager([map[]]), es);
  }

  /** In every reachable state a descriptor that two directories name is protected, and nobody can write it
      without a fault. */
  lemma SharedIsProtected(s: State, es: seq<Event>, d: DS.DescId, t: DirId, u: DirId)
    requires Initial(s) && Schedulable(s, es) && SoundRun(s, es) && d in After(s, es).descs && t != u
    requires var r := After(s, es);
             Named(r.dirs, t, r.descs[d].idx, d) && Named(r.dirs, u, r.descs[d].idx, d)
    ensures var x := After(s, es).descs[d]; x.wprotect && forall w :: w in x.ptes ==> !x.ptes[w]
  {
    InitialGood(s);
    RunRefines(s, Eager([map[]]), es);
    var r := After(s, es);
    GoodDesc(r, d);
    assert NamedTwice(r.dirs, r.descs[d].idx, d) by {
      var a, b := if t < u then t else u, if t < u then u else t;
      assert Named(r.dirs, a, r.descs[d].idx, d) && Named(r.dirs, b, r.descs[d].idx, d);
    }
  }
}
