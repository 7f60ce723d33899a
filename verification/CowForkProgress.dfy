/**
  Write faults are answered: from every state the invariant holds in, a directory can write any of its blocks after at
  most three events of its own, whatever the block is shared with and wherever its contents are.
 */
module CowForkProgress {
  import DS = DonorSlots
  import opened CowFork
  import opened CowForkSafety
  import opened CowForkRefinement

  /** A store to block `i` by directory `t` takes no fault. */
  ghost predicate Writable(s: State, t: DirId, i: Idx) {
    forall off: Off, v: nat :: Enabled(s, Store(t, i, off, v))
  }

  /** The block `t` names at `i` is resident and on the active list. */
  ghost predicate ActiveAt(s: State, t: DirId, i: Idx) {
    OpenAt(s, t, i) && InPhase(s, s.dirs[t][i], Active)
  }

  // ---------------------------------------------------------------------------------------------
  // One event

  lemma FreshIsNameless(s: State, n: DS.DescId, u: DirId, i: Idx)
    requires Good(s) && FreshDesc(s, n)
    ensures !Named(s.dirs, u, i, n)
  {
    if Named(s.dirs, u, i, n) {
      GoodName(s, u, i);
    }
  }

  /** A new descriptor is named where it was put, and nowhere else. */
  lemma NewIsAlone(s: State, t: DirId, i: Idx, n: DS.DescId)
    requires Good(s) && FreshDesc(s, n) && t < |s.dirs|
    ensures !NamedTwice(SetSlot(s.dirs, t, i, n), i, n)
  {
    hide Good, SetSlot;
    if NamedTwice(SetSlot(s.dirs, t, i, n), i, n) {
      var u: DirId, w: DirId :| u < w && Named(SetSlot(s.dirs, t, i, n), u, i, n) && Named(SetSlot(s.dirs, t, i, n), w, i, n);
      FreshIsNameless(s, n, if u == t then w else u, i);
    }
  }

  /** Directory `t` names the new descriptor `n`, which says `x`. */
  ghost predicate Placed(s: State, r: State, t: DirId, i: Idx, n: DS.DescId, x: Descr) {
    && t < |s.dirs| && r.dirs == SetSlot(s.dirs, t, i, n) && r.closed == s.closed
    && n in r.descs && r.descs[n] == x
  }

  lemma CopyPlaces(s: State, t: DirId, i: Idx, n: DS.DescId, e: Event) returns (x: Descr)
    requires Typed(s) && Enabled(s, e) && (e == CowCopy(t, i, n) || e == CowHandoff(t, i, n))
    ensures Placed(s, Apply(s, e), t, i, n, x)
    ensures x.idx == i && x.local.Some? && x.local.value.phase == Active && !x.wprotect && x.ptes == map[t := true]
  {
    hide Typed, NamedTwice, SetSlot, Unlisted, DS.AddDesc;
    x := Apply(s, e).descs[n];
  }

  lemma SharePlaces(s: State, t: DirId, i: Idx, n: DS.DescId, c: DS.CrpId) returns (x: Descr)
    requires Typed(s) && Enabled(s, CowRemote(t, i, n, c))
    ensures Placed(s, Apply(s, CowRemote(t, i, n, c)), t, i, n, x)
    ensures x.idx == i && x.local.None? && !x.wprotect
  {
    hide NamedTwice, SetSlot, DS.Share, DS.AddDesc;
    x := Apply(s, CowRemote(t, i, n, c)).descs[n];
  }

  lemma PlacedIsAlone(s: State, r: State, t: DirId, i: Idx, n: DS.DescId, x: Descr)
    requires Good(s) && FreshDesc(s, n) && OpenAt(s, t, i) && Placed(s, r, t, i, n, x) && x.idx == i
    ensures OpenAt(r, t, i) && r.dirs[t][i] == n && !Shared(r, n)
    ensures x.local.Some? && x.ptes == map[t := true] ==> Writable(r, t, i)
  {
    NewIsAlone(s, t, i, n);
    hide Good, NamedTwice, FreshDesc;
  }

  lemma CowIsOpen(s: State, e: Event, t: DirId, i: Idx, n: DS.DescId)
    requires Enabled(s, e) && e in {CowCopy(t, i, n), CowHandoff(t, i, n)}
    ensures OpenAt(s, t, i) && FreshDesc(s, n)
  {
  }

  /** Copying and handing over leave the faulting directory a block of its own that it can write at once. */
  lemma CopyAnswers(s: State, t: DirId, i: Idx, n: DS.DescId, e: Event)
    requires Good(s) && Enabled(s, e) && (e == CowCopy(t, i, n) || e == CowHandoff(t, i, n))
    ensures Good(Apply(s, e)) && Writable(Apply(s, e), t, i)
    ensures var r := Apply(s, e);
            OpenAt(r, t, i) && r.dirs[t][i] == n && !r.descs[n].wprotect && !Shared(r, n)
  {
    hide Good, Enabled, Apply, Writable, Shared, FreshDesc;
    TypedGood(s);
    StepGood(s, e);
    CowIsOpen(s, e, t, i, n);
    var x := CopyPlaces(s, t, i, n, e);
    PlacedIsAlone(s, Apply(s, e), t, i, n, x);
  }

  /** Sharing the donor slot leaves it one that nobody else names, to be fetched. */
  lemma ShareAnswers(s: State, t: DirId, i: Idx, n: DS.DescId, c: DS.CrpId)
    requires Good(s) && Enabled(s, CowRemote(t, i, n, c)) && Sound(s, CowRemote(t, i, n, c))
    ensures var r := Apply(s, CowRemote(t, i, n, c));
            Good(r) && OpenAt(r, t, i) && r.dirs[t][i] == n && r.descs[n].local.None? && !CowFault(r, t, i)
  {
    assert OpenAt(s, t, i) && FreshDesc(s, n);
    hide Good, Enabled, Apply, Shared, FreshDesc;
    TypedGood(s);
    StepGood(s, CowRemote(t, i, n, c));
    var x := SharePlaces(s, t, i, n, c);
    PlacedIsAlone(s, Apply(s, CowRemote(t, i, n, c)), t, i, n, x);
  }

  lemma FetchActivates(s: State, t: DirId, i: Idx, reuse: bool)
    requires Good(s) && OpenAt(s, t, i) && s.descs[s.dirs[t][i]].local.None?
    ensures Enabled(s, Fetch(s.dirs[t][i], reuse))
    ensures var r := Apply(s, Fetch(s.dirs[t][i], reuse));
            Good(r) && ActiveAt(r, t, i) && (CowFault(r, t, i) <==> CowFault(s, t, i)) && SameFresh(s, r)
  {
    var d := s.dirs[t][i];
    StepGood(s, Fetch(d, reuse));
    FetchPool(s, d, reuse);
    hide Good, DS.SlotOf, DS.Inv, DS.FetchDone, DS.FreeSlot;
  }

  lemma RefaultActivates(s: State, t: DirId, i: Idx, reuse: bool)
    requires Good(s) && OpenAt(s, t, i) && Resident(s, s.dirs[t][i]) && !ActiveAt(s, t, i)
    ensures Enabled(s, Refault(s.dirs[t][i], reuse))
    ensures var r := Apply(s, Refault(s.dirs[t][i], reuse));
            Good(r) && ActiveAt(r, t, i) && (CowFault(r, t, i) <==> CowFault(s, t, i)) && SameFresh(s, r)
  {
    var d := s.dirs[t][i];
    StepGood(s, Refault(d, reuse));
    hide Good, DS.SlotOf, DS.Inv;
  }

  /** Whatever identifier was fresh still is. */
  ghost predicate SameFresh(s: State, r: State) {
    forall n :: FreshDesc(s, n) ==> FreshDesc(r, n)
  }

  lemma MapAnswers(s: State, t: DirId, i: Idx)
    requires Good(s) && ActiveAt(s, t, i) && !CowFault(s, t, i)
    ensures Enabled(s, MapWrite(t, i)) && Good(Apply(s, MapWrite(t, i))) && Writable(Apply(s, MapWrite(t, i)), t, i)
  {
    MapWriteGood(s, t, i);
    hide Good, DS.SlotOf, DS.Inv;
  }

  // ---------------------------------------------------------------------------------------------
  // The answer to a write

  ghost predicate Answers(s: State, es: seq<Event>, t: DirId, i: Idx) {
    Schedulable(s, es) && Good(After(s, es)) && Writable(After(s, es), t, i)
  }

  lemma OneStep(s: State, e: Event, es: seq<Event>, t: DirId, i: Idx)
    requires Good(s) && Enabled(s, e) && Good(Apply(s, e)) && Answers(Apply(s, e), es, t, i)
    ensures Answers(s, [e] + es, t, i)
  {
    hide Good, Enabled, Apply, Writable, Typed;
    TypedGood(s);
    assert ([e] + es)[1..] == es;
  }

  lemma NoStep(s: State, t: DirId, i: Idx)
    requires Good(s) && Writable(s, t, i)
    ensures Answers(s, [], t, i)
  {
  }

  lemma ActiveAnswers(s: State, t: DirId, i: Idx, n: DS.DescId) returns (e: Event)
    requires Good(s) && ActiveAt(s, t, i) && FreshDesc(s, n)
    ensures e == if CowFault(s, t, i) then CowCopy(t, i, n) else MapWrite(t, i)
    ensures Answers(s, [e] + [], t, i)
  {
    TypedGood(s);
    if CowFault(s, t, i) {
      e := CowCopy(t, i, n);
      CopyAnswers(s, t, i, n, e);
    } else {
      e := MapWrite(t, i);
      MapAnswers(s, t, i);
    }
    hide Good, Enabled, Apply, Writable, Typed, CowFault, ActiveAt;
    NoStep(Apply(s, e), t, i);
    OneStep(s, e, [], t, i);
  }

  lemma RestAnswers(s: State, t: DirId, i: Idx, n: DS.DescId, reuse: bool) returns (es: seq<Event>)
    requires Good(s) && OpenAt(s, t, i) && FreshDesc(s, n)
    ensures |es| <= 2 && Answers(s, es, t, i)
  {
    TypedGood(s);
    if ActiveAt(s, t, i) {
      var e := ActiveAnswers(s, t, i, n);
      es := [e] + [];
    } else {
      var d := s.dirs[t][i];
      var f := if s.descs[d].local.None? then Fetch(d, reuse) else Refault(d, reuse);
      if s.descs[d].local.None? {
        FetchActivates(s, t, i, reuse);
      } else {
        RefaultActivates(s, t, i, reuse);
      }
      hide Good, Enabled, Apply, Writable, Typed, CowFault, ActiveAt, Answers;
      var e := ActiveAnswers(Apply(s, f), t, i, n);
      OneStep(s, f, [e] + [], t, i);
      es := [f] + ([e] + []);
    }
  }

  /** A directory that wants to write a block gets there in at most three events: a fault that copies or shares, a fetch
      or a refault, and a mapping.  `n`, `m` and `c`: identifiers not in use. */
  lemma WriteGoesThrough(s: State, t: DirId, i: Idx, n: DS.DescId, m: DS.DescId, c: DS.CrpId, reuse: bool) returns (es: seq<Event>)
    requires Good(s) && OpenAt(s, t, i) && FreshDesc(s, n) && FreshDesc(s, m) && n != m && c !in s.pool.crps
    requires CowFault(s, t, i) && s.descs[s.dirs[t][i]].local.None? ==> s.descs[s.dirs[t][i]].touched
    ensures |es| <= 3 && Answers(s, es, t, i)
  {
    TypedGood(s);
    if CowFault(s, t, i) && s.descs[s.dirs[t][i]].local.None? {
      var e := CowRemote(t, i, n, c);
      assert Sound(s, e);
      ShareAnswers(s, t, i, n, c);
      var r := Apply(s, e);
      assert FreshDesc(r, m);
      hide Good, Enabled, Apply, Writable, Typed, CowFault, Answers;
      var rest := RestAnswers(r, t, i, m, reuse);
      OneStep(s, e, rest, t, i);
      es := [e] + rest;
    } else {
      es := RestAnswers(s, t, i, n, reuse);
    }
  }

  // ---------------------------------------------------------------------------------------------
  // The answer to a read

  /** Directory `t` has block `i` mapped. */
  ghost predicate MappedAt(s: State, t: DirId, i: Idx) {
    OpenAt(s, t, i) && t in s.descs[s.dirs[t][i]].ptes
  }

  ghost predicate AnswersRead(s: State, es: seq<Event>, t: DirId, i: Idx) {
    Schedulable(s, es) && Good(After(s, es)) && MappedAt(After(s, es), t, i)
  }

  lemma MapReadMaps(s: State, t: DirId, i: Idx)
    requires Good(s) && ActiveAt(s, t, i)
    ensures Enabled(s, MapRead(t, i)) && Good(Apply(s, MapRead(t, i))) && MappedAt(Apply(s, MapRead(t, i)), t, i)
  {
    MapReadGood(s, t, i);
    hide Good, DS.SlotOf, DS.Inv;
  }

  lemma ThenRead(s: State, e: Event, es: seq<Event>, t: DirId, i: Idx)
    requires Good(s) && Enabled(s, e) && Good(Apply(s, e)) && AnswersRead(Apply(s, e), es, t, i)
    ensures AnswersRead(s, [e] + es, t, i)
  {
    hide Good, Enabled, Apply, MappedAt, Typed;
    TypedGood(s);
    assert ([e] + es)[1..] == es;
  }

  lemma MapReadAnswers(s: State, t: DirId, i: Idx)
    requires Good(s) && ActiveAt(s, t, i)
    ensures AnswersRead(s, [MapRead(t, i)] + [], t, i)
  {
    TypedGood(s);
    MapReadMaps(s, t, i);
    hide Good, Enabled, Apply, MappedAt, Typed, ActiveAt;
    ThenRead(s, MapRead(t, i), [], t, i);
  }

  /** And one that wants to read it in at most two, sharing or not, and without a copy. */
  lemma ReadGoesThrough(s: State, t: DirId, i: Idx, reuse: bool) returns (es: seq<Event>)
    requires Good(s) && OpenAt(s, t, i)
    ensures |es| <= 2 && AnswersRead(s, es, t, i)
    ensures forall k :: 0 <= k < |es| ==> es[k].Fetch? || es[k].Refault? || es[k].MapRead?
  {
    hide Good, Enabled, Apply, Typed, MappedAt, CowFault, AnswersRead;
    TypedGood(s);
    if ActiveAt(s, t, i) {
      MapReadAnswers(s, t, i);
      es := [MapRead(t, i)] + [];
    } else {
      var d := s.dirs[t][i];
      var e := if s.descs[d].local.None? then Fetch(d, reuse) else Refault(d, reuse);
      if s.descs[d].local.None? {
        FetchActivates(s, t, i, reuse);
      } else {
        RefaultActivates(s, t, i, reuse);
      }
      MapReadAnswers(Apply(s, e), t, i);
      ThenRead(s, e, [MapRead(t, i)] + [], t, i);
      es := [e] + ([MapRead(t, i)] + []);
    }
  }
}
