/**
  Vmrs of one vmdesc closing concurrently: a flag arbitrates who walks the directory, the others sleep on
  a wait queue, and whoever drops the last reference tears the directory down without ever clearing the
  flag.  Every compare-and-swap, every counter update and every wake-up is a step of its own.
 */
module Closers {
  import opened ViewIntervals

  /** `Open`: the vmr is alive.  `Refused`: its first swap failed.  `Queued`: on the wait queue, about to try
      again.  `Sleeping`: tried and failed, to run again only when woken.  `Claimed`: holds the flag.
      `Viewless`: its view is gone.  `Walking`: its reference is gone too, others remain.  `Last`: it dropped
      the last one.  `Cleared`: the flag is clear, the wake-up is still to come. */
  datatype Phase =
    | Open | Refused | Queued | Sleeping | Claimed | Viewless | Walking | Last | Cleared | Closed | TornDown

  datatype Closer = Closer(window: Interval, phase: Phase)

  datatype State = State(closing: bool, refcount: int, views: seq<View>, closers: seq<Closer>)

  /** One step of an existing closer, or a fork that adds one while its parent is alive. */
  datatype Action = Advance(t: nat) | Share(parent: nat, window: Interval)

  predicate Holds(p: Phase) {
    p.Open? || p.Refused? || p.Queued? || p.Sleeping? || p.Claimed? || p.Viewless?
  }

  predicate HasView(p: Phase) {
    Holds(p) && !p.Viewless?
  }

  /** Between claiming the flag and clearing it; the last closer stays there for good. */
  predicate Inside(p: Phase) {
    p.Claimed? || p.Viewless? || p.Walking? || p.Last? || p.TornDown?
  }

  predicate Final(p: Phase) {
    p.Last? || p.TornDown?
  }

  predicate Enabled(s: State, a: Action) {
    match a
    case Advance(t) =>
      t < |s.closers| && var p := s.closers[t].phase; !p.Sleeping? && !p.Closed? && !p.TornDown?
    case Share(parent, w) =>
      parent < |s.closers| && s.closers[parent].phase.Open? && w.start < w.end
  }

  function Claim(closing: bool, otherwise: Phase): Phase {
    if closing then otherwise else Claimed
  }

  function NextPhase(s: State, t: nat): Phase
    requires Enabled(s, Advance(t))
  {
    match s.closers[t].phase
    case Open => Claim(s.closing, Refused)
    case Refused => Claim(s.closing, Queued)
    case Queued => Claim(s.closing, Sleeping)
    case Claimed => Viewless
    case Viewless => if s.refcount - 1 > 0 then Walking else Last
    case Walking => Cleared
    case Last => TornDown
    case _ => Closed
  }

  function Woken(c: Closer): Closer {
    if c.phase.Sleeping? then Closer(c.window, Queued) else c
  }

  function WakeUp(cs: seq<Closer>): (r: seq<Closer>)
    ensures |r| == |cs| && forall i :: 0 <= i < |cs| ==> r[i] == Woken(cs[i])
  {
    seq(|cs|, i requires 0 <= i < |cs| => Woken(cs[i]))
  }

  function Apply(s: State, a: Action): State
    requires Enabled(s, a)
  {
    match a
    case Advance(t) =>
      var c := s.closers[t];
      var cs := s.closers[t := Closer(c.window, NextPhase(s, t))];
      (match c.phase
       case Claimed => State(s.closing, s.refcount, Deleted(s.views, c.window), cs)
       case Viewless => State(s.closing, s.refcount - 1, s.views, cs)
       case Walking => State(false, s.refcount, s.views, cs)
       case Cleared => State(s.closing, s.refcount, s.views, WakeUp(cs))
       case Last => State(s.closing, s.refcount, s.views, cs)
       case _ => State(true, s.refcount, s.views, cs))
    case Share(parent, w) =>
      State(s.closing, s.refcount + 1, Added(s.views, w), s.closers + [Closer(w, Open)])
  }

  // ---------------------------------------------------------------------------------------------
  // The invariant

  function RefUnits(cs: seq<Closer>): nat {
    if cs == [] then 0 else RefUnits(cs[..|cs| - 1]) + if Holds(cs[|cs| - 1].phase) then 1 else 0
  }

  function ViewUnits(cs: seq<Closer>, iv: Interval): nat {
    if cs == [] then 0
    else ViewUnits(cs[..|cs| - 1], iv) + if HasView(cs[|cs| - 1].phase) && cs[|cs| - 1].window == iv then 1 else 0
  }

  ghost predicate Counted(s: State) {
    && s.refcount == RefUnits(s.closers)
    && WellFormed(s.views)
    && (forall iv: Interval :: Multiplicity(s.views, iv) == ViewUnits(s.closers, iv))
    && (forall i :: 0 <= i < |s.closers| ==> s.closers[i].window.start < s.closers[i].window.end)
  }

  ghost predicate Exclusive(s: State) {
    && (forall i, j :: 0 <= i < j < |s.closers| ==> !Inside(s.closers[i].phase) || !Inside(s.closers[j].phase))
    && (s.closing <==> exists i :: 0 <= i < |s.closers| && Inside(s.closers[i].phase))
  }

  ghost predicate Sound(s: State) {
    && (forall i :: 0 <= i < |s.closers| && Final(s.closers[i].phase) ==> s.refcount == 0)
    && (forall i :: 0 <= i < |s.closers| && s.closers[i].phase.Walking? ==> s.refcount > 0)
    && (s.refcount == 0 ==> exists i :: 0 <= i < |s.closers| && Final(s.closers[i].phase))
    && (forall i :: 0 <= i < |s.closers| && s.closers[i].phase.Sleeping? ==>
          s.closing || exists j :: 0 <= j < |s.closers| && s.closers[j].phase.Cleared?)
  }

  ghost predicate Inv(s: State) {
    Counted(s) && Exclusive(s) && Sound(s)
  }

  ghost predicate Initial(s: State) {
    && !s.closing && |s.closers| == 1 && s.refcount == 1
    && s.closers[0].phase.Open? && s.closers[0].window.start < s.closers[0].window.end
    && s.views == [View(s.closers[0].window, 1)]
  }

  lemma {:induction false} RefUpdate(cs: seq<Closer>, t: nat, c: Closer)
    requires t < |cs|
    ensures RefUnits(cs[t := c]) == RefUnits(cs)
      - (if Holds(cs[t].phase) then 1 else 0) + (if Holds(c.phase) then 1 else 0)
    ensures Holds(cs[t].phase) ==> RefUnits(cs) > 0
    decreases |cs|
  {
    var last := |cs| - 1;
    if t == last {
      assert cs[t := c][..last] == cs[..last];
    } else {
      assert cs[t := c][..last] == cs[..last][t := c];
      RefUpdate(cs[..last], t, c);
    }
  }

  lemma {:induction false} ViewUpdate(cs: seq<Closer>, t: nat, c: Closer, iv: Interval)
    requires t < |cs| && c.window == cs[t].window
    ensures ViewUnits(cs[t := c], iv) == ViewUnits(cs, iv)
      - (if HasView(cs[t].phase) && c.window == iv then 1 else 0) + (if HasView(c.phase) && c.window == iv then 1 else 0)
    ensures HasView(cs[t].phase) ==> ViewUnits(cs, c.window) > 0
    decreases |cs|
  {
    var last := |cs| - 1;
    if t == last {
      assert cs[t := c][..last] == cs[..last];
    } else {
      assert cs[t := c][..last] == cs[..last][t := c];
      ViewUpdate(cs[..last], t, c, iv);
      ViewUpdate(cs[..last], t, c, c.window);
    }
  }

  lemma {:induction false} WakeUnits(cs: seq<Closer>, iv: Interval)
    ensures RefUnits(WakeUp(cs)) == RefUnits(cs) && ViewUnits(WakeUp(cs), iv) == ViewUnits(cs, iv)
    decreases |cs|
  {
    if cs != [] {
      assert WakeUp(cs)[..|cs| - 1] == WakeUp(cs[..|cs| - 1]);
      WakeUnits(cs[..|cs| - 1], iv);
    }
  }

  lemma ShareUnits(cs: seq<Closer>, w: Interval, iv: Interval)
    ensures RefUnits(cs + [Closer(w, Open)]) == RefUnits(cs) + 1
    ensures ViewUnits(cs + [Closer(w, Open)], iv) == ViewUnits(cs, iv) + if iv == w then 1 else 0
  {
    assert (cs + [Closer(w, Open)])[..|cs|] == cs;
  }

  lemma CountedAdvance(s: State, t: nat)
    requires Counted(s) && Enabled(s, Advance(t))
    ensures Counted(Apply(s, Advance(t)))
  {
    var s' := Apply(s, Advance(t));
    var c := s.closers[t];
    var c' := Closer(c.window, NextPhase(s, t));
    RefUpdate(s.closers, t, c');
    forall iv: Interval
      ensures Multiplicity(s'.views, iv) == ViewUnits(s'.closers, iv)
      ensures RefUnits(s'.closers) == RefUnits(s.closers[t := c'])
    {
      ViewUpdate(s.closers, t, c', iv);
      WakeUnits(s.closers[t := c'], iv);
      if c.phase.Claimed? {
        PresentMultiplicity(s.views, c.window);
        DeletedMultiplicity(s.views, c.window, iv);
      }
    }
    WakeUnits(s.closers[t := c'], c.window);
    if c.phase.Claimed? {
      DeletedWellFormed(s.views, c.window);
    }
  }

  lemma CountedShare(s: State, parent: nat, w: Interval)
    requires Counted(s) && Enabled(s, Share(parent, w))
    ensures Counted(Apply(s, Share(parent, w)))
  {
    AddedWellFormed(s.views, w);
    ShareUnits(s.closers, w, w);
    forall iv: Interval
      ensures Multiplicity(Added(s.views, w), iv) == ViewUnits(s.closers + [Closer(w, Open)], iv)
    {
      AddedMultiplicity(s.views, w, iv);
      ShareUnits(s.closers, w, iv);
    }
  }

  lemma ExclusiveKept(s: State, a: Action)
    requires Exclusive(s) && Enabled(s, a)
    ensures Exclusive(Apply(s, a))
  {
    var s' := Apply(s, a);
    forall i | 0 <= i < |s.closers| && !(a.Advance? && i == a.t)
      ensures Inside(s'.closers[i].phase) <==> Inside(s.closers[i].phase)
    {
    }
    if a.Advance? && Inside(s'.closers[a.t].phase) {
      assert s'.closing;
    }
  }

  /** While somebody else is inside, a closer holding a reference keeps the count up. */
  lemma HolderCounts(s: State, i: nat)
    requires Counted(s) && i < |s.closers| && Holds(s.closers[i].phase)
    ensures s.refcount > 0
  {
    RefUpdate(s.closers, i, s.closers[i]);
  }

  lemma SoundKept(s: State, a: Action)
    requires Inv(s) && Enabled(s, a)
    ensures Sound(Apply(s, a))
  {
    var s' := Apply(s, a);
    if a.Share? {
      HolderCounts(s, a.parent);
      assert forall i :: 0 <= i < |s.closers| ==> s'.closers[i] == s.closers[i];
    } else {
      var t, p := a.t, s.closers[a.t].phase;
      if Holds(p) {
        HolderCounts(s, t);
      }
      forall i | 0 <= i < |s'.closers| && i != t
        ensures s'.closers[i].phase == s.closers[i].phase || (p.Cleared? && s.closers[i].phase.Sleeping?)
      {
      }
      SoundFinal(s, t);
      SoundSleepers(s, t);
    }
  }

  lemma SoundFinal(s: State, t: nat)
    requires Inv(s) && Enabled(s, Advance(t))
    ensures var s' := Apply(s, Advance(t));
            && (forall i :: 0 <= i < |s'.closers| && Final(s'.closers[i].phase) ==> s'.refcount == 0)
            && (forall i :: 0 <= i < |s'.closers| && s'.closers[i].phase.Walking? ==> s'.refcount > 0)
            && (s'.refcount == 0 ==> exists i :: 0 <= i < |s'.closers| && Final(s'.closers[i].phase))
  {
    var s' := Apply(s, Advance(t));
    var p := s.closers[t].phase;
    if Holds(p) {
      HolderCounts(s, t);
    }
    forall i | 0 <= i < |s'.closers| && i != t
      ensures Final(s'.closers[i].phase) <==> Final(s.closers[i].phase)
      ensures s'.closers[i].phase.Walking? <==> s.closers[i].phase.Walking?
      ensures p.Viewless? ==> !Inside(s.closers[i].phase)
    {
    }
    if s'.refcount == 0 {
      if p.Viewless? {
        assert Final(s'.closers[t].phase);
      } else {
        var i :| 0 <= i < |s.closers| && Final(s.closers[i].phase);
        assert Final(s'.closers[i].phase);
      }
    }
  }

  lemma SoundSleepers(s: State, t: nat)
    requires Inv(s) && Enabled(s, Advance(t))
    ensures var s' := Apply(s, Advance(t));
            forall i :: 0 <= i < |s'.closers| && s'.closers[i].phase.Sleeping? ==>
              s'.closing || exists j :: 0 <= j < |s'.closers| && s'.closers[j].phase.Cleared?
  {
    var s' := Apply(s, Advance(t));
    var p := s.closers[t].phase;
    forall i | 0 <= i < |s'.closers| && s'.closers[i].phase.Sleeping?
      ensures s'.closing || exists j :: 0 <= j < |s'.closers| && s'.closers[j].phase.Cleared?
    {
      if p.Walking? {
        assert s'.closers[t].phase.Cleared?;
      } else if !p.Cleared? {
        assert s'.closing;
      }
    }
  }

  lemma StepKeepsInv(s: State, a: Action)
    requires Inv(s) && Enabled(s, a)
    ensures Inv(Apply(s, a))
  {
    match a {
      case Advance(t) => CountedAdvance(s, t);
      case Share(parent, w) => CountedShare(s, parent, w);
    }
    ExclusiveKept(s, a);
    SoundKept(s, a);
  }

  // ---------------------------------------------------------------------------------------------
  // Runs

  predicate Schedulable(s: State, run: seq<Action>)
    decreases |run|
  {
    run == [] || (Enabled(s, run[0]) && Schedulable(Apply(s, run[0]), run[1..]))
  }

  function After(s: State, run: seq<Action>): State
    requires Schedulable(s, run)
    decreases |run|
  {
    if run == [] then s else After(Apply(s, run[0]), run[1..])
  }

  lemma InitialInv(s: State)
    requires Initial(s)
    ensures Inv(s)
  {
    var c := s.closers[0];
    assert s.closers[..0] == [];
    forall iv: Interval
      ensures Multiplicity(s.views, iv) == ViewUnits(s.closers, iv)
    {
      assert s.views[1..] == [];
    }
  }

  lemma {:induction false} RunKeepsInv(s: State, run: seq<Action>)
    requires Inv(s) && Schedulable(s, run)
    ensures Inv(After(s, run))
    decreases |run|
  {
    if run != [] {
      StepKeepsInv(s, run[0]);
      RunKeepsInv(Apply(s, run[0]), run[1..]);
    }
  }

  /** The directory is never walked by two closers. */
  lemma OneWalker(s: State, run: seq<Action>, i: nat, j: nat)
    requires Initial(s) && Schedulable(s, run)
    requires var e := After(s, run);
             i < |e.closers| && j < |e.closers| && Inside(e.closers[i].phase) && Inside(e.closers[j].phase)
    ensures i == j
  {
    InitialInv(s);
    RunKeepsInv(s, run);
  }

  /** Once the count is zero exactly one closer has seen it, and nobody is waiting: every other closer is past
      its walk.  Before that nobody has. */
  lemma LastCloserIsAlone(s: State, run: seq<Action>)
    requires Initial(s) && Schedulable(s, run)
    ensures var e := After(s, run);
            if e.refcount == 0 then
              exists i :: 0 <= i < |e.closers| && Final(e.closers[i].phase)
                && forall j :: 0 <= j < |e.closers| && j != i ==> e.closers[j].phase.Cleared? || e.closers[j].phase.Closed?
            else forall i :: 0 <= i < |e.closers| ==> !Final(e.closers[i].phase)
  {
    InitialInv(s);
    RunKeepsInv(s, run);
    var e := After(s, run);
    if e.refcount == 0 {
      var i :| 0 <= i < |e.closers| && Final(e.closers[i].phase);
      forall j | 0 <= j < |e.closers| && j != i
        ensures e.closers[j].phase.Cleared? || e.closers[j].phase.Closed?
      {
        assert !Inside(e.closers[j].phase);
        if Holds(e.closers[j].phase) {
          HolderCounts(e, j);
        }
      }
    }
  }

  lemma FirstCounts(vs: seq<View>) returns (iv: Interval)
    requires WellFormed(vs)
    ensures vs != [] ==> Multiplicity(vs, iv) > 0
  {
    if vs == [] {
      iv := Interval(0, 0);
    } else {
      iv := vs[0].iv;
    }
  }

  /** At a stable boundary, with no closer between dropping its view and dropping its reference, the reference
      count is the number of units in the view list. */
  lemma {:induction false} UnitsAreHolders(cs: seq<Closer>, vs: seq<View>)
    requires WellFormed(vs) && forall iv: Interval :: Multiplicity(vs, iv) == ViewUnits(cs, iv)
    requires forall i :: 0 <= i < |cs| ==> !cs[i].phase.Viewless? && cs[i].window.start < cs[i].window.end
    ensures Units(vs) == RefUnits(cs)
    decreases |cs|
  {
    if cs == [] {
      var iv := FirstCounts(vs);
      assert ViewUnits(cs, iv) == 0;
    } else {
      var last := cs[|cs| - 1];
      if HasView(last.phase) {
        PresentMultiplicity(vs, last.window);
        DeletedWellFormed(vs, last.window);
        forall iv: Interval
          ensures Multiplicity(Deleted(vs, last.window), iv) == ViewUnits(cs[..|cs| - 1], iv)
        {
          DeletedMultiplicity(vs, last.window, iv);
        }
        DeletedCovering(vs, last.window, 0);
        UnitsAreHolders(cs[..|cs| - 1], Deleted(vs, last.window));
      } else {
        forall iv: Interval
          ensures Multiplicity(vs, iv) == ViewUnits(cs[..|cs| - 1], iv)
        {
        }
        UnitsAreHolders(cs[..|cs| - 1], vs);
      }
    }
  }

  lemma RefcountIsUnits(s: State, run: seq<Action>)
    requires Initial(s) && Schedulable(s, run)
    requires forall i :: 0 <= i < |After(s, run).closers| ==> !After(s, run).closers[i].phase.Viewless?
    ensures After(s, run).refcount == Units(After(s, run).views)
  {
    InitialInv(s);
    RunKeepsInv(s, run);
    UnitsAreHolders(After(s, run).closers, After(s, run).views);
  }

  // ---------------------------------------------------------------------------------------------
  // Nobody is stranded

  predicate Settled(p: Phase) {
    p.Open? || p.Closed? || p.TornDown?
  }

  /** Whatever state is reached, some closer that has begun and not finished can take a step. */
  lemma SomebodyMoves(s: State, run: seq<Action>) returns (t: nat)
    requires Initial(s) && Schedulable(s, run)
    requires exists i :: 0 <= i < |After(s, run).closers| && !Settled(After(s, run).closers[i].phase)
    ensures var e := After(s, run);
            t < |e.closers| && !Settled(e.closers[t].phase) && Enabled(e, Advance(t))
  {
    InitialInv(s);
    RunKeepsInv(s, run);
    var e := After(s, run);
    var i :| 0 <= i < |e.closers| && !Settled(e.closers[i].phase);
    t := i;
    if e.closers[i].phase.Sleeping? {
      HolderCounts(e, i);
      if e.closing {
        t :| 0 <= t < |e.closers| && Inside(e.closers[t].phase);
      } else {
        t :| 0 <= t < |e.closers| && e.closers[t].phase.Cleared?;
      }
    }
  }

  /** Steps a closer may still cause, its one wake-up of everybody else included. */
  function Rank(p: Phase, n: nat): nat {
    match p
    case Open => n + 8
    case Refused => n + 7
    case Queued => n + 6
    case Sleeping => n + 5
    case Claimed => n + 4
    case Viewless => n + 3
    case Walking => n + 2
    case Cleared => n + 1
    case Last => 1
    case _ => 0
  }

  function Measure(cs: seq<Closer>, n: nat): nat {
    if cs == [] then 0 else Measure(cs[..|cs| - 1], n) + Rank(cs[|cs| - 1].phase, n)
  }

  lemma {:induction false} MeasureUpdate(cs: seq<Closer>, t: nat, c: Closer, n: nat)
    requires t < |cs|
    ensures Measure(cs[t := c], n) == Measure(cs, n) - Rank(cs[t].phase, n) + Rank(c.phase, n)
    decreases |cs|
  {
    var last := |cs| - 1;
    if t == last {
      assert cs[t := c][..last] == cs[..last];
    } else {
      assert cs[t := c][..last] == cs[..last][t := c];
      MeasureUpdate(cs[..last], t, c, n);
    }
  }

  lemma {:induction false} MeasureWake(cs: seq<Closer>, n: nat)
    ensures Measure(WakeUp(cs), n) <= Measure(cs, n) + |cs|
    decreases |cs|
  {
    if cs != [] {
      assert WakeUp(cs)[..|cs| - 1] == WakeUp(cs[..|cs| - 1]);
      MeasureWake(cs[..|cs| - 1], n);
    }
  }

  /** Every step of a closer brings the whole group nearer to the end, a failed swap and a wake-up included. */
  lemma ClosingTerminates(s: State, t: nat)
    requires Enabled(s, Advance(t))
    ensures var n := |s.closers|; Measure(Apply(s, Advance(t)).closers, n) < Measure(s.closers, n)
  {
    var n := |s.closers|;
    var c := Closer(s.closers[t].window, NextPhase(s, t));
    MeasureUpdate(s.closers, t, c, n);
    MeasureWake(s.closers[t := c], n);
  }

  /** Hence a run without new vmrs is bounded. */
  lemma {:induction false} RunsAreBounded(s: State, run: seq<Action>)
    requires Schedulable(s, run) && forall i :: 0 <= i < |run| ==> run[i].Advance?
    ensures |run| <= Measure(s.closers, |s.closers|)
    decreases |run|
  {
    if run != [] {
      ClosingTerminates(s, run[0].t);
      assert |Apply(s, run[0]).closers| == |s.closers|;
      RunsAreBounded(Apply(s, run[0]), run[1..]);
    }
  }

  // ---------------------------------------------------------------------------------------------
  // A private fork copies its parent's vmdesc, flag included

  /** The copy: a reference and a view of its own, and the flag as the parent had it at that moment. */
  function Copied(s: State, w: Interval): State {
    State(s.closing, 1, [View(w, 1)], [Closer(w, Open)])
  }

  ghost predicate NobodyInside(s: State) {
    forall i :: 0 <= i < |s.closers| ==>
      var p := s.closers[i].phase; p.Open? || p.Refused? || p.Queued? || p.Sleeping?
  }

  /** With the flag set and nobody inside, no closer ever gets in. */
  lemma {:induction false} CopiedFlagStrands(s: State, run: seq<Action>)
    requires NobodyInside(s) && s.closing && Schedulable(s, run)
    ensures NobodyInside(After(s, run)) && After(s, run).closing
    decreases |run|
  {
    if run != [] {
      var s' := Apply(s, run[0]);
      forall i | 0 <= i < |s'.closers|
        ensures var p := s'.closers[i].phase; p.Open? || p.Refused? || p.Queued? || p.Sleeping?
      {
        assert i < |s.closers| ==> var p := s.closers[i].phase; p.Open? || p.Refused? || p.Queued? || p.Sleeping?;
      }
      CopiedFlagStrands(s', run[1..]);
    }
  }

  ghost predicate SomebodyInside(s: State) {
    exists i :: 0 <= i < |s.closers| && Inside(s.closers[i].phase)
  }

  /** Some run lets a closer in. */
  ghost predicate CanClose(s: State) {
    exists run: seq<Action> :: Schedulable(s, run) && SomebodyInside(After(s, run))
  }

  /** Whatever the parent's closers did before the copy was made, the copy can be closed exactly when none of them
      was inside then: neither walking the directory nor done with it as the last. */
  lemma CopyClosesIff(s: State, run: seq<Action>, w: Interval)
    requires Initial(s) && Schedulable(s, run) && w.start < w.end
    ensures CanClose(Copied(After(s, run), w)) <==> !SomebodyInside(After(s, run))
  {
    InitialInv(s);
    RunKeepsInv(s, run);
    var c := Copied(After(s, run), w);
    assert c.closing <==> SomebodyInside(After(s, run));
    if c.closing {
      forall r: seq<Action> | Schedulable(c, r)
        ensures !SomebodyInside(After(c, r))
      {
        CopiedFlagStrands(c, r);
      }
    } else {
      var r := [Advance(0)];
      assert Schedulable(Apply(c, r[0]), r[1..]) && After(c, r) == Apply(c, r[0]);
      assert After(c, r).closers[0].phase == Claimed;
    }
  }
}
