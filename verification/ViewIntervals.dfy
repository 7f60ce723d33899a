/**
  The views of a descriptor namespace as a value: a sorted list of intervals with multiplicities.

  Each vmr viewing the namespace contributes one unit of its interval, in base pages.
 */
module ViewIntervals {

  datatype Interval = Interval(start: nat, end: nat)

  datatype View = View(iv: Interval, count: nat)

  /** Ascending start, then ascending end. */
  predicate Before(a: Interval, b: Interval) {
    a.start < b.start || (a.start == b.start && a.end < b.end)
  }

  ghost predicate Sorted(vs: seq<View>) {
    forall i, j :: 0 <= i < j < |vs| ==> Before(vs[i].iv, vs[j].iv)
  }

  ghost predicate Proper(vs: seq<View>) {
    forall i :: 0 <= i < |vs| ==> vs[i].count > 0 && vs[i].iv.start < vs[i].iv.end
  }

  ghost predicate WellFormed(vs: seq<View>) {
    Sorted(vs) && Proper(vs)
  }

  /** Multiplicity of an interval: what the list means as a multiset. */
  function Multiplicity(vs: seq<View>, iv: Interval): nat {
    if vs == [] then 0 else (if vs[0].iv == iv then vs[0].count else 0) + Multiplicity(vs[1..], iv)
  }

  /** Number of views that see page `p`. */
  function Covering(vs: seq<View>, p: nat): nat {
    if vs == [] then 0 else (if vs[0].iv.start <= p < vs[0].iv.end then vs[0].count else 0) + Covering(vs[1..], p)
  }

  /** Units in the list: one for each vmr. */
  function Units(vs: seq<View>): nat {
    if vs == [] then 0 else vs[0].count + Units(vs[1..])
  }

  /** Where the walk of an insertion stops. */
  function Position(vs: seq<View>, iv: Interval): (i: nat)
    ensures i <= |vs|
    ensures forall j :: 0 <= j < i ==> Before(vs[j].iv, iv)
    ensures i < |vs| ==> !Before(vs[i].iv, iv)
  {
    if vs == [] || !Before(vs[0].iv, iv) then 0 else
    assert forall j :: 1 <= j < |vs| ==> vs[j] == vs[1..][j - 1];
    1 + Position(vs[1..], iv)
  }

  lemma PositionIs(vs: seq<View>, iv: Interval, i: nat)
    requires i <= |vs| && forall j :: 0 <= j < i ==> Before(vs[j].iv, iv)
    requires i < |vs| ==> !Before(vs[i].iv, iv)
    ensures Position(vs, iv) == i
  {
  }

  predicate Present(vs: seq<View>, iv: Interval) {
    var i := Position(vs, iv); i < |vs| && vs[i].iv == iv
  }

  function Added(vs: seq<View>, iv: Interval): seq<View> {
    var i := Position(vs, iv);
    if i < |vs| && vs[i].iv == iv then vs[i := View(iv, vs[i].count + 1)]
    else vs[..i] + [View(iv, 1)] + vs[i..]
  }

  function Deleted(vs: seq<View>, iv: Interval): seq<View> {
    var i := Position(vs, iv);
    if i == |vs| || vs[i].iv != iv then vs
    else if vs[i].count > 1 then vs[i := View(iv, vs[i].count - 1)]
    else vs[..i] + vs[i + 1..]
  }

  function Split(vs: seq<View>, iv: Interval, mid: nat): seq<View> {
    Added(Added(Deleted(vs, iv), Interval(iv.start, mid)), Interval(mid, iv.end))
  }

  // ---------------------------------------------------------------------------------------------
  // The list refines a multiset of intervals

  lemma {:induction false} MultiplicityConcat(a: seq<View>, b: seq<View>, iv: Interval)
    ensures Multiplicity(a + b, iv) == Multiplicity(a, iv) + Multiplicity(b, iv)
  {
    if a == [] {
      assert a + b == b;
    } else {
      assert (a + b)[1..] == a[1..] + b;
      MultiplicityConcat(a[1..], b, iv);
    }
  }

  lemma MultiplicityAround(vs: seq<View>, i: nat, iv: Interval)
    requires i < |vs|
    ensures Multiplicity(vs, iv)
      == Multiplicity(vs[..i], iv) + (if vs[i].iv == iv then vs[i].count else 0) + Multiplicity(vs[i + 1..], iv)
  {
    assert vs == vs[..i] + ([vs[i]] + vs[i + 1..]);
    MultiplicityConcat(vs[..i], [vs[i]] + vs[i + 1..], iv);
    assert ([vs[i]] + vs[i + 1..])[1..] == vs[i + 1..];
  }

  lemma {:induction false} Absent(vs: seq<View>, iv: Interval)
    requires forall i :: 0 <= i < |vs| ==> vs[i].iv != iv
    ensures Multiplicity(vs, iv) == 0
  {
    if vs != [] {
      Absent(vs[1..], iv);
    }
  }

  lemma OnlyEntry(vs: seq<View>, i: nat)
    requires Sorted(vs) && i < |vs|
    ensures Multiplicity(vs, vs[i].iv) == vs[i].count
  {
    var iv := vs[i].iv;
    MultiplicityAround(vs, i, iv);
    Absent(vs[..i], iv);
    Absent(vs[i + 1..], iv);
  }

  lemma NoEntry(vs: seq<View>, iv: Interval)
    requires Sorted(vs) && !Present(vs, iv)
    ensures Multiplicity(vs, iv) == 0
  {
    var i := Position(vs, iv);
    if i < |vs| {
      assert vs[i].iv != iv && forall k :: i < k < |vs| ==> Before(vs[i].iv, vs[k].iv);
    }
    Absent(vs, iv);
  }

  /** In a sorted list the multiplicity of an interval is the count of its one entry. */
  lemma PresentMultiplicity(vs: seq<View>, iv: Interval)
    requires WellFormed(vs)
    ensures Present(vs, iv) <==> Multiplicity(vs, iv) > 0
    ensures Present(vs, iv) ==> Multiplicity(vs, iv) == vs[Position(vs, iv)].count
  {
    hide Sorted;
    if Present(vs, iv) {
      OnlyEntry(vs, Position(vs, iv));
    } else {
      NoEntry(vs, iv);
    }
  }

  lemma AddedMultiplicity(vs: seq<View>, iv: Interval, jv: Interval)
    ensures Multiplicity(Added(vs, iv), jv) == Multiplicity(vs, jv) + if jv == iv then 1 else 0
  {
    var i := Position(vs, iv);
    var r := Added(vs, iv);
    MultiplicityAround(r, i, jv);
    if i < |vs| && vs[i].iv == iv {
      MultiplicityAround(vs, i, jv);
      assert r[..i] == vs[..i] && r[i + 1..] == vs[i + 1..];
    } else {
      MultiplicityConcat(vs[..i], vs[i..], jv);
      assert vs == vs[..i] + vs[i..];
      assert r[..i] == vs[..i] && r[i + 1..] == vs[i..];
    }
  }

  lemma AddedWellFormed(vs: seq<View>, iv: Interval)
    requires WellFormed(vs) && iv.start < iv.end
    ensures WellFormed(Added(vs, iv))
  {
    var i := Position(vs, iv);
    if !(i < |vs| && vs[i].iv == iv) {
      var r := Added(vs, iv);
      forall a, b | 0 <= a < b < |r|
        ensures Before(r[a].iv, r[b].iv)
      {
        if b == i {
          assert r[a] == vs[a];
        } else if a == i {
          assert r[b] == vs[b - 1] && (b - 1 == i || Before(vs[i].iv, vs[b - 1].iv));
        }
      }
    }
  }

  lemma DeletedMultiplicity(vs: seq<View>, iv: Interval, jv: Interval)
    requires Present(vs, iv) && Proper(vs)
    ensures Multiplicity(vs, jv) == Multiplicity(Deleted(vs, iv), jv) + if jv == iv then 1 else 0
  {
    var i := Position(vs, iv);
    var r := Deleted(vs, iv);
    MultiplicityAround(vs, i, jv);
    if vs[i].count > 1 {
      MultiplicityAround(r, i, jv);
      assert r[..i] == vs[..i] && r[i + 1..] == vs[i + 1..];
    } else {
      MultiplicityConcat(vs[..i], vs[i + 1..], jv);
    }
  }

  lemma DeletedWellFormed(vs: seq<View>, iv: Interval)
    requires WellFormed(vs)
    ensures WellFormed(Deleted(vs, iv))
  {
  }

  /** Deleting what was added gives the list back, not just the multiset. */
  lemma DeleteUndoesAdd(vs: seq<View>, iv: Interval)
    requires WellFormed(vs) && iv.start < iv.end
    ensures Deleted(Added(vs, iv), iv) == vs
  {
    var i := Position(vs, iv);
    var r := Added(vs, iv);
    AddedWellFormed(vs, iv);
    assert r[i].iv == iv;
    assert Position(r, iv) == i by {
      assert forall k :: 0 <= k < i ==> r[k].iv == vs[k].iv;
    }
  }

  // ---------------------------------------------------------------------------------------------
  // Coverage and units

  lemma {:induction false} CoveringConcat(a: seq<View>, b: seq<View>, p: nat)
    ensures Covering(a + b, p) == Covering(a, p) + Covering(b, p)
    ensures Units(a + b) == Units(a) + Units(b)
  {
    if a == [] {
      assert a + b == b;
    } else {
      assert (a + b)[1..] == a[1..] + b;
      CoveringConcat(a[1..], b, p);
    }
  }

  predicate Sees(iv: Interval, p: nat) {
    iv.start <= p < iv.end
  }

  lemma CoveringAround(vs: seq<View>, i: nat, p: nat)
    requires i < |vs|
    ensures Covering(vs, p)
      == Covering(vs[..i], p) + (if Sees(vs[i].iv, p) then vs[i].count else 0) + Covering(vs[i + 1..], p)
    ensures Units(vs) == Units(vs[..i]) + vs[i].count + Units(vs[i + 1..])
  {
    assert vs == vs[..i] + ([vs[i]] + vs[i + 1..]);
    CoveringConcat(vs[..i], [vs[i]] + vs[i + 1..], p);
    assert ([vs[i]] + vs[i + 1..])[1..] == vs[i + 1..];
  }

  lemma AddedCovering(vs: seq<View>, iv: Interval, p: nat)
    ensures Covering(Added(vs, iv), p) == Covering(vs, p) + if Sees(iv, p) then 1 else 0
    ensures Units(Added(vs, iv)) == Units(vs) + 1
  {
    var i := Position(vs, iv);
    var r := Added(vs, iv);
    CoveringAround(r, i, p);
    if i < |vs| && vs[i].iv == iv {
      CoveringAround(vs, i, p);
      assert r[..i] == vs[..i] && r[i + 1..] == vs[i + 1..];
    } else {
      CoveringConcat(vs[..i], vs[i..], p);
      assert vs == vs[..i] + vs[i..];
      assert r[..i] == vs[..i] && r[i + 1..] == vs[i..];
    }
  }

  lemma DeletedCovering(vs: seq<View>, iv: Interval, p: nat)
    requires WellFormed(vs) && Present(vs, iv)
    ensures Covering(vs, p) == Covering(Deleted(vs, iv), p) + if Sees(iv, p) then 1 else 0
    ensures Units(vs) == Units(Deleted(vs, iv)) + 1
  {
    var i := Position(vs, iv);
    var r := Deleted(vs, iv);
    CoveringAround(vs, i, p);
    if vs[i].count > 1 {
      CoveringAround(r, i, p);
      assert r[..i] == vs[..i] && r[i + 1..] == vs[i + 1..];
    } else {
      CoveringConcat(vs[..i], vs[i + 1..], p);
    }
  }

  /** A split keeps the number of views on every page, and adds one unit. */
  lemma SplitPreservesCoverage(vs: seq<View>, iv: Interval, mid: nat, p: nat)
    requires WellFormed(vs) && Present(vs, iv) && iv.start < mid < iv.end
    ensures WellFormed(Split(vs, iv, mid))
    ensures Covering(Split(vs, iv, mid), p) == Covering(vs, p)
    ensures Units(Split(vs, iv, mid)) == Units(vs) + 1
  {
    var d := Deleted(vs, iv);
    var lo, hi := Interval(iv.start, mid), Interval(mid, iv.end);
    DeletedWellFormed(vs, iv);
    AddedWellFormed(d, lo);
    AddedWellFormed(Added(d, lo), hi);
    DeletedCovering(vs, iv, p);
    AddedCovering(d, lo, p);
    AddedCovering(Added(d, lo), hi, p);
  }

  // ---------------------------------------------------------------------------------------------
  // Covered pages

  /** Page `p` is seen by some view. */
  ghost predicate Seen(vs: seq<View>, p: nat) {
    exists i :: 0 <= i < |vs| && Sees(vs[i].iv, p)
  }

  /** Page `p` of the range is seen by none. */
  ghost predicate Bare(vs: seq<View>, start: nat, end: nat, p: nat) {
    start <= p < end && !Seen(vs, p)
  }

  lemma {:induction false} SeenIsCovering(vs: seq<View>, p: nat)
    requires Proper(vs)
    ensures Seen(vs, p) <==> Covering(vs, p) > 0
  {
    if vs != [] {
      SeenIsCovering(vs[1..], p);
      if Seen(vs, p) {
        var i :| 0 <= i < |vs| && Sees(vs[i].iv, p);
        assert i == 0 || Sees(vs[1..][i - 1].iv, p);
      }
      if Seen(vs[1..], p) {
        var i :| 0 <= i < |vs[1..]| && Sees(vs[1..][i].iv, p);
        assert Sees(vs[i + 1].iv, p);
      }
    }
  }

  /** So what a close or an unmap finds uncovered does not depend on where a view was split. */
  lemma SplitKeepsSeen(vs: seq<View>, iv: Interval, mid: nat, p: nat)
    requires WellFormed(vs) && Present(vs, iv) && iv.start < mid < iv.end
    ensures Seen(Split(vs, iv, mid), p) <==> Seen(vs, p)
  {
    SplitPreservesCoverage(vs, iv, mid, p);
    hide Split, Seen, Covering, Sorted;
    SeenIsCovering(vs, p);
    SeenIsCovering(Split(vs, iv, mid), p);
  }

  lemma SeenStep(vs: seq<View>, p: nat)
    requires vs != []
    ensures Seen(vs, p) <==> Sees(vs[0].iv, p) || Seen(vs[1..], p)
  {
    if Seen(vs, p) {
      var i :| 0 <= i < |vs| && Sees(vs[i].iv, p);
      assert i == 0 || Sees(vs[1..][i - 1].iv, p);
    }
    if Seen(vs[1..], p) {
      var i :| 0 <= i < |vs[1..]| && Sees(vs[1..][i].iv, p);
      assert Sees(vs[i + 1].iv, p);
    }
  }

  // ---------------------------------------------------------------------------------------------
  // What no view covers

  /** Either one range, empty when everything is covered, or a remainder some view splits in two. */
  datatype Remainder = Fine(start: nat, end: nat) | Several(start: nat)

  /** Coverage is consumed left to right. */
  function Uncovered(vs: seq<View>, start: nat, end: nat): Remainder {
    if vs == [] then Fine(start, end)
    else
      var v := vs[0].iv;
      if v.end <= start then Uncovered(vs[1..], start, end)
      else if v.start >= end then Fine(start, end)
      else if v.start <= start && v.end >= end then Fine(0, 0)
      else if start < v.start && v.end < end then Several(start)
      else if v.start <= start then Uncovered(vs[1..], v.end, end)
      else Fine(start, v.start)
  }

  /** The range is exactly what no view covers. */
  ghost predicate IsUncovered(vs: seq<View>, start: nat, end: nat, lo: nat, hi: nat) {
    forall p: nat :: lo <= p < hi <==> Bare(vs, start, end, p)
  }

  /** One uncovered page, everything before it covered, and a view strictly inside what follows. */
  ghost predicate IsSeveral(vs: seq<View>, start: nat, end: nat, r: nat) {
    && start <= r && !Seen(vs, r) && (forall p :: start <= p < r ==> Seen(vs, p))
    && exists i :: 0 <= i < |vs| && r < vs[i].iv.start && vs[i].iv.end < end
  }

  lemma LaterViews(vs: seq<View>, p: nat)
    requires WellFormed(vs) && vs != [] && p < vs[0].iv.start
    ensures !Seen(vs, p)
  {
    forall i | 0 <= i < |vs|
      ensures !Sees(vs[i].iv, p)
    {
      assert i == 0 || Before(vs[0].iv, vs[i].iv);
    }
  }

  /** The answer is exact: when one range is returned it is the uncovered pages of the input, all of them and
      nothing else; otherwise the input really has an uncovered page before a view that ends inside it. */
  lemma {:induction false} UncoveredIsExact(vs: seq<View>, start: nat, end: nat)
    requires WellFormed(vs) && start < end
    ensures var u := Uncovered(vs, start, end);
            if u.Fine? then IsUncovered(vs, start, end, u.start, u.end) else IsSeveral(vs, start, end, u.start)
    decreases |vs|
  {
    if vs != [] {
      var v := vs[0].iv;
      forall p: nat
        ensures Seen(vs, p) <==> Sees(v, p) || Seen(vs[1..], p)
        ensures p < v.start ==> !Seen(vs, p)
      {
        SeenStep(vs, p);
        if p < v.start {
          LaterViews(vs, p);
        }
      }
      if v.end <= start {
        UncoveredIsExact(vs[1..], start, end);
        var u := Uncovered(vs[1..], start, end);
        if u.Fine? {
          TailUncovered(vs, start, start, end, u.start, u.end);
        }
      } else if v.start >= end {
        assert IsUncovered(vs, start, end, start, end);
      } else if v.start <= start && v.end >= end {
        assert IsUncovered(vs, start, end, 0, 0);
      } else if v.start <= start {
        UncoveredIsExact(vs[1..], v.end, end);
        var u := Uncovered(vs[1..], v.end, end);
        if u.Fine? {
          TailUncovered(vs, start, v.end, end, u.start, u.end);
        }
      } else if v.end >= end {
        assert IsUncovered(vs, start, end, start, v.start);
      }
      RestSeveral(vs, start, end);
    } else {
      assert forall p: nat :: !Seen(vs, p);
    }
  }

  /** What the rest leaves uncovered, when the first view accounts for the pages up to `a`. */
  lemma TailUncovered(vs: seq<View>, start: nat, a: nat, end: nat, lo: nat, hi: nat)
    requires vs != [] && start <= a && IsUncovered(vs[1..], a, end, lo, hi)
    requires forall p: nat :: start <= p < a ==> Sees(vs[0].iv, p)
    requires vs[0].iv.end <= a
    ensures IsUncovered(vs, start, end, lo, hi)
  {
    forall p: nat
      ensures lo <= p < hi <==> Bare(vs, start, end, p)
    {
      SeenStep(vs, p);
      assert Bare(vs[1..], a, end, p) <==> lo <= p < hi;
    }
  }

  lemma RestSeveral(vs: seq<View>, start: nat, end: nat)
    requires WellFormed(vs) && vs != []
    requires forall p :: Seen(vs, p) <==> Sees(vs[0].iv, p) || Seen(vs[1..], p)
    ensures vs[0].iv.end <= start ==> forall r :: IsSeveral(vs[1..], start, end, r) ==> IsSeveral(vs, start, end, r)
    ensures vs[0].iv.start <= start ==>
      forall r :: IsSeveral(vs[1..], vs[0].iv.end, end, r) && vs[0].iv.end > start ==> IsSeveral(vs, start, end, r)
  {
    forall r: nat, a: nat | IsSeveral(vs[1..], a, end, r)
      ensures exists i :: 0 <= i < |vs| && r < vs[i].iv.start && vs[i].iv.end < end
    {
      var i :| 0 <= i < |vs[1..]| && r < vs[1..][i].iv.start && vs[1..][i].iv.end < end;
      assert vs[i + 1] == vs[1..][i];
    }
  }

  /** Fully covered is reported by an empty range. */
  lemma FullyCoveredIsEmpty(vs: seq<View>, start: nat, end: nat)
    requires WellFormed(vs) && start < end && Uncovered(vs, start, end).Fine?
    ensures var u := Uncovered(vs, start, end);
            u.start >= u.end <==> forall p: nat :: start <= p < end ==> Seen(vs, p)
  {
    UncoveredIsExact(vs, start, end);
    var u := Uncovered(vs, start, end);
    if u.start < u.end {
      assert Bare(vs, start, end, u.start);
    } else {
      forall p: nat | start <= p < end
        ensures Seen(vs, p)
      {
        assert !Bare(vs, start, end, p);
      }
    }
  }

  /** Does any view meet the range? */
  ghost predicate Met(vs: seq<View>, start: nat, end: nat) {
    exists i :: 0 <= i < |vs| && vs[i].iv.start < end && start < vs[i].iv.end
  }

  /** For a non-empty range, being met is having a seen page. */
  lemma MetIsSeen(vs: seq<View>, start: nat, end: nat)
    requires Proper(vs) && start < end
    ensures Met(vs, start, end) <==> exists p :: start <= p < end && Seen(vs, p)
  {
    if Met(vs, start, end) {
      var i :| 0 <= i < |vs| && vs[i].iv.start < end && start < vs[i].iv.end;
      var p := if vs[i].iv.start < start then start else vs[i].iv.start;
      assert Sees(vs[i].iv, p);
      assert Seen(vs, p);
    }
    if p :| start <= p < end && Seen(vs, p) {
      var i :| 0 <= i < |vs| && Sees(vs[i].iv, p);
      assert vs[i].iv.start < end;
    }
  }
}
