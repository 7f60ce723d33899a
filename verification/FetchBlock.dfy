/**
  Fetching a block: all of its pages or none.

  The pages of a block are allocated together.  Each subblock then takes one of them and has a read posted for
  it, or is filled in place when there is nothing to read; if any of them fails, everything is undone.
 */
module FetchBlock {
  import DS = DonorSlots
  import opened WorkRequests

  type Page = nat

  /** What a local page holds, or will once its read has completed. */
  datatype Contents = Zeroed | FromSlot(slot: DS.Slot) | Untouched

  datatype LocalPage = LocalPage(page: Page, contents: Contents, req: DS.Option<WrId>)

  type Locals = seq<DS.Option<LocalPage>>

  datatype RState = Init | Active | Fetching

  // ---------------------------------------------------------------------------------------------
  // What a block's subblocks hold

  /** The pages of the subblocks. */
  function PagesOf(ls: Locals): multiset<Page>
    decreases |ls|
  {
    if ls == [] then multiset{}
    else (if ls[0].Some? then multiset{ls[0].value.page} else multiset{}) + PagesOf(ls[1..])
  }

  /** The pages charged for the subblocks, `sb` for each. */
  function ChargeOf(ls: Locals, sb: nat): nat
    decreases |ls|
  {
    if ls == [] then 0 else (if ls[0].Some? then sb else 0) + ChargeOf(ls[1..], sb)
  }

  /** The requests of the subblocks, in order. */
  function ReqsOf(ls: Locals): seq<WrId>
    decreases |ls|
  {
    if ls == [] then [] else ReqOf(ls[0]) + ReqsOf(ls[1..])
  }

  function ReqOf(l: DS.Option<LocalPage>): seq<WrId> {
    if l.Some? && l.value.req.Some? then [l.value.req.value] else []
  }

  lemma {:induction false} PageAdded(ls: Locals, i: nat, l: LocalPage, sb: nat)
    requires i < |ls| && ls[i].None?
    ensures PagesOf(ls[i := DS.Some(l)]) == PagesOf(ls) + multiset{l.page}
    ensures ChargeOf(ls[i := DS.Some(l)], sb) == ChargeOf(ls, sb) + sb
    decreases |ls|
  {
    var r := ls[i := DS.Some(l)];
    if i > 0 {
      PageAdded(ls[1..], i - 1, l, sb);
      assert r[1..] == ls[1..][i - 1 := DS.Some(l)];
    } else {
      assert r[1..] == ls[1..];
    }
  }

  predicate AllNone(ls: Locals) {
    forall i: nat :: i < |ls| ==> ls[i].None?
  }

  predicate AllSome(ls: Locals) {
    forall i: nat :: i < |ls| ==> ls[i].Some?
  }

  lemma {:induction false} NothingHeld(ls: Locals, sb: nat)
    requires AllNone(ls)
    ensures PagesOf(ls) == multiset{} && ChargeOf(ls, sb) == 0 && ReqsOf(ls) == []
    decreases |ls|
  {
    if ls != [] {
      NothingHeld(ls[1..], sb);
    }
  }

  lemma {:induction false} AllCharged(ls: Locals, sb: nat)
    requires AllSome(ls)
    ensures ChargeOf(ls, sb) == sb * |ls|
    decreases |ls|
  {
    if ls != [] {
      AllCharged(ls[1..], sb);
      hide AllSome;
      OneMore(sb, |ls[1..]|);
    }
  }

  lemma OneMore(sb: nat, n: nat)
    ensures sb * (n + 1) == sb * n + sb
  {
  }

  /** What a page of `d` is to hold: its donor copy, zeroes, or whatever is there. */
  function ContentsFor(p: DS.Pool, d: DS.DescId, noFetch: bool, zero: bool): Contents {
    if !noFetch then
      var slot := DS.SlotOf(p, d);
      if slot.Some? then FromSlot(slot.value) else Untouched
    else if zero then Zeroed else Untouched
  }

  predicate NoRequests(ls: Locals) {
    forall i: nat :: i < |ls| && ls[i].Some? ==> ls[i].value.req.None?
  }

  lemma {:induction false} ReqAdded(ls: Locals, i: nat, l: LocalPage)
    requires i < |ls| && ls[i].None? && Distinct(ReqsOf(ls))
    requires l.req.Some? ==> l.req.value !in ReqsOf(ls)
    ensures var r := ReqsOf(ls[i := DS.Some(l)]);
            Distinct(r) && forall w :: w in r <==> w in ReqsOf(ls) || DS.Some(w) == l.req
    decreases |ls|
  {
    var r := ls[i := DS.Some(l)];
    var tail := ReqsOf(ls[1..]);
    if i > 0 {
      DistinctCut(ReqOf(ls[0]), tail);
      ReqAdded(ls[1..], i - 1, l);
      assert r[1..] == ls[1..][i - 1 := DS.Some(l)];
      DistinctJoin(ReqOf(ls[0]), ReqsOf(r[1..]));
    } else {
      assert r[1..] == ls[1..];
      assert ReqOf(ls[0]) + tail == tail;
      DistinctJoin(ReqOf(r[0]), tail);
    }
  }

  lemma DistinctCut(a: seq<WrId>, b: seq<WrId>)
    requires Distinct(a + b) && |a| <= 1
    ensures Distinct(b) && forall w :: w in a ==> w !in b
  {
    forall i: nat, j: nat | i < j < |b|
      ensures b[i] != b[j]
    {
      assert (a + b)[|a| + i] == b[i] && (a + b)[|a| + j] == b[j];
    }
    forall i: nat, j: nat | i < |a| && j < |b|
      ensures a[i] != b[j]
    {
      assert (a + b)[i] == a[i] && (a + b)[|a| + j] == b[j];
    }
  }

  lemma DistinctJoin(a: seq<WrId>, b: seq<WrId>)
    requires Distinct(b) && |a| <= 1 && forall w :: w in a ==> w !in b
    ensures Distinct(a + b)
  {
    forall i: nat, j: nat | i < j < |a + b|
      ensures (a + b)[i] != (a + b)[j]
    {
      assert (a + b)[j] == b[j - |a|] && b[j - |a|] in b;
      if i < |a| {
        assert (a + b)[i] == a[i] && a[i] in a;
      } else {
        assert (a + b)[i] == b[i - |a|];
      }
    }
  }

  // ---------------------------------------------------------------------------------------------
  // The requests of a block, posted so far over the heap `h0`

  ghost predicate Posted(h0: Heap, h: Heap, k: WrId, ls: Locals) {
    var rest := Elems(ReqsOf(ls));
    && Distinct(ReqsOf(ls)) && h.freed == h0.freed && h.live - rest == h0.live && rest !! h0.live.Keys
    && (rest != {} ==> k in rest && Pending(h, k, rest))
  }

  lemma PostedMore(h0: Heap, h: Heap, k: WrId, ls: Locals, i: nat, l: LocalPage, head: DS.Option<WrId>, d: DS.DescId)
    requires Posted(h0, h, k, ls) && i < |ls| && ls[i].None? && l.req.Some? && l.req.value !in h.live
    requires head == if ReqsOf(ls) == [] then DS.None else DS.Some(k)
    ensures CanPost(h, l.req.value, head)
    ensures Posted(h0, Post(h, l.req.value, head, d), if head.Some? then k else l.req.value, ls[i := DS.Some(l)])
  {
    var id, rest := l.req.value, Elems(ReqsOf(ls));
    var r := ls[i := DS.Some(l)];
    ReqsMore(ls, i, l);
    assert id !in h0.live by {
      assert id in h0.live ==> id in h.live - rest;
    }
    hide ReqsOf, Elems, Distinct, Pending, Post;
    if head.Some? {
      NextPosted(h0, h, k, rest, id, d);
    } else {
      FirstPosted(h0, h, id, d);
    }
  }

  lemma ReqsMore(ls: Locals, i: nat, l: LocalPage)
    requires Distinct(ReqsOf(ls)) && i < |ls| && ls[i].None? && l.req.Some? && l.req.value !in Elems(ReqsOf(ls))
    ensures var r := ReqsOf(ls[i := DS.Some(l)]); Distinct(r) && Elems(r) == Elems(ReqsOf(ls)) + {l.req.value}
    ensures ReqsOf(ls) == [] <==> Elems(ReqsOf(ls)) == {}
  {
    ReqAdded(ls, i, l);
    assert ReqsOf(ls) != [] ==> ReqsOf(ls)[0] in Elems(ReqsOf(ls));
  }

  lemma NextPosted(h0: Heap, h: Heap, k: WrId, rest: set<WrId>, id: WrId, d: DS.DescId)
    requires Pending(h, k, rest) && h.live - rest == h0.live && id !in h.live && k in rest
    ensures var g := Post(h, id, DS.Some(k), d);
            Pending(g, k, rest + {id}) && g.freed == h.freed && g.live - (rest + {id}) == h0.live
  {
    PostStep(h, k, rest, id, d);
    hide Pending;
    assert Post(h, id, DS.Some(k), d).live - (rest + {id}) == h.live - rest;
  }

  lemma FirstPosted(h0: Heap, h: Heap, id: WrId, d: DS.DescId)
    requires h.live == h0.live && id !in h.live
    ensures var g := Post(h, id, DS.None, d);
            Pending(g, id, {id}) && g.freed == h.freed && g.live - {id} == h0.live
  {
  }

  lemma PostedQuiet(h0: Heap, h: Heap, k: WrId, ls: Locals, i: nat, l: LocalPage)
    requires Posted(h0, h, k, ls) && i < |ls| && ls[i].None? && l.req.None?
    ensures Posted(h0, h, k, ls[i := DS.Some(l)])
  {
    ReqAdded(ls, i, l);
    assert Elems(ReqsOf(ls[i := DS.Some(l)])) == Elems(ReqsOf(ls));
    hide Pending;
  }

  lemma PostedCancelled(h0: Heap, h: Heap, k: WrId, ls: Locals)
    requires Posted(h0, h, k, ls)
    ensures Safe(h, ReqsOf(ls)) && After(h, ReqsOf(ls)).live == h0.live
    ensures ReqsOf(ls) != [] ==> After(h, ReqsOf(ls)).freed == h0.freed + Others(ReqsOf(ls), k) + [k]
  {
    var rs := ReqsOf(ls);
    if rs != [] {
      assert rs[0] in Elems(rs);
      FinishedOnce(h, k, rs);
      assert Elems(rs) + {k} == Elems(rs);
    } else {
      assert Elems(rs) == {} && h.live - {} == h.live;
    }
  }

  // ---------------------------------------------------------------------------------------------
  // Donor copies that a fetch without reading leaves dead

  /** The flagged copies of the first `n` subblocks are given back, where they are not shared. */
  function Dropped(p: DS.Pool, ids: seq<DS.DescId>, flags: seq<bool>, n: nat, reuse: bool): DS.Pool
    requires n <= |ids| == |flags|
  {
    if n == 0 then p
    else
      var q := Dropped(p, ids, flags, n - 1, reuse);
      if flags[n - 1] then GiveUp(q, ids[n - 1], reuse) else q
  }

  predicate Flagged(ids: seq<DS.DescId>, flags: seq<bool>, n: nat, e: DS.DescId)
    requires n <= |ids| == |flags|
  {
    exists i: nat :: i < n && ids[i] == e && flags[i]
  }

  /** What happens to the donor copy of `e`: nothing, unless it is to go. */
  ghost predicate DropEffect(p: DS.Pool, q: DS.Pool, e: DS.DescId, goes: bool) {
    && (e in q.remote <==> e in p.remote) && (DS.IsCow(q, e) <==> DS.IsCow(p, e))
    && (!goes || DS.IsCow(p, e) ==> DS.SameFor(p, q, e))
    && (goes && !DS.IsCow(p, e) ==> DS.SlotOf(q, e) == DS.None)
  }

  lemma DropStep(q: DS.Pool, d: DS.DescId, reuse: bool, e: DS.DescId)
    requires DS.Inv(q)
    ensures DS.Inv(GiveUp(q, d, reuse)) && DropEffect(q, GiveUp(q, d, reuse), e, e == d && !reuse)
  {
    if d in q.remote && !reuse {
      DS.FreeSlotInv(q, d);
      hide DS.Inv;
      assert e != d ==> DS.SameFor(q, GiveUp(q, d, reuse), e);
    }
  }

  lemma DropTwice(p: DS.Pool, q: DS.Pool, r: DS.Pool, e: DS.DescId, a: bool, b: bool)
    requires DropEffect(p, q, e, a) && DropEffect(q, r, e, b)
    ensures DropEffect(p, r, e, a || b)
  {
    hide DS.IsCow;
  }

  /** Skipped fetches give back exactly the copies that were flagged and are not shared, and those only when
      copies are not kept for reuse. */
  lemma {:induction false} DroppedExactly(p: DS.Pool, ids: seq<DS.DescId>, flags: seq<bool>, n: nat, reuse: bool, e: DS.DescId)
    requires DS.Inv(p) && n <= |ids| == |flags|
    ensures DS.Inv(Dropped(p, ids, flags, n, reuse))
    ensures DropEffect(p, Dropped(p, ids, flags, n, reuse), e, Flagged(ids, flags, n, e) && !reuse)
  {
    if n > 0 {
      hide DS.CrpsCounted, DS.HoldersUnique, DS.SlotOf;
      FlaggedMore(ids, flags, n, e);
      hide DS.Inv, DropEffect, GiveUp, Flagged;
      DroppedExactly(p, ids, flags, n - 1, reuse, e);
      var q := Dropped(p, ids, flags, n - 1, reuse);
      if flags[n - 1] {
        DropStep(q, ids[n - 1], reuse, e);
        DropTwice(p, q, GiveUp(q, ids[n - 1], reuse), e, Flagged(ids, flags, n - 1, e) && !reuse, e == ids[n - 1] && !reuse);
      }
    } else {
      NothingDropped(p, ids, flags, reuse, e);
    }
  }

  lemma FlaggedMore(ids: seq<DS.DescId>, flags: seq<bool>, n: nat, e: DS.DescId)
    requires 0 < n <= |ids| == |flags|
    ensures Flagged(ids, flags, n, e) <==> Flagged(ids, flags, n - 1, e) || (ids[n - 1] == e && flags[n - 1])
  {
  }

  lemma NothingDropped(p: DS.Pool, ids: seq<DS.DescId>, flags: seq<bool>, reuse: bool, e: DS.DescId)
    requires DS.Inv(p) && |ids| == |flags|
    ensures DropEffect(p, Dropped(p, ids, flags, 0, reuse), e, Flagged(ids, flags, 0, e) && !reuse)
  {
  }

  // ---------------------------------------------------------------------------------------------
  // Pages and charges while a block is being populated

  /** Every page is free, waiting in `pages`, or in a subblock; every populated subblock is charged. */
  ghost predicate Held(f0: multiset<Page>, c0: int, sb: nat, ls: Locals, pages: seq<Page>, f: multiset<Page>, c: int) {
    f + multiset(pages) + PagesOf(ls) == f0 && c == c0 + ChargeOf(ls, sb)
  }

  lemma HeldMore(f0: multiset<Page>, c0: int, sb: nat, ls: Locals, pages: seq<Page>, f: multiset<Page>, c: int, i: nat, l: LocalPage)
    requires Held(f0, c0, sb, ls, pages, f, c) && i < |ls| && ls[i].None? && pages != [] && l.page == pages[0]
    ensures Held(f0, c0, sb, ls[i := DS.Some(l)], pages[1..], f, c + sb)
  {
    PageAdded(ls, i, l, sb);
    assert pages == [pages[0]] + pages[1..];
  }

  lemma HeldLess(f0: multiset<Page>, c0: int, sb: nat, ls: Locals, pages: seq<Page>, f: multiset<Page>, c: int)
    requires Held(f0, c0, sb, ls, pages, f, c) && pages != []
    ensures Held(f0, c0, sb, ls, pages[1..], f + multiset{pages[0]}, c)
  {
    assert pages == [pages[0]] + pages[1..];
  }

  lemma HeldTail(f0: multiset<Page>, c0: int, sb: nat, ls: Locals, i: nat, f: multiset<Page>, c: int)
    requires i < |ls| && Held(f0, c0, sb, ls[i..], [], f, c)
    ensures ls[i].None? ==> Held(f0, c0, sb, ls[i + 1..], [], f, c)
    ensures ls[i].Some? ==> Held(f0, c0, sb, ls[i + 1..], [], f + multiset{ls[i].value.page}, c - sb)
  {
    assert ls[i..][0] == ls[i] && ls[i..][1..] == ls[i + 1..];
  }

  /** The first `n` subblocks taken back. */
  function Emptied(ls: Locals, n: nat): (r: Locals)
    requires n <= |ls|
    ensures |r| == |ls|
  {
    seq(n, _ => DS.None) + ls[n..]
  }

  /** Taking a subblock back clears its flags. */
  function Unflagged(flags: seq<bool>, ls: Locals, n: nat): (r: seq<bool>)
    requires n <= |ls| == |flags|
    ensures |r| == |flags|
  {
    seq(|flags|, i requires 0 <= i < |flags| => flags[i] && !(i < n && ls[i].Some?))
  }

  lemma EmptiedStep(ls: Locals, flags: seq<bool>, i: nat)
    requires i < |ls| == |flags|
    ensures Emptied(ls, i)[i] == ls[i]
    ensures Emptied(ls, i)[i := DS.None] == Emptied(ls, i + 1)
    ensures ls[i].None? ==> Emptied(ls, i + 1) == Emptied(ls, i) && Unflagged(flags, ls, i + 1) == Unflagged(flags, ls, i)
    ensures ls[i].Some? ==> Unflagged(flags, ls, i + 1) == Unflagged(flags, ls, i)[i := false]
  {
    var e := Emptied(ls, i);
    assert e == seq(i, _ => DS.None) + ls[i..] && e[i] == ls[i..][0];
    var r := Emptied(ls, i + 1);
    forall j: nat | j < |ls|
      ensures e[i := DS.None][j] == r[j]
    {
    }
    assert e[i := DS.None] == r;
    assert ls[i].None? ==> e[i := DS.None] == e;
  }

  /** The first `n` flags cleared. */
  function ClearedTo(flags: seq<bool>, n: nat): (r: seq<bool>)
    ensures |r| == |flags|
  {
    seq(|flags|, i requires 0 <= i < |flags| => flags[i] && i >= n)
  }

  lemma ClearedStep(flags: seq<bool>, i: nat)
    requires i < |flags|
    ensures ClearedTo(flags, i)[i] == flags[i] && ClearedTo(flags, i)[i := false] == ClearedTo(flags, i + 1)
    ensures !flags[i] ==> ClearedTo(flags, i) == ClearedTo(flags, i + 1)
  {
  }

  lemma ClearedEnds(flags: seq<bool>)
    ensures ClearedTo(flags, 0) == flags && ClearedTo(flags, |flags|) == seq(|flags|, _ => false)
  {
  }

  lemma EmptiedEnds(ls: Locals, flags: seq<bool>)
    requires |ls| == |flags|
    ensures Emptied(ls, 0) == ls && Unflagged(flags, ls, 0) == flags && AllNone(Emptied(ls, |ls|))
  {
  }

  /** Cancelling the reads from subblock `i` on ends in `end`. */
  ghost predicate Undoing(h: Heap, ls: Locals, i: nat, end: Heap) {
    i <= |ls| && Safe(h, ReqsOf(ls[i..])) && After(h, ReqsOf(ls[i..])) == end
  }

  lemma UndoingStarts(h: Heap, ls: Locals)
    requires Safe(h, ReqsOf(ls))
    ensures Undoing(h, ls, 0, After(h, ReqsOf(ls)))
  {
    assert ls[0..] == ls;
  }

  /** Nothing is left to take back. */
  lemma NoneLeft(ls: Locals, f0: multiset<Page>, c0: int, sb: nat, f: multiset<Page>, c: int, h: Heap, end: Heap)
    requires Held(f0, c0, sb, ls[|ls|..], [], f, c) && Undoing(h, ls, |ls|, end)
    ensures f == f0 && c == c0 && h == end
  {
    assert ls[|ls|..] == [];
  }

  function CancelOf(h: Heap, req: DS.Option<WrId>): Heap
    requires req.Some? ==> Usable(h, req.value)
  {
    if req.Some? then Finished(h, req.value) else h
  }

  lemma UndoingStep(h: Heap, ls: Locals, i: nat, end: Heap)
    requires i < |ls| && Undoing(h, ls, i, end)
    ensures ls[i].None? ==> Undoing(h, ls, i + 1, end)
    ensures ls[i].Some? ==> (ls[i].value.req.Some? ==> Usable(h, ls[i].value.req.value))
    ensures ls[i].Some? ==> Undoing(CancelOf(h, ls[i].value.req), ls, i + 1, end)
  {
    assert ls[i..][0] == ls[i] && ls[i..][1..] == ls[i + 1..];
    var rest := ReqsOf(ls[i + 1..]);
    assert ReqOf(ls[i]) == [] ==> [] + rest == rest;
    if ls[i].Some? && ls[i].value.req.Some? {
      assert ([ls[i].value.req.value] + rest)[1..] == rest;
    }
  }

  /** What is populated is right: read from the donor, zeroed, or left alone. */
  ghost predicate Right(ls: Locals, p: DS.Pool, ids: seq<DS.DescId>, noFetch: bool, zero: bool) {
    && |ls| == |ids|
    && forall i: nat :: i < |ls| && ls[i].Some? ==>
         ls[i].value.contents == ContentsFor(p, ids[i], noFetch, zero) && (ls[i].value.req.Some? <==> !noFetch)
  }

  /** The demand subblock and the first `n` are populated. */
  ghost predicate Halfway(ls: Locals, pages: seq<Page>, demand: nat, n: nat, noFetch: bool, headWr: DS.Option<WrId>, k: WrId) {
    && demand < |ls| && n <= |ls| && (forall i: nat :: i < |ls| ==> (ls[i].Some? <==> i < n || i == demand))
    && |pages| == |ls| - n - (if demand >= n then 1 else 0)
    && headWr == (if noFetch then DS.None else DS.Some(k)) && headWr == ls[demand].value.req
  }

  lemma HalfwayStep(ls: Locals, pages: seq<Page>, demand: nat, n: nat, noFetch: bool, headWr: DS.Option<WrId>, k: WrId, l: LocalPage)
    requires Halfway(ls, pages, demand, n, noFetch, headWr, k) && n < |ls|
    ensures headWr == if noFetch then DS.None else DS.Some(k)
    ensures n == demand ==> Halfway(ls, pages, demand, n + 1, noFetch, headWr, k)
    ensures n != demand ==> ls[n].None? && pages != [] && Halfway(ls[n := DS.Some(l)], pages[1..], demand, n + 1, noFetch, headWr, k)
  {
  }

  lemma HalfwayStarts(ls: Locals, pages: seq<Page>, demand: nat, noFetch: bool, k: WrId, l: LocalPage)
    requires AllNone(ls) && demand < |ls| == |pages| && l.req == if noFetch then DS.None else DS.Some(k)
    ensures Halfway(ls[demand := DS.Some(l)], pages[1..], demand, 0, noFetch, l.req, k)
  {
  }

  lemma RightMore(ls: Locals, p: DS.Pool, ids: seq<DS.DescId>, noFetch: bool, zero: bool, i: nat, l: LocalPage)
    requires Right(ls, p, ids, noFetch, zero) && i < |ls|
    requires l.contents == ContentsFor(p, ids[i], noFetch, zero) && (l.req.Some? <==> !noFetch)
    ensures Right(ls[i := DS.Some(l)], p, ids, noFetch, zero)
  {
  }

  lemma RightStarts(ls: Locals, p: DS.Pool, ids: seq<DS.DescId>, noFetch: bool, zero: bool)
    requires AllNone(ls) && |ls| == |ids|
    ensures Right(ls, p, ids, noFetch, zero)
  {
  }

  lemma HalfwayEnds(ls: Locals, pages: seq<Page>, demand: nat, noFetch: bool, headWr: DS.Option<WrId>, k: WrId)
    requires Halfway(ls, pages, demand, |ls|, noFetch, headWr, k)
    ensures AllSome(ls) && pages == [] && demand < |ls| && ls[demand].Some? && ls[demand].value.req == if noFetch then DS.None else DS.Some(k)
  {
  }

  /** The flags of the demand subblock and of the first `n` are gone. */
  function Kept(flags: seq<bool>, demand: nat, n: nat): (r: seq<bool>)
    ensures |r| == |flags| && forall i: nat :: i < |r| ==> (r[i] <==> flags[i] && i >= n && i != demand)
  {
    seq(|flags|, i requires 0 <= i < |flags| => flags[i] && i >= n && i != demand)
  }

  /** What a failed fetch leaves of the flags: it failed before anything was populated, or at subblock `n`, with the
      demand subblock and those before `n` populated and taken back. */
  ghost predicate CutFlags(was: seq<bool>, now: seq<bool>, demand: nat) {
    now == was || exists n: nat :: n < |was| && n != demand && now == Kept(was, demand, n)
  }

  lemma FlagsCutAt(flags: seq<bool>, ls: Locals, pages: seq<Page>, demand: nat, n: nat, noFetch: bool, headWr: DS.Option<WrId>, k: WrId)
    requires Halfway(ls, pages, demand, n, noFetch, headWr, k) && n < |ls| == |flags| && n != demand
    ensures CutFlags(flags, Unflagged(flags, ls, |ls|), demand)
  {
    assert Unflagged(flags, ls, |ls|) == Kept(flags, demand, n);
  }

  lemma NothingCut(flags: seq<bool>, demand: nat)
    ensures CutFlags(flags, flags, demand)
  {
  }

  lemma FlagsUncut(flags: seq<bool>, ls: Locals)
    requires AllNone(ls) && |ls| == |flags|
    ensures Unflagged(flags, ls, |ls|) == flags
  {
  }

  // ---------------------------------------------------------------------------------------------
  // In place

  class Block {
    const ids: seq<DS.DescId>
    const sb: nat               // pages in a subblock
    const reqs: Requests
    const broken: set<nat>      // subblocks that get no local page record
    const refused: set<nat>     // subblocks whose read the donor does not take
    var local: Locals
    var flags: seq<bool>        // a donor copy is flagged
    var touched: bool
    var state: RState
    var charged: int            // pages charged to the faulting region
    var free: multiset<Page>    // the pages that can be had

    constructor (ids: seq<DS.DescId>, sb: nat, reqs: Requests, free: multiset<Page>, broken: set<nat>, refused: set<nat>)
      ensures this.ids == ids && this.sb == sb && this.reqs == reqs && this.free == free
      ensures this.broken == broken && this.refused == refused
      ensures Unfetched() && !touched && charged == 0
    {
      this.ids, this.sb, this.reqs, this.free := ids, sb, reqs, free;
      this.broken, this.refused := broken, refused;
      local := seq(|ids|, _ => DS.None);
      flags := seq(|ids|, _ => false);
      touched, state, charged := false, Init, 0;
    }

    predicate Shaped()
      reads this
    {
      |local| == |ids| == |flags|
    }

    /** Subblock `i` can be populated. */
    predicate Gets(i: nat, noFetch: bool) {
      i !in broken && (noFetch || i !in refused)
    }

    predicate AllGet(noFetch: bool) {
      forall i: nat :: i < |ids| ==> Gets(i, noFetch)
    }

    /** A later fault can serve it. */
    predicate Unfetched()
      reads this
    {
      Shaped() && state == Init && AllNone(local)
    }

    ghost predicate AllOnDonor()
      reads this, reqs
    {
      forall i: nat :: i < |ids| ==> DS.SlotOf(reqs.pool, ids[i]).Some?
    }

    method FreeBlockPages(pages: seq<Page>)
      modifies `free
      ensures free == old(free) + multiset(pages)
    {
      var i := 0;
      while i < |pages|
        invariant i <= |pages| && free == old(free) + multiset(pages[..i])
      {
        assert pages[..i + 1] == pages[..i] + [pages[i]];
        free := free + multiset{pages[i]};
        i := i + 1;
      }
      assert pages[..|pages|] == pages;
    }

    /** One page for every subblock, or none at all. */
    method AllocBlock() returns (ok: bool, pages: seq<Page>)
      modifies `free
      ensures ok <==> |old(free)| >= |ids|
      ensures ok ==> |pages| == |ids| && old(free) == free + multiset(pages)
      ensures !ok ==> pages == [] && free == old(free)
    {
      pages := [];
      while |pages| < |ids|
        invariant |pages| <= |ids| && old(free) == free + multiset(pages)
      {
        if |free| == 0 {
          FreeBlockPages(pages);
          return false, [];
        }
        var page :| page in free;
        free := free - multiset{page};
        pages := pages + [page];
      }
      return true, pages;
    }

    /** The page is taken over: on an error it goes back. */
    method FetchSubblock(i: nat, page: Page, head: DS.Option<WrId>, noFetch: bool, zero: bool) returns (ret: int)
      requires Shaped() && i < |ids| && local[i].None? && (head.Some? ==> head.value in reqs.live)
      requires !noFetch ==> DS.SlotOf(reqs.pool, ids[i]).Some?
      modifies `local, `charged, `free, reqs
      ensures Shaped() && reqs.pool == old(reqs.pool)
      ensures ret >= 0 <==> Gets(i, noFetch)
      ensures ret < 0 ==> local == old(local) && charged == old(charged) && free == old(free) + multiset{page}
      ensures ret <= 0 ==> reqs.View() == old(reqs.View())
      ensures ret >= 0 ==> charged == old(charged) + sb && free == old(free) && local[i].Some? && local == old(local)[i := local[i]]
      ensures ret >= 0 ==> local[i].value.page == page && local[i].value.contents == ContentsFor(reqs.pool, ids[i], noFetch, zero)
      ensures ret >= 0 ==> ret == (if noFetch then 0 else 1) && (local[i].value.req.Some? <==> ret == 1)
      ensures ret == 1 ==> local[i].value.req.value !in old(reqs.live)
      ensures ret == 1 ==> reqs.View() == Post(old(reqs.View()), local[i].value.req.value, head, ids[i])
    {
      if i in broken {
        free := free + multiset{page};
        return -1;
      }
      local := local[i := DS.Some(LocalPage(page, Untouched, DS.None))];
      charged := charged + sb;
      var contents, req := Untouched, DS.None;
      if !noFetch {
        if i in refused {
          local := local[i := DS.None];
          charged := charged - sb;
          free := free + multiset{page};
          return -1;
        }
        ghost var spare := DS.RemotePages.FreshRecord(reqs.live.Keys);
        assert spare !in reqs.live;
        var id :| id !in reqs.live;
        reqs.PostRead(id, head, ids[i]);
        contents, req := FromSlot(DS.SlotOf(reqs.pool, ids[i]).value), DS.Some(id);
      } else if zero {
        contents := Zeroed;
      }
      local := local[i := DS.Some(LocalPage(page, contents, req))];
      return if req.Some? then 1 else 0;
    }

    /** Takes back one populated subblock: its read, its charge and its page. */
    method TakeBack(i: nat)
      requires Shaped() && i < |local| && local[i].Some?
      requires local[i].value.req.Some? ==> Usable(reqs.View(), local[i].value.req.value)
      modifies `local, `flags, `charged, `free, reqs
      ensures Shaped() && local == old(local)[i := DS.None] && flags == old(flags)[i := false]
      ensures charged == old(charged) - sb && free == old(free) + multiset{old(local)[i].value.page}
      ensures reqs.pool == old(reqs.pool)
      ensures reqs.View() == CancelOf(old(reqs.View()), old(local)[i].value.req)
    {
      var l := local[i].value;
      if l.req.Some? {
        reqs.CancelRead(l.req.value);
      }
      charged := charged - sb;
      free := free + multiset{l.page};
      local, flags := local[i := DS.None], flags[i := false];
    }

    /** Takes back every subblock populated so far. */
    method TakeBackAll()
      requires Shaped() && Safe(reqs.View(), ReqsOf(local))
      modifies `local, `flags, `charged, `free, reqs
      ensures |local| == |ids| && AllNone(local) && flags == Unflagged(old(flags), old(local), |ids|)
      ensures reqs.pool == old(reqs.pool)
      ensures reqs.View() == After(old(reqs.View()), ReqsOf(old(local)))
      ensures free == old(free) + PagesOf(old(local)) && charged == old(charged) - ChargeOf(old(local), sb)
    {
      ghost var ls, fl, end := local, flags, After(reqs.View(), ReqsOf(local));
      ghost var f, c := free + PagesOf(ls), charged - ChargeOf(ls, sb);
      assert ls[0..] == ls && Held(f, c, sb, ls, [], free, charged);
      UndoingStarts(reqs.View(), ls);
      EmptiedEnds(ls, fl);
      hide Held, ReqsOf, PagesOf, ChargeOf, Usable, Finished, Undoing, CancelOf, Safe, After, Emptied, Unflagged, AllNone;
      var i := 0;
      while i < |local|
        invariant i <= |ls| == |fl| && local == Emptied(ls, i) && flags == Unflagged(fl, ls, i)
        invariant reqs.pool == old(reqs.pool)
        invariant Undoing(reqs.View(), ls, i, end) && Held(f, c, sb, ls[i..], [], free, charged)
      {
        HeldTail(f, c, sb, ls, i, free, charged);
        UndoingStep(reqs.View(), ls, i, end);
        EmptiedStep(ls, fl, i);
        if local[i].Some? {
          TakeBack(i);
        }
        i := i + 1;
      }
      NoneLeft(ls, f, c, sb, free, charged, reqs.View(), end);
    }

    /** Takes back a block that could not be populated. */
    method Unwind(firstTouch: bool, pages: seq<Page>)
      requires Shaped() && Safe(reqs.View(), ReqsOf(local))
      modifies this, reqs
      ensures Shaped() && AllNone(local) && flags == Unflagged(old(flags), old(local), |ids|)
      ensures touched == (old(touched) && !firstTouch) && state == old(state) && reqs.pool == old(reqs.pool)
      ensures reqs.View() == After(old(reqs.View()), ReqsOf(old(local)))
      ensures free == old(free) + PagesOf(old(local)) + multiset(pages)
      ensures charged == old(charged) - ChargeOf(old(local), sb)
    {
      hide PagesOf, ChargeOf, ReqsOf, Safe, After, Unflagged, AllNone;
      TakeBackAll();
      FreeBlockPages(pages);
      if firstTouch {
        touched := false;
      }
    }

    /** The copies behind skipped fetches are dead. */
    method DropCopies(reuse: bool)
      requires Shaped()
      modifies `flags, reqs
      ensures flags == seq(|ids|, _ => false) && reqs.View() == old(reqs.View())
      ensures reqs.pool == Dropped(old(reqs.pool), ids, old(flags), |ids|, reuse)
    {
      ghost var p, fl := reqs.pool, flags;
      ClearedEnds(fl);
      hide GiveUp, ClearedTo;
      var i := 0;
      while i < |ids|
        invariant i <= |ids| == |fl| && flags == ClearedTo(fl, i)
        invariant reqs.View() == old(reqs.View()) && reqs.pool == Dropped(p, ids, fl, i, reuse)
      {
        ClearedStep(fl, i);
        if flags[i] {
          flags := flags[i := false];
          reqs.FreeRemote(ids[i], reuse);
        }
        i := i + 1;
      }
    }

    /** One more subblock; on an error the whole block is taken back. */
    method FetchOne(i: nat, pages: seq<Page>, head: DS.Option<WrId>, noFetch: bool, zero: bool, firstTouch: bool,
                    ghost f0: multiset<Page>, ghost c0: int, ghost h0: Heap, ghost k: WrId)
      returns (ret: int)
      requires Shaped() && i < |ids| && local[i].None? && pages != []
      requires !noFetch ==> DS.SlotOf(reqs.pool, ids[i]).Some?
      requires Held(f0, c0, sb, local, pages, free, charged) && Posted(h0, reqs.View(), k, local)
      requires head == if ReqsOf(local) == [] then DS.None else DS.Some(k)
      modifies this, reqs
      ensures Shaped() && reqs.pool == old(reqs.pool) && state == old(state)
      ensures ret >= 0 <==> Gets(i, noFetch)
      ensures ret < 0 ==> AllNone(local) && flags == Unflagged(old(flags), old(local), |ids|)
      ensures ret < 0 ==> touched == (old(touched) && !firstTouch) && free == f0 && charged == c0 && reqs.live == h0.live
      ensures ret >= 0 ==> ret == (if noFetch then 0 else 1) && touched == old(touched) && flags == old(flags)
      ensures ret >= 0 ==> local[i].Some? && local == old(local)[i := local[i]]
      ensures ret >= 0 ==> local[i].value.contents == ContentsFor(reqs.pool, ids[i], noFetch, zero) && (local[i].value.req.Some? <==> ret == 1)
      ensures ret >= 0 ==> Held(f0, c0, sb, local, pages[1..], free, charged)
      ensures ret == 0 ==> reqs.View() == old(reqs.View()) && Posted(h0, reqs.View(), k, local)
      ensures ret == 1 ==> Posted(h0, reqs.View(), if head.Some? then k else local[i].value.req.value, local)
    {
      ghost var ls, h := local, reqs.View();
      PostedCancelled(h0, h, k, ls);
      HeldLess(f0, c0, sb, ls, pages, free, charged);
      ghost var f, c := free, charged;
      assert head.Some? ==> k in reqs.live by {
        HeadLive(h0, h, k, ls);
      }
      hide Posted, Held, ReqsOf, Safe, After, ContentsFor, Gets;
      ret := FetchSubblock(i, pages[0], head, noFetch, zero);
      if ret < 0 {
        Unwind(firstTouch, pages[1..]);
        AllBack(f0, c0, sb, ls, pages[1..], f + multiset{pages[0]}, c);
      } else {
        ghost var l := local[i].value;
        HeldMore(f0, c0, sb, ls, pages, f, c, i, l);
        if ret == 1 {
          PostedMore(h0, h, k, ls, i, l, head, ids[i]);
        } else {
          PostedQuiet(h0, h, k, ls, i, l);
        }
      }
    }

    /** The subblocks besides the demand one. */
    method FetchRest(demand: nat, pages0: seq<Page>, headWr: DS.Option<WrId>, noFetch: bool, zero: bool, firstTouch: bool,
                     ghost f0: multiset<Page>, ghost c0: int, ghost h0: Heap, ghost k: WrId)
      returns (ret: int)
      requires Shaped() && Halfway(local, pages0, demand, 0, noFetch, headWr, k)
      requires Right(local, reqs.pool, ids, noFetch, zero) && (!noFetch ==> AllOnDonor())
      requires Held(f0, c0, sb, local, pages0, free, charged) && Posted(h0, reqs.View(), k, local)
      modifies this, reqs
      ensures Shaped() && reqs.pool == old(reqs.pool) && state == old(state)
      ensures ret >= 0 <==> forall j: nat :: j < |ids| && j != demand ==> Gets(j, noFetch)
      ensures ret < 0 ==> AllNone(local) && free == f0 && charged == c0 && reqs.live == h0.live
      ensures ret < 0 ==> touched == (old(touched) && !firstTouch) && CutFlags(old(flags), flags, demand)
      ensures ret >= 0 ==> AllSome(local) && Held(f0, c0, sb, local, [], free, charged) && Right(local, reqs.pool, ids, noFetch, zero)
      ensures ret >= 0 ==> ret == (if noFetch then 0 else 1) && flags == old(flags) && touched == old(touched)
      ensures ret == 0 ==> reqs.View() == old(reqs.View())
      ensures ret == 1 ==> demand < |ids| && local[demand].value.req == DS.Some(k) && Posted(h0, reqs.View(), k, local)
    {
      hide Held, Posted, ReqsOf, PagesOf, ChargeOf, Unflagged, ContentsFor, Right, Halfway, AllNone, AllSome, CutFlags, Gets;
      var pages := pages0;
      var i := 0;
      while i < |ids|
        invariant i <= |ids| == |local| && Halfway(local, pages, demand, i, noFetch, headWr, k)
        invariant Right(local, reqs.pool, ids, noFetch, zero)
        invariant Shaped() && reqs.pool == old(reqs.pool) && state == old(state) && touched == old(touched) && flags == old(flags)
        invariant Held(f0, c0, sb, local, pages, free, charged) && Posted(h0, reqs.View(), k, local)
        invariant noFetch ==> reqs.View() == old(reqs.View())
        invariant forall j: nat :: j < i && j != demand ==> Gets(j, noFetch)
      {
        ghost var ls := local;
        HalfwayStep(ls, pages, demand, i, noFetch, headWr, k, LocalPage(0, Untouched, DS.None));
        if i != demand {
          HeadChosen(ls, reqs.pool, ids, pages, demand, i, noFetch, zero, headWr, k);
          ret := FetchOne(i, pages, headWr, noFetch, zero, firstTouch, f0, c0, h0, k);
          if ret < 0 {
            FlagsCutAt(old(flags), ls, pages, demand, i, noFetch, headWr, k);
            return;
          }
          HalfwayStep(ls, pages, demand, i, noFetch, headWr, k, local[i].value);
          RightMore(ls, reqs.pool, ids, noFetch, zero, i, local[i].value);
          pages := pages[1..];
        }
        i := i + 1;
      }
      HalfwayEnds(local, pages, demand, noFetch, headWr, k);
      ret := if noFetch then 0 else 1;
    }

    /** The demand subblock first, then the rest. */
    method Populate(demand: nat, pages: seq<Page>, noFetch: bool, zero: bool, firstTouch: bool,
                    ghost f0: multiset<Page>, ghost c0: int)
      returns (ret: int)
      requires Shaped() && AllNone(local) && demand < |ids| == |pages|
      requires !noFetch ==> AllOnDonor()
      requires Held(f0, c0, sb, local, pages, free, charged)
      modifies this, reqs
      ensures Shaped() && reqs.pool == old(reqs.pool) && state == old(state)
      ensures ret >= 0 <==> AllGet(noFetch)
      ensures ret < 0 ==> AllNone(local) && free == f0 && charged == c0 && reqs.live == old(reqs.live)
      ensures ret < 0 ==> touched == (old(touched) && !firstTouch) && CutFlags(old(flags), flags, demand)
      ensures ret >= 0 ==> AllSome(local) && Held(f0, c0, sb, local, [], free, charged) && Right(local, reqs.pool, ids, noFetch, zero)
      ensures ret >= 0 ==> ret == (if noFetch then 0 else 1) && flags == old(flags) && touched == old(touched)
      ensures ret == 0 ==> reqs.View() == old(reqs.View())
      ensures ret == 1 ==> local[demand].value.req.Some?
      ensures ret == 1 ==> Posted(old(reqs.View()), reqs.View(), local[demand].value.req.value, local)
    {
      ghost var h0, ls := reqs.View(), local;
      NothingHeld(ls, sb);
      FlagsUncut(flags, ls);
      StartsPosted(h0, 0, ls);
      RightStarts(ls, reqs.pool, ids, noFetch, zero);
      hide Held, Posted, ReqsOf, PagesOf, ChargeOf, Unflagged, ContentsFor, Right, Halfway, AllNone, AllSome, CutFlags, Gets;
      ret := FetchOne(demand, pages, DS.None, noFetch, zero, firstTouch, f0, c0, h0, 0);
      if ret >= 0 {
        var headWr := local[demand].value.req;
        ghost var k: WrId := if headWr.Some? then headWr.value else 0;
        HalfwayStarts(ls, pages, demand, noFetch, k, local[demand].value);
        RightMore(ls, reqs.pool, ids, noFetch, zero, demand, local[demand].value);
        ret := FetchRest(demand, pages[1..], headWr, noFetch, zero, firstTouch, f0, c0, h0, k);
      }
    }

    /** What a populated block is left in; after a fetch without reading the flagged copies go. */
    method Settle(drop: bool, reuse: bool, next: RState)
      requires Shaped()
      modifies `flags, `state, reqs
      ensures flags == (if drop then seq(|ids|, _ => false) else old(flags)) && state == next
      ensures reqs.View() == old(reqs.View())
      ensures reqs.pool == if drop then Dropped(old(reqs.pool), ids, old(flags), |ids|, reuse) else old(reqs.pool)
    {
      hide Dropped;
      if drop {
        DropCopies(reuse);
      }
      state := next;
    }

    /** All of the block's pages, or none, and all whenever nothing is missing: after a failure pages, charges, requests, donor copies and the
        first-touch mark are what they were, and only flags of subblocks that were populated are gone. */
    method Fetch(demand: nat, skip: bool, stale: bool, ioRead: bool, ioThread: bool, reuse: bool) returns (ret: int)
      requires Unfetched() && demand < |ids|
      requires touched && !skip ==> AllOnDonor()
      modifies this, reqs
      ensures Shaped()
      ensures ret >= 0 <==> |old(free)| >= |ids| && AllGet(skip || !old(touched))
      ensures ret < 0 ==> Unfetched() && free == old(free) && charged == old(charged) && touched == old(touched)
      ensures ret < 0 ==> reqs.live == old(reqs.live) && reqs.pool == old(reqs.pool) && CutFlags(old(flags), flags, demand)
      ensures ret >= 0 ==> AllSome(local) && free + PagesOf(local) == old(free) && charged == old(charged) + sb * |ids|
      ensures ret >= 0 ==> touched && ret == (if skip || !old(touched) then 0 else 1)
      ensures ret >= 0 ==> state == if ioThread || ret == 0 then Active else Fetching
      ensures ret >= 0 ==> Right(local, old(reqs.pool), ids, skip || !old(touched), !stale && !ioRead)
      ensures ret == 0 ==> reqs.View() == old(reqs.View())
      ensures ret == 0 ==> flags == (if stale then old(flags) else seq(|ids|, _ => false))
      ensures ret == 0 ==> reqs.pool == if stale then old(reqs.pool) else Dropped(old(reqs.pool), ids, old(flags), |ids|, reuse)
      ensures ret == 1 ==> flags == old(flags) && reqs.pool == old(reqs.pool) && local[demand].value.req.Some?
      ensures ret == 1 ==> Posted(old(reqs.View()), reqs.View(), local[demand].value.req.value, local)
    {
      NothingHeld(local, sb);
      NothingCut(flags, demand);
      hide Posted, ReqsOf, Right, AllNone, CutFlags, PagesOf, ChargeOf, Dropped, DS.SlotOf, AllGet;
      ghost var f0, c0 := free, charged;
      var ok, pages := AllocBlock();
      if !ok {
        return -1;
      }
      var noFetch, firstTouch := skip, false;
      if !touched {
        touched, noFetch, firstTouch := true, true, true;
      }
      ret := Populate(demand, pages, noFetch, !stale && !ioRead, firstTouch, f0, c0);
      if ret < 0 {
        return;
      }
      AllCharged(local, sb);
      hide AllSome;
      Settle(noFetch && !stale, reuse, if ioThread || ret == 0 then Active else Fetching);
    }
  }

  lemma StartsPosted(h: Heap, k: WrId, ls: Locals)
    requires ReqsOf(ls) == []
    ensures Posted(h, h, k, ls)
  {
    assert Elems([]) == {} && h.live - {} == h.live;
  }

  /** There is a head as soon as there is a request. */
  lemma HeadChosen(ls: Locals, p: DS.Pool, ids: seq<DS.DescId>, pages: seq<Page>, demand: nat, n: nat, noFetch: bool, zero: bool,
                   headWr: DS.Option<WrId>, k: WrId)
    requires Halfway(ls, pages, demand, n, noFetch, headWr, k) && Right(ls, p, ids, noFetch, zero)
    ensures headWr == if ReqsOf(ls) == [] then DS.None else DS.Some(k)
  {
    if noFetch {
      NoneRequested(ls);
    } else {
      SomeRequested(ls, demand);
    }
  }

  lemma {:induction false} SomeRequested(ls: Locals, i: nat)
    requires i < |ls| && ls[i].Some? && ls[i].value.req.Some?
    ensures ReqsOf(ls) != []
    decreases |ls|
  {
    if i > 0 {
      SomeRequested(ls[1..], i - 1);
    }
  }

  lemma {:induction false} NoneRequested(ls: Locals)
    requires NoRequests(ls)
    ensures ReqsOf(ls) == []
    decreases |ls|
  {
    if ls != [] {
      NoneRequested(ls[1..]);
    }
  }

  lemma HeadLive(h0: Heap, h: Heap, k: WrId, ls: Locals)
    requires Posted(h0, h, k, ls)
    ensures ReqsOf(ls) != [] ==> k in h.live
  {
    if ReqsOf(ls) != [] {
      assert ReqsOf(ls)[0] in Elems(ReqsOf(ls));
    }
  }

  lemma AllBack(f0: multiset<Page>, c0: int, sb: nat, ls: Locals, pages: seq<Page>, f: multiset<Page>, c: int)
    requires Held(f0, c0, sb, ls, pages, f, c)
    ensures f + PagesOf(ls) + multiset(pages) == f0 && c - ChargeOf(ls, sb) == c0
  {
  }

  /** Once a fetched block's reads have completed, whatever the order, no request of it is left, each was given
      back once and the head last, every descriptor put its share of the donor copy, and no other descriptor
      reads another slot than before. */
  lemma FetchCompletes(h0: Heap, h: Heap, k: WrId, ls: Locals, order: seq<WrId>, p: DS.Pool, reuse: bool)
    requires Posted(h0, h, k, ls) && ReqsOf(ls) != [] && DS.Inv(p)
    requires Distinct(order) && Elems(order) == Elems(ReqsOf(ls))
    ensures Safe(h, order) && After(h, order).live == h0.live
    ensures After(h, order).freed == h0.freed + Others(order, k) + [k]
    ensures Settled(p, PoolAfter(p, h, order, reuse), DescsOf(h, Elems(order)))
  {
    assert ReqsOf(ls)[0] in Elems(ReqsOf(ls));
    assert Elems(order) + {k} == Elems(order);
    FinishedOnce(h, k, order);
    ReadsConsume(p, h, k, order, reuse);
  }
}
