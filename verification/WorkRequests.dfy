/**
  The requests posted to a donor for one block.

  The first request of a block is its head: every request of the block counts on the head, and the head is
  given back when the count runs out.  Reads give every other request back as it completes; writebacks keep
  them on the head's list until the last one completes.
 */
module WorkRequests {
  import opened DonorSlots

  type WrId = nat

  /** `chain`: the completed requests a writeback's head keeps. */
  datatype Wr = Wr(head: WrId, refc: int, desc: DescId, chain: seq<WrId>)

  /** `freed`: the requests given back, in order. */
  datatype Heap = Heap(live: map<WrId, Wr>, freed: seq<WrId>)

  predicate CanPost(h: Heap, id: WrId, head: Option<WrId>) {
    id !in h.live && (head.Some? ==> head.value in h.live)
  }

  function Post(h: Heap, id: WrId, head: Option<WrId>, d: DescId): Heap
    requires CanPost(h, id, head)
  {
    var k := if head.Some? then head.value else id;
    var m := h.live[id := Wr(k, 0, d, [])];
    Heap(m[k := m[k].(refc := m[k].refc + 1)], h.freed)
  }

  function Returned(h: Heap, id: WrId): Heap
    requires id in h.live
  {
    Heap(h.live - {id}, h.freed + [id])
  }

  /** Neither the request nor its head has been given back. */
  predicate Usable(h: Heap, w: WrId) {
    w in h.live && h.live[w].head in h.live
  }

  /** One request off the count of the head. */
  function Drop(h: Heap, k: WrId): Heap
    requires k in h.live
  {
    h.(live := h.live[k := h.live[k].(refc := h.live[k].refc - 1)])
  }

  /** Completion, or cancellation, of a read. */
  function Finished(h: Heap, w: WrId): Heap
    requires Usable(h, w)
  {
    var k := h.live[w].head;
    var g := Drop(if w != k then Returned(h, w) else h, k);
    if g.live[k].refc == 0 then Returned(g, k) else g
  }

  function FreeAll(h: Heap, ws: seq<WrId>): (r: Heap)
    requires (forall w :: w in ws ==> w in h.live) && Distinct(ws)
    ensures r.freed == h.freed + ws
    ensures r.live == h.live - Elems(ws)
    decreases |ws|
  {
    if ws == [] then h
    else
      assert forall w :: w in ws[1..] ==> w in ws;
      assert ws[0] !in ws[1..];
      assert Elems(ws) == {ws[0]} + Elems(ws[1..]);
      FreeAll(Returned(h, ws[0]), ws[1..])
  }

  /** What a completed writeback leaves of the block's requests before the count is looked at. */
  function Parked(h: Heap, w: WrId): Heap
    requires Usable(h, w)
  {
    var k := h.live[w].head;
    if w != k then h.(live := h.live[k := h.live[k].(chain := h.live[k].chain + [w])]) else h
  }

  predicate Parkable(h: Heap, w: WrId) {
    Usable(h, w) && ChainOk(Drop(Parked(h, w), h.live[w].head), h.live[w].head)
  }

  predicate ChainOk(h: Heap, k: WrId) {
    k in h.live && Distinct(h.live[k].chain) && k !in h.live[k].chain && forall v :: v in h.live[k].chain ==> v in h.live
  }

  /** Completion of a writeback. */
  function Written(h: Heap, w: WrId): Heap
    requires Parkable(h, w)
  {
    var k := h.live[w].head;
    var g := Drop(Parked(h, w), k);
    if g.live[k].refc == 0 then Returned(FreeAll(g, g.live[k].chain), k) else g
  }

  // ---------------------------------------------------------------------------------------------
  // Orders

  predicate Distinct(ws: seq<WrId>) {
    forall i: nat, j: nat :: i < j < |ws| ==> ws[i] != ws[j]
  }

  function Elems(ws: seq<WrId>): set<WrId> {
    set w | w in ws
  }

  function Kept(w: WrId, k: WrId): seq<WrId> {
    if w == k then [] else [w]
  }

  /** `ws` without `k`. */
  function Others(ws: seq<WrId>, k: WrId): seq<WrId>
    decreases |ws|
  {
    if ws == [] then [] else Kept(ws[0], k) + Others(ws[1..], k)
  }

  lemma DistinctTail(ws: seq<WrId>)
    requires Distinct(ws) && ws != []
    ensures Distinct(ws[1..]) && ws[0] !in ws[1..] && Elems(ws[1..]) == Elems(ws) - {ws[0]}
  {
    assert forall w :: w in ws <==> w == ws[0] || w in ws[1..];
  }

  lemma {:induction false} DistinctSize(ws: seq<WrId>)
    requires Distinct(ws)
    ensures |Elems(ws)| == |ws|
    decreases |ws|
  {
    if ws != [] {
      DistinctTail(ws);
      DistinctSize(ws[1..]);
      assert Elems(ws) == {ws[0]} + Elems(ws[1..]);
    } else {
      assert Elems(ws) == {};
    }
  }

  // ---------------------------------------------------------------------------------------------
  // Reads, completed or cancelled in any order

  /** The requests `rest` of the block headed by `k` have not completed; the head waits for all of them. */
  ghost predicate Pending(h: Heap, k: WrId, rest: set<WrId>) {
    && k in h.live && h.live[k].head == k && h.live[k].refc == |rest| > 0
    && forall w :: w in rest ==> w in h.live && h.live[w].head == k
  }

  ghost predicate Safe(h: Heap, order: seq<WrId>)
    decreases |order|
  {
    order == [] || (Usable(h, order[0]) && Safe(Finished(h, order[0]), order[1..]))
  }

  ghost function After(h: Heap, order: seq<WrId>): Heap
    requires Safe(h, order)
    decreases |order|
  {
    if order == [] then h else After(Finished(h, order[0]), order[1..])
  }

  /** One completion: the last one gives the head back too. */
  lemma FinishedStep(h: Heap, k: WrId, rest: set<WrId>, w: WrId)
    requires Pending(h, k, rest) && w in rest
    ensures Usable(h, w)
    ensures |rest| > 1 ==> Pending(Finished(h, w), k, rest - {w})
    ensures |rest| > 1 ==> Finished(h, w).freed == h.freed + Kept(w, k)
    ensures |rest| > 1 ==> Finished(h, w).live - {k} == h.live - {k, w}
    ensures |rest| == 1 ==> Finished(h, w).freed == h.freed + Kept(w, k) + [k]
    ensures |rest| == 1 ==> Finished(h, w).live == h.live - {k, w}
  {
    assert |rest - {w}| == |rest| - 1;
    var r := Finished(h, w);
    if |rest| > 1 {
      assert r.live - {k} == h.live - {k, w};
      forall v | v in rest - {w}
        ensures v in r.live && r.live[v].head == k
      {
      }
    } else {
      assert r.live == h.live - {k, w};
    }
  }

  lemma OthersSplit(f: seq<WrId>, order: seq<WrId>, k: WrId)
    requires order != []
    ensures (f + Kept(order[0], k)) + Others(order[1..], k) == f + Others(order, k)
    ensures |order| == 1 ==> Others(order, k) == Kept(order[0], k)
  {
    var a, b := Kept(order[0], k), Others(order[1..], k);
    assert Others(order, k) == a + b;
    hide Others, Kept;
    assert (f + a) + b == f + (a + b);
    if |order| == 1 {
      NoOthers(order[1..], k);
      assert a + [] == a;
    }
  }

  lemma NoOthers(order: seq<WrId>, k: WrId)
    requires order == []
    ensures Others(order, k) == []
  {
  }

  lemma OnlyOne(order: seq<WrId>)
    requires |order| == 1
    ensures order[1..] == [] && Elems(order) == {order[0]}
  {
    assert order == [order[0]];
  }

  lemma FinishedFirst(h: Heap, k: WrId, order: seq<WrId>)
    requires Pending(h, k, Elems(order)) && Distinct(order)
    ensures order != [] && Usable(h, order[0]) && Distinct(order[1..])
    ensures |order| > 1 ==> Pending(Finished(h, order[0]), k, Elems(order[1..]))
    ensures |order| > 1 ==> Finished(h, order[0]).freed + Others(order[1..], k) == h.freed + Others(order, k)
    ensures |order| > 1 ==> Finished(h, order[0]).live - (Elems(order[1..]) + {k}) == h.live - (Elems(order) + {k})
    ensures |order| == 1 ==> Finished(h, order[0]).freed == h.freed + Others(order, k) + [k]
    ensures |order| == 1 ==> Finished(h, order[0]).live == h.live - (Elems(order) + {k})
  {
    var w := order[0];
    DistinctSize(order);
    DistinctTail(order);
    FinishedStep(h, k, Elems(order), w);
    OthersSplit(h.freed, order, k);
    hide Pending, Finished, Distinct, Usable, Others, Kept;
    if |order| == 1 {
      OnlyOne(order);
      assert Elems(order) + {k} == {k, w};
    } else {
      LiveLeft(h, Finished(h, w), k, w, order);
    }
  }

  /** In any order of completion each request of a block is given back exactly once, the head last, and none is
      touched after it was given back. */
  lemma {:induction false} FinishedOnce(h: Heap, k: WrId, order: seq<WrId>)
    requires Pending(h, k, Elems(order)) && Distinct(order)
    ensures Safe(h, order)
    ensures After(h, order).freed == h.freed + Others(order, k) + [k]
    ensures After(h, order).live == h.live - (Elems(order) + {k})
    decreases |order|
  {
    FinishedFirst(h, k, order);
    hide Pending, Finished, Distinct, Usable, Elems, Others;
    if |order| == 1 {
      assert order[1..] == [];
    } else {
      FinishedOnce(Finished(h, order[0]), k, order[1..]);
    }
  }

  lemma LiveLeft(h: Heap, g: Heap, k: WrId, w: WrId, order: seq<WrId>)
    requires order != [] && w == order[0] && g.live - {k} == h.live - {k, w}
    ensures g.live - (Elems(order[1..]) + {k}) == h.live - (Elems(order) + {k})
  {
    var a, b := Elems(order[1..]), Elems(order);
    assert b == a + {w} by {
      assert forall v :: v in order <==> v == w || v in order[1..];
    }
    assert (g.live - {k}) - a == g.live - (a + {k});
    assert (h.live - {k, w}) - a == h.live - (b + {k});
  }

  // ---------------------------------------------------------------------------------------------
  // Posting

  predicate AllFresh(h: Heap, ids: seq<WrId>) {
    Distinct(ids) && forall id :: id in ids ==> id !in h.live
  }

  /** The requests of a block are posted one by one, each naming the first. */
  function PostMore(h: Heap, ids: seq<WrId>, k: WrId, d: DescId): (r: Heap)
    requires AllFresh(h, ids) && k in h.live
    decreases |ids|
  {
    if ids == [] then h
    else
      var g := Post(h, ids[0], Some(k), d);
      assert AllFresh(g, ids[1..]) by {
        DistinctTail(ids);
      }
      PostMore(g, ids[1..], k, d + 1)
  }

  function PostBlock(h: Heap, ids: seq<WrId>, d: DescId): Heap
    requires AllFresh(h, ids) && ids != []
  {
    var g := Post(h, ids[0], None, d);
    assert AllFresh(g, ids[1..]) by {
      DistinctTail(ids);
    }
    PostMore(g, ids[1..], ids[0], d + 1)
  }

  lemma PostStep(h: Heap, k: WrId, rest: set<WrId>, id: WrId, d: DescId)
    requires Pending(h, k, rest) && id !in h.live
    ensures Pending(Post(h, id, Some(k), d), k, rest + {id})
    ensures Post(h, id, Some(k), d).live - {k, id} == h.live - {k}
  {
    assert |rest + {id}| == |rest| + 1;
  }

  lemma {:induction false} MorePending(h: Heap, ids: seq<WrId>, k: WrId, d: DescId, rest: set<WrId>)
    requires AllFresh(h, ids) && Pending(h, k, rest)
    ensures var r := PostMore(h, ids, k, d);
            && Pending(r, k, rest + Elems(ids)) && r.freed == h.freed
            && r.live - (Elems(ids) + {k}) == h.live - {k}
    decreases |ids|
  {
    if ids != [] {
      PostFirst(h, ids, k, d, rest);
    }
    assert ids == [] ==> rest + Elems(ids) == rest && Elems(ids) + {k} == {k};
    hide Pending, Post, Distinct, AllFresh, Elems;
    if ids != [] {
      var g := Post(h, ids[0], Some(k), d);
      MorePending(g, ids[1..], k, d + 1, rest + {ids[0]});
      StillLive(h, g, PostMore(h, ids, k, d), k, ids);
    }
  }

  lemma PostFirst(h: Heap, ids: seq<WrId>, k: WrId, d: DescId, rest: set<WrId>)
    requires AllFresh(h, ids) && Pending(h, k, rest) && ids != []
    ensures CanPost(h, ids[0], Some(k))
    ensures var g := Post(h, ids[0], Some(k), d);
            && AllFresh(g, ids[1..]) && Pending(g, k, rest + {ids[0]}) && g.freed == h.freed
            && g.live - {k, ids[0]} == h.live - {k}
    ensures Elems(ids[1..]) == Elems(ids) - {ids[0]} && rest + {ids[0]} + Elems(ids[1..]) == rest + Elems(ids)
  {
    DistinctTail(ids);
    PostStep(h, k, rest, ids[0], d);
    assert ids[0] in ids;
  }

  lemma StillLive(h: Heap, g: Heap, r: Heap, k: WrId, ids: seq<WrId>)
    requires ids != [] && g.live - {k, ids[0]} == h.live - {k} && Elems(ids[1..]) == Elems(ids) - {ids[0]}
    requires r.live - (Elems(ids[1..]) + {k}) == g.live - {k}
    ensures r.live - (Elems(ids) + {k}) == h.live - {k}
  {
    var a := Elems(ids[1..]);
    assert Elems(ids) + {k} == a + {k} + {ids[0]};
    assert r.live - (Elems(ids) + {k}) == (r.live - (a + {k})) - {ids[0]};
    assert (g.live - {k}) - {ids[0]} == g.live - {k, ids[0]};
  }

  lemma BlockPending(h: Heap, ids: seq<WrId>, d: DescId)
    requires AllFresh(h, ids) && ids != []
    ensures Pending(PostBlock(h, ids, d), ids[0], Elems(ids)) && PostBlock(h, ids, d).freed == h.freed
    ensures PostBlock(h, ids, d).live - Elems(ids) == h.live
  {
    var k := ids[0];
    var g := Post(h, k, None, d);
    DistinctTail(ids);
    assert Pending(g, k, {k});
    MorePending(g, ids[1..], k, d + 1, {k});
    assert {k} + Elems(ids[1..]) == Elems(ids);
    assert Elems(ids[1..]) + {k} == Elems(ids);
    assert g.live - {k} == h.live;
  }

  /** Posting a block's reads and completing them in any order leaves the requests as they were, each of them
      given back once and the first one last. */
  lemma PostedAndReleased(h: Heap, ids: seq<WrId>, order: seq<WrId>, d: DescId)
    requires AllFresh(h, ids) && ids != [] && Distinct(order) && Elems(order) == Elems(ids)
    ensures Safe(PostBlock(h, ids, d), order)
    ensures var r := After(PostBlock(h, ids, d), order);
            r.live == h.live && r.freed == h.freed + Others(order, ids[0]) + [ids[0]]
  {
    BlockPending(h, ids, d);
    FinishedOnce(PostBlock(h, ids, d), ids[0], order);
    assert Elems(order) + {ids[0]} == Elems(ids);
  }

  // ---------------------------------------------------------------------------------------------
  // Writebacks

  /** `done`: completed, kept on the head's list; the head itself may have completed too. */
  ghost predicate WritePending(h: Heap, k: WrId, rest: set<WrId>, done: seq<WrId>) {
    && Pending(h, k, rest) && h.live[k].chain == done && ChainOk(h, k)
    && forall w :: w in done ==> w !in rest
  }

  ghost predicate WriteSafe(h: Heap, order: seq<WrId>)
    decreases |order|
  {
    order == [] || (Parkable(h, order[0]) && WriteSafe(Written(h, order[0]), order[1..]))
  }

  ghost function AfterWrites(h: Heap, order: seq<WrId>): Heap
    requires WriteSafe(h, order)
    decreases |order|
  {
    if order == [] then h else AfterWrites(Written(h, order[0]), order[1..])
  }

  /** The completed request joins the head's list, and the head waits for one less. */
  lemma ParkedStep(h: Heap, k: WrId, rest: set<WrId>, done: seq<WrId>, w: WrId)
    requires WritePending(h, k, rest, done) && w in rest
    ensures Parkable(h, w) && h.live[w].head == k
    ensures var g := Drop(Parked(h, w), k);
            && g.freed == h.freed && g.live - {k} == h.live - {k} && k in g.live
            && g.live[k] == Wr(k, |rest| - 1, h.live[k].desc, done + Kept(w, k)) && ChainOk(g, k)
  {
  }

  lemma WrittenMore(h: Heap, k: WrId, rest: set<WrId>, done: seq<WrId>, w: WrId)
    requires WritePending(h, k, rest, done) && w in rest && |rest| > 1 && Parkable(h, w)
    ensures WritePending(Written(h, w), k, rest - {w}, done + Kept(w, k))
    ensures Written(h, w).freed == h.freed && Written(h, w).live - {k} == h.live - {k}
  {
    ParkedStep(h, k, rest, done, w);
    assert |rest - {w}| == |rest| - 1;
    var g := Drop(Parked(h, w), k);
    forall v | v in rest - {w}
      ensures v in g.live && g.live[v].head == k
    {
      assert v != k ==> v in h.live - {k} && v in g.live - {k} && (g.live - {k})[v] == (h.live - {k})[v];
    }
    hide Parked, Drop, ChainOk, Distinct;
  }

  lemma WrittenLast(h: Heap, k: WrId, rest: set<WrId>, done: seq<WrId>, w: WrId)
    requires WritePending(h, k, rest, done) && w in rest && |rest| == 1 && Parkable(h, w)
    ensures Written(h, w).freed == h.freed + (done + Kept(w, k)) + [k]
    ensures Written(h, w).live == h.live - (Elems(done) + {k, w})
  {
    ParkedStep(h, k, rest, done, w);
    hide Pending, Parked, Drop, Distinct;
    var g := Drop(Parked(h, w), k);
    var c := done + Kept(w, k);
    assert Elems(c) + {k} == Elems(done) + {k, w};
    assert Written(h, w).live == (g.live - Elems(c)) - {k};
    assert (g.live - Elems(c)) - {k} == (g.live - {k}) - Elems(c);
    assert (h.live - {k}) - Elems(c) == h.live - (Elems(done) + {k, w});
  }

  lemma WrittenFirst(h: Heap, k: WrId, order: seq<WrId>, done: seq<WrId>)
    requires WritePending(h, k, Elems(order), done) && Distinct(order)
    ensures order != [] && Parkable(h, order[0]) && Distinct(order[1..])
    ensures |order| > 1 ==> WritePending(Written(h, order[0]), k, Elems(order[1..]), done + Kept(order[0], k))
    ensures |order| > 1 ==> Written(h, order[0]).freed == h.freed && Written(h, order[0]).live - {k} == h.live - {k}
    ensures |order| == 1 ==> Written(h, order[0]).freed == h.freed + (done + Others(order, k)) + [k]
    ensures |order| == 1 ==> Written(h, order[0]).live == h.live - (Elems(done) + Elems(order) + {k})
  {
    var w := order[0];
    DistinctSize(order);
    DistinctTail(order);
    ParkedStep(h, k, Elems(order), done, w);
    if |order| > 1 {
      WrittenMore(h, k, Elems(order), done, w);
    } else {
      WrittenLast(h, k, Elems(order), done, w);
    }
    hide Pending, WritePending, Written, Distinct, Parkable;
    OthersSplit([], order, k);
    hide Others, Kept;
    if |order| == 1 {
      OnlyOne(order);
      assert Elems(done) + Elems(order) + {k} == Elems(done) + {k, w};
    }
  }

  /** In any order of completion nothing of a writeback is given back before all of it has completed; then
      everything is, once, the head last. */
  lemma {:induction false} WrittenOnce(h: Heap, k: WrId, order: seq<WrId>, done: seq<WrId>)
    requires WritePending(h, k, Elems(order), done) && Distinct(order)
    ensures WriteSafe(h, order)
    ensures AfterWrites(h, order).freed == h.freed + (done + Others(order, k)) + [k]
    ensures AfterWrites(h, order).live == h.live - (Elems(done) + Elems(order) + {k})
    decreases |order|
  {
    WrittenFirst(h, k, order, done);
    ParkedElems(h, Written(h, order[0]), k, order, done);
    OthersSplit(done, order, k);
    var c := done + Kept(order[0], k);
    assert c + Others(order[1..], k) == done + Others(order, k);
    hide Pending, WritePending, Written, Distinct, Parkable, Elems, Others, Kept;
    if |order| == 1 {
      assert order[1..] == [];
    } else {
      WrittenOnce(Written(h, order[0]), k, order[1..], c);
    }
  }

  lemma ParkedElems(h: Heap, g: Heap, k: WrId, order: seq<WrId>, done: seq<WrId>)
    requires order != []
    ensures var c := done + Kept(order[0], k); g.live - {k} == h.live - {k} ==>
            g.live - (Elems(c) + Elems(order[1..]) + {k}) == h.live - (Elems(done) + Elems(order) + {k})
  {
    var c := done + Kept(order[0], k);
    assert forall w :: w in order <==> w == order[0] || w in order[1..];
    var all := Elems(done) + Elems(order) + {k};
    assert Elems(c) + Elems(order[1..]) + {k} == all;
    assert (g.live - {k}) - all == g.live - all;
    assert (h.live - {k}) - all == h.live - all;
  }

  /** A block is under writeback until its last request completes, whichever that is. */
  lemma NothingEarly(h: Heap, k: WrId, order: seq<WrId>, done: seq<WrId>, n: nat)
    requires WritePending(h, k, Elems(order), done) && Distinct(order) && n < |order|
    ensures WriteSafe(h, order[..n]) && AfterWrites(h, order[..n]).freed == h.freed
    decreases n
  {
    WrittenFirst(h, k, order, done);
    hide Pending, WritePending, Written, Distinct, Parkable, Elems, Others;
    if n > 0 {
      NothingEarly(Written(h, order[0]), k, order[1..], done + Kept(order[0], k), n - 1);
      assert order[..n][1..] == order[1..][..n - 1];
    }
  }

  // ---------------------------------------------------------------------------------------------
  // The donor copies that completed reads leave

  function Settle(p: Pool, d: DescId, reuse: bool): Pool {
    if d in p.remote && (p.remote[d].Cow? ==> p.remote[d].crp in p.crps) then FetchDone(p, d, reuse) else p
  }

  /** Completing `w` puts the share of every request given back. */
  function Consume(p: Pool, h: Heap, w: WrId, reuse: bool): Pool
    requires Usable(h, w)
  {
    var k := h.live[w].head;
    var q := if w != k then Settle(p, h.live[w].desc, reuse) else p;
    if h.live[k].refc == 1 then Settle(q, h.live[k].desc, reuse) else q
  }

  ghost function PoolAfter(p: Pool, h: Heap, order: seq<WrId>, reuse: bool): Pool
    requires Safe(h, order)
    decreases |order|
  {
    if order == [] then p else PoolAfter(Consume(p, h, order[0], reuse), Finished(h, order[0]), order[1..], reuse)
  }

  /** Nobody else's slot moved, nobody started to share, and what `done` read is shared no longer. */
  ghost predicate Settled(p: Pool, q: Pool, done: set<DescId>) {
    && Inv(q) && (forall e :: e !in done ==> SameFor(p, q, e))
    && (forall e :: IsCow(q, e) ==> IsCow(p, e) && e !in done)
  }

  lemma SettleStep(p: Pool, d: DescId, reuse: bool)
    requires Inv(p)
    ensures Settled(p, Settle(p, d, reuse), {d})
  {
    if d in p.remote {
      RecordKnown(p, d);
      FetchDoneInv(p, d, reuse);
      hide Inv, SlotOf, FetchDone;
      forall e | IsCow(Settle(p, d, reuse), e)
        ensures IsCow(p, e) && e != d
      {
        assert e != d ==> SameFor(p, Settle(p, d, reuse), e);
      }
    }
  }

  lemma SettledTwice(p: Pool, q: Pool, r: Pool, a: set<DescId>, b: set<DescId>)
    requires Settled(p, q, a) && Settled(q, r, b)
    ensures Settled(p, r, a + b)
  {
    hide Inv, SlotOf;
    forall e | e !in a + b
      ensures SameFor(p, r, e)
    {
      assert SameFor(p, q, e) && SameFor(q, r, e);
    }
  }

  lemma SettledNone(p: Pool)
    requires Inv(p)
    ensures Settled(p, p, {})
  {
  }

  function DescsOf(h: Heap, ws: set<WrId>): set<DescId> {
    set w | w in ws && w in h.live :: h.live[w].desc
  }

  lemma ConsumeStep(p: Pool, h: Heap, k: WrId, w: WrId, reuse: bool)
    requires Inv(p) && Usable(h, w) && h.live[w].head == k
    ensures Settled(p, Consume(p, h, w, reuse), DescsOf(h, Gone(h, k, w)))
  {
    var q := if w != k then Settle(p, h.live[w].desc, reuse) else p;
    var a := if w != k then {h.live[w].desc} else {};
    var b := if h.live[k].refc == 1 then {h.live[k].desc} else {};
    SettledNone(p);
    SettleStep(p, h.live[w].desc, reuse);
    assert Settled(p, q, a);
    SettledNone(q);
    SettleStep(q, h.live[k].desc, reuse);
    SettledTwice(p, q, Consume(p, h, w, reuse), a, b);
    assert DescsOf(h, Gone(h, k, w)) == a + b;
  }

  /** Once a block's reads have completed, in any order, every descriptor they were for has put its share, and no
      other descriptor reads another slot than before. */
  lemma {:induction false} ReadsConsume(p: Pool, h: Heap, k: WrId, order: seq<WrId>, reuse: bool)
    requires Inv(p) && Pending(h, k, Elems(order)) && Distinct(order)
    ensures Safe(h, order)
    ensures Settled(p, PoolAfter(p, h, order, reuse), DescsOf(h, Elems(order) + {k}))
    decreases |order|
  {
    FinishedFirst(h, k, order);
    ReadFirst(p, h, k, order, reuse);
    hide Pending, Inv, Settled, Finished, Consume, Usable, Distinct, Elems, DescsOf;
    if |order| == 1 {
      assert order[1..] == [];
    } else {
      var g, q := Finished(h, order[0]), Consume(p, h, order[0], reuse);
      ReadsConsume(q, g, k, order[1..], reuse);
      SettledTwice(p, q, PoolAfter(q, g, order[1..], reuse), DescsOf(h, Gone(h, k, order[0])), DescsOf(g, Elems(order[1..]) + {k}));
    }
  }

  /** The requests that completing `w` gives back. */
  function Gone(h: Heap, k: WrId, w: WrId): set<WrId>
    requires k in h.live
  {
    (if w != k then {w} else {}) + (if h.live[k].refc == 1 then {k} else {})
  }

  lemma ReadFirst(p: Pool, h: Heap, k: WrId, order: seq<WrId>, reuse: bool)
    requires Inv(p) && Pending(h, k, Elems(order)) && Distinct(order) && order != [] && Usable(h, order[0])
    ensures var q := Consume(p, h, order[0], reuse);
            && Inv(q) && k in h.live && Settled(p, q, DescsOf(h, Gone(h, k, order[0])))
            && (|order| == 1 ==> Gone(h, k, order[0]) == Elems(order) + {k})
            && var g := Finished(h, order[0]);
               |order| > 1 ==> DescsOf(h, Gone(h, k, order[0])) + DescsOf(g, Elems(order[1..]) + {k}) == DescsOf(h, Elems(order) + {k})
  {
    DistinctSize(order);
    assert order[0] in order;
    ConsumeStep(p, h, k, order[0], reuse);
    if |order| == 1 {
      OnlyOne(order);
    } else {
      DescsLeft(h, Finished(h, order[0]), k, order);
    }
    hide Inv, DescsOf;
  }

  lemma DescsUnion(h: Heap, a: set<WrId>, b: set<WrId>)
    ensures DescsOf(h, a) + DescsOf(h, b) == DescsOf(h, a + b)
  {
  }

  lemma DescsSame(h: Heap, g: Heap, ws: set<WrId>)
    requires forall w :: w in ws ==> w in h.live && w in g.live && g.live[w].desc == h.live[w].desc
    ensures DescsOf(h, ws) == DescsOf(g, ws)
  {
  }

  /** What has not completed keeps its descriptor. */
  lemma RestLive(h: Heap, k: WrId, rest: set<WrId>, w: WrId)
    requires Pending(h, k, rest) && w in rest && |rest| > 1 && Usable(h, w)
    ensures forall v :: v in (rest - {w}) + {k} ==> v in h.live && v in Finished(h, w).live
    ensures forall v :: v in (rest - {w}) + {k} ==> Finished(h, w).live[v].desc == h.live[v].desc
  {
  }

  lemma DescsLeft(h: Heap, g: Heap, k: WrId, order: seq<WrId>)
    requires Pending(h, k, Elems(order)) && Distinct(order) && |order| > 1 && Usable(h, order[0]) && g == Finished(h, order[0])
    ensures h.live[k].refc > 1
    ensures DescsOf(h, Gone(h, k, order[0])) + DescsOf(g, Elems(order[1..]) + {k}) == DescsOf(h, Elems(order) + {k})
  {
    DistinctSize(order);
    DistinctTail(order);
    assert order[0] in order;
    var rest := (Elems(order) - {order[0]}) + {k};
    RestLive(h, k, Elems(order), order[0]);
    assert h.live[k].refc > 1;
    hide Pending, Distinct, Finished, Usable;
    DescsSame(h, g, rest);
    DescsUnion(h, Gone(h, k, order[0]), rest);
    assert order[0] in Elems(order);
    assert Gone(h, k, order[0]) + rest == Elems(order) + {k};
  }

  function GiveUp(p: Pool, d: DescId, reuse: bool): Pool {
    if reuse || d !in p.remote then p else FreeSlot(p, d)
  }

  // ---------------------------------------------------------------------------------------------
  // In place

  class Requests {
    var live: map<WrId, Wr>
    var pool: Pool
    ghost var freed: seq<WrId>

    ghost function View(): Heap
      reads this
    {
      Heap(live, freed)
    }

    constructor (p: Pool)
      ensures View() == Heap(map[], []) && pool == p
    {
      live, pool, freed := map[], p, [];
    }

    method PostRead(id: WrId, head: Option<WrId>, d: DescId)
      requires CanPost(View(), id, head)
      modifies this
      ensures View() == Post(old(View()), id, head, d) && pool == old(pool)
    {
      var k := if head.Some? then head.value else id;
      live := live[id := Wr(k, 0, d, [])];
      live := live[k := live[k].(refc := live[k].refc + 1)];
    }

    /** Gives back a donor copy nobody else shares, unless copies are kept for reuse. */
    method FreeRemote(d: DescId, reuse: bool)
      modifies this
      ensures pool == GiveUp(old(pool), d, reuse) && View() == old(View())
    {
      if !reuse && d in pool.remote {
        pool := FreeSlot(pool, d);
      }
    }

    method GiveBack(w: WrId)
      requires w in live
      modifies this
      ensures View() == Returned(old(View()), w) && pool == old(pool)
    {
      live := live - {w};
      freed := freed + [w];
    }

    /** One request off the head's count; true if that was the last. */
    method DecAndTest(k: WrId) returns (last: bool)
      requires k in live
      modifies this
      ensures View() == Drop(old(View()), k) && pool == old(pool) && (last <==> live[k].refc == 0)
    {
      live := live[k := live[k].(refc := live[k].refc - 1)];
      last := live[k].refc == 0;
    }

    method Consumed(w: WrId, reuse: bool)
      requires w in live
      modifies this
      ensures View() == Returned(old(View()), w) && pool == Settle(old(pool), old(live)[w].desc, reuse)
    {
      var d := live[w].desc;
      if d in pool.remote && (pool.remote[d].Cow? ==> pool.remote[d].crp in pool.crps) {
        pool := FetchDone(pool, d, reuse);
      }
      GiveBack(w);
    }

    method ClearFetching(w: WrId, reuse: bool)
      requires Usable(View(), w)
      modifies this
      ensures View() == Finished(old(View()), w) && pool == Consume(old(pool), old(View()), w, reuse)
    {
      var k := live[w].head;
      if w != k {
        Consumed(w, reuse);
      }
      var last := DecAndTest(k);
      if last {
        Consumed(k, reuse);
      }
    }

    /** Undoing a fetch keeps every donor copy. */
    method CancelRead(w: WrId)
      requires Usable(View(), w)
      modifies this
      ensures View() == Finished(old(View()), w) && pool == old(pool)
    {
      var k := live[w].head;
      if w != k {
        GiveBack(w);
      }
      var last := DecAndTest(k);
      if last {
        GiveBack(k);
      }
    }

    method GiveBackAll(ws: seq<WrId>)
      requires Distinct(ws) && forall w :: w in ws ==> w in live
      modifies this
      ensures View() == FreeAll(old(View()), ws) && pool == old(pool)
    {
      ghost var h := View();
      var i := 0;
      while i < |ws|
        invariant i <= |ws| && pool == old(pool)
        invariant live == h.live - Elems(ws[..i]) && freed == h.freed + ws[..i]
      {
        assert ws[..i + 1] == ws[..i] + [ws[i]];
        assert Elems(ws[..i + 1]) == Elems(ws[..i]) + {ws[i]};
        assert ws[i] in ws && ws[i] !in ws[..i];
        GiveBack(ws[i]);
        i := i + 1;
      }
      assert ws[..|ws|] == ws;
    }

    method ClearWriteback(w: WrId) returns (done: bool)
      requires Parkable(View(), w)
      modifies this
      ensures View() == Written(old(View()), w) && pool == old(pool)
      ensures done <==> old(live[live[w].head].refc) == 1
    {
      var k := live[w].head;
      if w != k {
        live := live[k := live[k].(chain := live[k].chain + [w])];
      }
      done := DecAndTest(k);
      if done {
        GiveBackAll(live[k].chain);
        GiveBack(k);
      }
    }
  }
}
