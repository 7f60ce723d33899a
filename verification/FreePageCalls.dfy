/**
  What one call gets and leaves when nobody else moves: an allocation finds a page whenever any list holds one, and a
  page given back stays with its cpu until that has too many.
 */
module FreePageCalls {
  import opened PageLists
  import opened FreePages

  const QUIET := Env(false, None)

  predicate Full(pool: Pool, i: nat) {
    i < |pool.lists| && pool.lists[i].items != []
  }

  // ---------------------------------------------------------------------------------------------
  // Getting a page

  /** The call ends with the first page of list `i`. */
  ghost predicate Takes(pool: Pool, r: Next, i: nat) {
    Full(pool, i) && r.pc == Has(pool.lists[i].items[0])
  }

  lemma PullTakes(cfg: Config, pool: Pool, i: nat, c: nat, otherwise: Pc)
    requires ListsExact(pool) && CpuOk(pool, c) && i < |pool.lists| && cfg.pull > 0
    ensures var r := PullOr(cfg, pool, i, c, otherwise);
            if Full(pool, i) then r.pc.Pulled? && r.pc.c == c && r.pc.t.items != [] && r.pc.t.items[0] == pool.lists[i].items[0]
            else r == Next(pool, otherwise)
  {
    var l := pool.lists[i];
    assert Exact(l);
  }

  lemma PulledTakes(cfg: Config, pool: Pool, q: Pool, i: nat, c: nat, t: L)
    requires ListsExact(q) && PcOk(q, Pulled(t, c)) && Full(pool, i) && t.items[0] == pool.lists[i].items[0]
    ensures Takes(pool, Finish(cfg, q, Pulled(t, c), QUIET), i)
  {
    PulledEnds(cfg, q, t, c, QUIET);
    hide Finish, ListsExact;
  }

  predicate OtherFull(pool: Pool, c: nat, k: nat)
    requires CpuOk(pool, c)
  {
    Full(pool, CpuAfter(c, k, |pool.lists| - 1) + 1)
  }

  /** The cpus after `c`, from the `n`-th on, have nothing. */
  ghost predicate NoneFrom(pool: Pool, c: nat, n: nat)
    requires CpuOk(pool, c)
  {
    forall k: nat :: n <= k < |pool.lists| - 1 ==> !OtherFull(pool, c, k)
  }

  /** A pull that ends with a page, or with nothing. */
  lemma AfterPull(cfg: Config, pool: Pool, q: Next, i: nat, c: nat, otherwise: Pc)
    requires ListsExact(q.pool) && PcOk(q.pool, q.pc) && (Full(pool, i) ==> q.pc.Pulled?)
    requires Full(pool, i) ==> q.pc.c == c && q.pc.t.items != [] && q.pc.t.items[0] == pool.lists[i].items[0]
    requires !Full(pool, i) ==> q == Next(pool, otherwise)
    ensures if Full(pool, i) then Takes(pool, Finish(cfg, q.pool, q.pc, QUIET), i) else q == Next(pool, otherwise)
  {
    hide Finish, ListsExact, PcOk;
    if Full(pool, i) {
      PulledTakes(cfg, pool, q.pool, i, c, q.pc.t);
    }
  }

  lemma NextOther(cfg: Config, pool: Pool, c: nat, n: nat)
    requires ListsExact(pool) && CpuOk(pool, c) && cfg.pull > 0 && n < |pool.lists| - 1
    ensures var r := Finish(cfg, pool, PullOthers(c, n), QUIET);
            if OtherFull(pool, c, n) then Takes(pool, r, CpuAfter(c, n, |pool.lists| - 1) + 1)
            else r == Finish(cfg, pool, PullOthers(c, n + 1), QUIET)
  {
    hide Finish, PullOr, ListsExact, CpuAfter, Takes, PcOk, Full;
    var i := CpuAfter(c, n, |pool.lists| - 1) + 1;
    OthersEnd(cfg, pool, c, n, QUIET);
    PullTakes(cfg, pool, i, c, PullOthers(c, n + 1));
    AfterPull(cfg, pool, PullOr(cfg, pool, i, c, PullOthers(c, n + 1)), i, c, PullOthers(c, n + 1));
  }

  lemma {:induction false} OthersTake(cfg: Config, pool: Pool, c: nat, n: nat)
    requires ListsExact(pool) && CpuOk(pool, c) && cfg.pull > 0
    ensures var r := Finish(cfg, pool, PullOthers(c, n), QUIET);
            if NoneFrom(pool, c, n) then r == Next(pool, Room(c)) else exists i: nat :: Takes(pool, r, i)
    decreases |pool.lists| - n
  {
    hide Finish, ListsExact, OtherFull, CpuAfter, Takes;
    if n < |pool.lists| - 1 {
      NextOther(cfg, pool, c, n);
      if !OtherFull(pool, c, n) {
        OthersTake(cfg, pool, c, n + 1);
      }
    } else {
      OthersEnd(cfg, pool, c, n, QUIET);
    }
  }

  /** Trying the cpus after `c` in turn leaves no other cpu out. */
  lemma EveryOtherTried(c: nat, d: nat, cpus: nat) returns (k: nat)
    requires c < cpus && d < cpus && c != d
    ensures 1 <= k < cpus && CpuAfter(c, k, cpus) == d
  {
    k := if d > c then d - c else d + cpus - c;
    if d < c {
      assert c + k == d + cpus;
    }
  }

  lemma NoneElsewhere(pool: Pool, c: nat)
    requires CpuOk(pool, c) && !Full(pool, 0) && !Full(pool, c + 1)
    ensures NoneFrom(pool, c, 1) <==> forall i: nat :: !Full(pool, i)
  {
    if NoneFrom(pool, c, 1) {
      forall i: nat
        ensures !Full(pool, i)
      {
        if Full(pool, i) {
          var k := EveryOtherTried(c, i - 1, |pool.lists| - 1);
          assert OtherFull(pool, c, k);
        }
      }
    }
  }

  /** An allocation gets a page exactly when some list holds one: the head of its own list if that holds any, which is
      all that changes then, and else the head of another. */
  lemma PopFindsPage(cfg: Config, pool: Pool, c: nat)
    requires ListsExact(pool) && CpuOk(pool, c) && cfg.pull > 0
    ensures var r := Finish(cfg, pool, Retry(c), QUIET);
            && (r.pc.Has? <==> exists i: nat :: Full(pool, i))
            && (Full(pool, c + 1) ==> Takes(pool, r, c + 1) && r.pool == SetList(pool, c + 1, Popped(pool.lists[c + 1])))
            && (!Full(pool, c + 1) && Full(pool, 0) ==> Takes(pool, r, 0))
            && (r.pc.Has? ==> exists i: nat :: Takes(pool, r, i))
            && (!r.pc.Has? ==> r == Next(pool, Room(c)))
  {
    assert Exact(pool.lists[c + 1]);
    FinishStep(cfg, pool, Retry(c), QUIET);
    if Full(pool, c + 1) {
      LastStep(cfg, pool, Retry(c), QUIET, PopOr(pool, c, PullGlobal(c)));
    } else {
      PullFinds(cfg, pool, c);
    }
  }

  lemma PullFinds(cfg: Config, pool: Pool, c: nat)
    requires ListsExact(pool) && CpuOk(pool, c) && cfg.pull > 0 && !Full(pool, c + 1)
    ensures var r := Finish(cfg, pool, PullGlobal(c), QUIET);
            && (r.pc.Has? <==> exists i: nat :: Full(pool, i))
            && (Full(pool, 0) ==> Takes(pool, r, 0))
            && (r.pc.Has? ==> exists i: nat :: Takes(pool, r, i))
            && (!r.pc.Has? ==> r == Next(pool, Room(c)))
  {
    FinishStep(cfg, pool, PullGlobal(c), QUIET);
    PullTakes(cfg, pool, 0, c, PullOthers(c, 1));
    var q := PullOr(cfg, pool, 0, c, PullOthers(c, 1));
    assert q == Step(cfg, pool, PullGlobal(c), QUIET);
    hide Finish, PullOr, Step, ListsExact;
    if Full(pool, 0) {
      PulledTakes(cfg, pool, q.pool, 0, c, q.pc.t);
    } else {
      OthersTake(cfg, pool, c, 1);
      NoneElsewhere(pool, c);
    }
  }

  // ---------------------------------------------------------------------------------------------
  // Giving a page back

  lemma CutSplits(l: L, count: nat)
    requires Exact(l) && 0 < count <= |l.items|
    ensures var cut := CutOff(l, count, NIL);
            cut.rest.items == l.items[count..] && cut.cut.items == l.items[..count] && cut.cut.len == count
  {
  }

  lemma SpillSplits(cfg: Config, pool: Pool, t: L, c: nat, locked: bool)
    requires ListsExact(pool) && PcOk(pool, Spilling(t, Some(c))) && t.len > 0
    ensures var r := Finish(cfg, pool, Spilling(t, Some(c)), Env(locked, None)).pool.lists;
            var i := if locked || t.len >= cfg.limit then 0 else c + 1;
            r == pool.lists[i := L(pool.lists[i].items + t.items, pool.lists[i].len + t.len)]
  {
    SpillEnds(cfg, pool, t, Some(c), Env(locked, None));
    hide Finish, ListsExact;
  }

  lemma KeepCuts(cfg: Config, pool: Pool, p: Page, c: nat, env: Env)
    requires ListsExact(pool) && CpuOk(pool, c) && |pool.lists[c + 1].items| + 1 > cfg.limit
    ensures var l := Pushed(pool.lists[c + 1], p);
            var cut := CutOff(l, l.len - cfg.limit / 2, NIL);
            var q := SetList(pool, c + 1, cut.rest);
            && ListsExact(q) && PcOk(q, Spilling(cut.cut, Some(c)))
            && Finish(cfg, pool, Keeping(p, Some(c)), env) == Finish(cfg, q, Spilling(cut.cut, Some(c)), env)
  {
    assert Exact(pool.lists[c + 1]);
    FinishStep(cfg, pool, Keeping(p, Some(c)), env);
    hide Finish, ListsExact, CutOff;
  }

  lemma KeepFits(cfg: Config, pool: Pool, p: Page, c: nat, env: Env)
    requires ListsExact(pool) && CpuOk(pool, c) && |pool.lists[c + 1].items| + 1 <= cfg.limit
    ensures Finish(cfg, pool, Keeping(p, Some(c)), env) == Next(SetList(pool, c + 1, Pushed(pool.lists[c + 1], p)), Idle)
  {
    assert Exact(pool.lists[c + 1]);
    LastStep(cfg, pool, Keeping(p, Some(c)), env, Next(SetList(pool, c + 1, Pushed(pool.lists[c + 1], p)), Idle));
  }

  /** Half the limit stays with the cpu when its list grew beyond the limit, the newest pages; what is cut off goes to
      the global list, or back behind them if the global list is busy and the cut is small. */
  lemma KeepSplits(cfg: Config, pool: Pool, p: Page, c: nat, locked: bool)
    requires ListsExact(pool) && CpuOk(pool, c)
    ensures var own := pool.lists[c + 1].items + [p];
            var lists := Finish(cfg, pool, Keeping(p, Some(c)), Env(locked, None)).pool.lists;
            var cut := |own| - cfg.limit / 2;
            && |lists| == |pool.lists|
            && (forall i :: 0 < i < |lists| && i != c + 1 ==> lists[i] == pool.lists[i])
            && (|own| <= cfg.limit ==> lists[c + 1].items == own && lists[0] == pool.lists[0])
            && (|own| > cfg.limit && (locked || cut >= cfg.limit) ==>
                  lists[c + 1].items == own[cut..] && lists[0].items == pool.lists[0].items + own[..cut])
            && (|own| > cfg.limit && !locked && cut < cfg.limit ==>
                  lists[c + 1].items == own[cut..] + own[..cut] && lists[0] == pool.lists[0])
  {
    var env := Env(locked, None);
    var l := Pushed(pool.lists[c + 1], p);
    assert Exact(l);
    hide Finish, ListsExact, CutOff;
    if l.len <= cfg.limit {
      KeepFits(cfg, pool, p, c, env);
    } else {
      KeepCuts(cfg, pool, p, c, env);
      CutSplits(l, l.len - cfg.limit / 2);
      var cut := CutOff(l, l.len - cfg.limit / 2, NIL);
      SpillSplits(cfg, SetList(pool, c + 1, cut.rest), cut.cut, c, locked);
    }
  }
}
