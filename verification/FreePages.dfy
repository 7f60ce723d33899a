/**
  Free pages: a global list, a list for every cpu, and pages got from and given back to the host.

  Threads push and pop at the same time.  What a thread does under one lock, or with one atomic operation, is
  one step; the steps of different threads interleave.
 */
module FreePages {
  import opened PageLists

  datatype Option<T> = None | Some(value: T)

  /** `sb`: pages of a subblock; `limit`: the most a cpu's list keeps; `pull`: how much is pulled; `max`: the cache. */
  datatype Config = Config(sb: nat, limit: nat, pull: nat, max: int)

  /** `lists[0]` is the global list, `lists[c + 1]` that of cpu `c`.  `host`: the pages got and not given back. */
  datatype Pool = Pool(lists: seq<L>, reclaim: int, allocLen: int, host: set<Page>)

  /** Where a thread is, and the pages it holds meanwhile. */
  datatype Pc =
    | Idle
    // giving a page back
    | Deciding(p: Page, on: Option<nat>)
    | Reserving(p: Page, on: Option<nat>)
    | Restoring(p: Page, on: Option<nat>)
    | Freeing(p: Page)
    | Freed
    | Keeping(p: Page, on: Option<nat>)
    | Spilling(t: L, on: Option<nat>)
    | Returning(t: L, c: nat)
    // getting one
    | TryLocal(c: nat)
    | Room(c: nat)
    | Passing(c: nat)
    | Got(p: Page)
    | Retry(c: nat)
    | PullGlobal(c: nat)
    | PullOthers(c: nat, n: nat)
    | Pulled(t: L, c: nat)
    | Giving(p: Page, t: L, c: nat)
    | Has(p: Page)

  /** Whether the global list's lock could be had at once; the page the host hands out, if any. */
  datatype Env = Env(locked: bool, page: Option<Page>)

  datatype Next = Next(pool: Pool, pc: Pc)

  // ---------------------------------------------------------------------------------------------
  // Steps

  function SetList(pool: Pool, i: nat, l: L): Pool
    requires i < |pool.lists|
  {
    pool.(lists := pool.lists[i := l])
  }

  predicate CpuOk(pool: Pool, c: nat) {
    c + 1 < |pool.lists|
  }

  predicate PcOk(pool: Pool, pc: Pc) {
    match pc
    case Deciding(_, on) => on.Some? ==> CpuOk(pool, on.value)
    case Reserving(_, on) => on.Some? ==> CpuOk(pool, on.value)
    case Restoring(_, on) => on.Some? ==> CpuOk(pool, on.value)
    case Keeping(_, on) => on.Some? ==> CpuOk(pool, on.value)
    case Spilling(t, on) => Exact(t) && (on.Some? ==> CpuOk(pool, on.value))
    case Returning(t, c) => Exact(t) && CpuOk(pool, c)
    case TryLocal(c) => CpuOk(pool, c)
    case Room(c) => CpuOk(pool, c)
    case Passing(c) => CpuOk(pool, c)
    case Retry(c) => CpuOk(pool, c)
    case PullGlobal(c) => CpuOk(pool, c)
    case PullOthers(c, _) => CpuOk(pool, c)
    case Pulled(t, c) => Exact(t) && t.items != [] && CpuOk(pool, c)
    case Giving(_, t, c) => Exact(t) && CpuOk(pool, c)
    case _ => true
  }

  predicate ListsExact(pool: Pool) {
    pool.lists != [] && forall i: nat :: i < |pool.lists| ==> Exact(pool.lists[i])
  }

  function PopOr(pool: Pool, c: nat, otherwise: Pc): Next
    requires CpuOk(pool, c)
  {
    var l := pool.lists[c + 1];
    if l.len == 0 || l.items == [] then Next(pool, otherwise) else Next(SetList(pool, c + 1, Popped(l)), Has(l.items[0]))
  }

  /** Pulls from list `i`, if there is anything on it. */
  function PullOr(cfg: Config, pool: Pool, i: nat, c: nat, otherwise: Pc): Next
    requires i < |pool.lists| && ListsExact(pool)
  {
    var l := pool.lists[i];
    if l.len <= 0 then Next(pool, otherwise)
    else
      var cut := CutOff(l, cfg.pull, NIL);
      Next(SetList(pool, i, cut.rest), if cut.cut.len == 0 then otherwise else Pulled(cut.cut, c))
  }

  function Keep(cfg: Config, pool: Pool, p: Page, on: Option<nat>): Next
    requires ListsExact(pool) && (on.Some? ==> CpuOk(pool, on.value))
  {
    if on.None? then Next(pool, Spilling(L([p], 1), None))
    else
      var l := Pushed(pool.lists[on.value + 1], p);
      if l.len <= cfg.limit then Next(SetList(pool, on.value + 1, l), Idle)
      else
        var cut := CutOff(l, l.len - cfg.limit / 2, NIL);
        Next(SetList(pool, on.value + 1, cut.rest), Spilling(cut.cut, on))
  }

  /** The cut goes to the global list; a small one comes back if that list is busy. */
  function Spill(cfg: Config, pool: Pool, t: L, on: Option<nat>, locked: bool): Next
    requires pool.lists != []
  {
    if t.len == 0 then Next(pool, Idle)
    else if on.Some? && t.len < cfg.limit && !locked then Next(pool, Returning(t, on.value))
    else Next(SetList(pool, 0, Spliced(pool.lists[0], t)), Idle)
  }

  /** The `n`-th cpu after `c`. */
  function CpuAfter(c: nat, n: nat, cpus: nat): (v: nat)
    requires cpus > 0
    ensures v < cpus
  {
    (c + n) % cpus
  }

  function PullNext(cfg: Config, pool: Pool, c: nat, n: nat): Next
    requires ListsExact(pool)
  {
    var cpus := |pool.lists| - 1;
    if n >= cpus then Next(pool, Room(c)) else PullOr(cfg, pool, CpuAfter(c, n, cpus) + 1, c, PullOthers(c, n + 1))
  }

  function Step(cfg: Config, pool: Pool, pc: Pc, env: Env): Next
    requires ListsExact(pool) && PcOk(pool, pc)
  {
    match pc
    case Deciding(p, on) => Next(pool, if pool.reclaim >= cfg.sb then Reserving(p, on) else Keeping(p, on))
    case Reserving(p, on) =>
      var r := pool.reclaim - cfg.sb;
      Next(pool.(reclaim := r), if r >= 0 then Freeing(p) else Restoring(p, on))
    case Restoring(p, on) => Next(pool.(reclaim := pool.reclaim + cfg.sb), Keeping(p, on))
    case Freeing(p) => Next(pool.(host := pool.host - {p}), Freed)
    case Freed => Next(pool.(allocLen := pool.allocLen - cfg.sb), Idle)
    case Keeping(p, on) => Keep(cfg, pool, p, on)
    case Spilling(t, on) => Spill(cfg, pool, t, on, env.locked)
    case Returning(t, c) => Next(SetList(pool, c + 1, Spliced(pool.lists[c + 1], t)), Idle)
    case TryLocal(c) => PopOr(pool, c, Room(c))
    case Room(c) => Next(pool, if pool.allocLen < cfg.max then Passing(c) else Retry(c))
    case Passing(c) =>
      if env.page.None? then Next(pool, Retry(c)) else Next(pool.(host := pool.host + {env.page.value}), Got(env.page.value))
    case Got(p) => Next(pool.(allocLen := pool.allocLen + cfg.sb), Has(p))
    case Retry(c) => PopOr(pool, c, PullGlobal(c))
    case PullGlobal(c) => PullOr(cfg, pool, 0, c, PullOthers(c, 1))
    case PullOthers(c, n) => PullNext(cfg, pool, c, n)
    case Pulled(t, c) => Next(pool, FirstOf(t, c))
    case Giving(p, t, c) => Next(SetList(pool, c + 1, Spliced(pool.lists[c + 1], t)), Has(p))
    case Idle => Next(pool, pc)
    case Has(_) => Next(pool, pc)
  }

  // ---------------------------------------------------------------------------------------------
  // Pages

  function ListPages(ls: seq<L>): multiset<Page>
    decreases |ls|
  {
    if ls == [] then multiset{} else multiset(ls[0].items) + ListPages(ls[1..])
  }

  function Held(pc: Pc): multiset<Page> {
    match pc
    case Deciding(p, _) => multiset{p}
    case Reserving(p, _) => multiset{p}
    case Restoring(p, _) => multiset{p}
    case Freeing(p) => multiset{p}
    case Keeping(p, _) => multiset{p}
    case Spilling(t, _) => multiset(t.items)
    case Returning(t, _) => multiset(t.items)
    case Got(p) => multiset{p}
    case Pulled(t, _) => multiset(t.items)
    case Giving(p, t, _) => multiset([p] + t.items)
    case Has(p) => multiset{p}
    case _ => multiset{}
  }

  lemma Front(h: multiset<Page>, a: multiset<Page>, o: multiset<Page>, b: multiset<Page>, n: multiset<Page>)
    requires a + o == b + n
    ensures (h + a) + o == (h + b) + n
  {
    assert (h + a) + o == h + (a + o) && (h + b) + n == h + (b + n);
  }

  lemma Swap(n: multiset<Page>, t: multiset<Page>, h: multiset<Page>)
    ensures (n + t) + h == (h + t) + n
  {
  }

  lemma {:induction false} ListSet(ls: seq<L>, i: nat, l: L)
    requires i < |ls|
    ensures ListPages(ls[i := l]) + multiset(ls[i].items) == ListPages(ls) + multiset(l.items)
    decreases |ls|
  {
    var r := ls[i := l];
    var h, t := multiset(ls[0].items), ListPages(ls[1..]);
    if i == 0 {
      assert r[1..] == ls[1..];
      Swap(multiset(l.items), t, h);
    } else {
      ListSet(ls[1..], i - 1, l);
      assert r[1..] == ls[1..][i - 1 := l];
      Front(h, ListPages(r[1..]), multiset(ls[i].items), t, multiset(l.items));
    }
  }

  /** A step moves pages between lists, thread and host; it makes none and loses none. */
  ghost predicate Balanced(pool: Pool, pc: Pc, r: Next) {
    ListPages(r.pool.lists) + Held(r.pc) + multiset(pool.host) == ListPages(pool.lists) + Held(pc) + multiset(r.pool.host)
  }

  ghost predicate StepEnabled(pool: Pool, pc: Pc, env: Env) {
    && (pc.Passing? && env.page.Some? ==> env.page.value !in pool.host)
    && (pc.Freeing? ==> pc.p in pool.host)
  }

  lemma Shift(a: multiset<Page>, b: multiset<Page>, o: multiset<Page>, n: multiset<Page>, h: multiset<Page>, k: multiset<Page>)
    requires a + o == b + n && o + h == n + k
    ensures a + k == b + h
  {
    forall x: Page
      ensures (a + k)[x] == (b + h)[x]
    {
      assert (a + o)[x] == (b + n)[x] && (o + h)[x] == (n + k)[x];
    }
  }

  /** A step on one list. */
  ghost predicate Moves(pool: Pool, pc: Pc, r: Next) {
    && ListsExact(r.pool) && PcOk(r.pool, r.pc) && |r.pool.lists| == |pool.lists| && r.pool.host == pool.host
    && ListPages(r.pool.lists) + Held(r.pc) == ListPages(pool.lists) + Held(pc)
  }

  lemma MoveOne(pool: Pool, i: nat, l: L, pc: Pc, next: Pc)
    requires ListsExact(pool) && i < |pool.lists| && Exact(l) && PcOk(pool, next)
    requires multiset(pool.lists[i].items) + Held(pc) == multiset(l.items) + Held(next)
    ensures Moves(pool, pc, Next(SetList(pool, i, l), next))
  {
    ListSet(pool.lists, i, l);
    Shift(ListPages(pool.lists[i := l]), ListPages(pool.lists), multiset(pool.lists[i].items), multiset(l.items), Held(pc), Held(next));
  }

  lemma PcStays(pool: Pool, r: Pool, pc: Pc)
    requires |r.lists| == |pool.lists|
    ensures PcOk(r, pc) <==> PcOk(pool, pc)
  {
  }

  lemma KeptList(l0: L, p: Page, count: int)
    requires Exact(l0) && count > 0
    ensures var cut := CutOff(Pushed(l0, p), count, NIL);
            && Exact(cut.rest) && Exact(cut.cut)
            && multiset(l0.items) + multiset{p} == multiset(cut.rest.items) + multiset(cut.cut.items)
  {
    CutKeepsIff(Pushed(l0, p), count, NIL);
    assert multiset(Pushed(l0, p).items) == multiset(l0.items) + multiset{p};
  }

  lemma KeepLocal(pool: Pool, p: Page, c: nat)
    requires ListsExact(pool) && CpuOk(pool, c)
    ensures Moves(pool, Keeping(p, Some(c)), Next(SetList(pool, c + 1, Pushed(pool.lists[c + 1], p)), Idle))
  {
    hide ListPages, Moves;
    var l := Pushed(pool.lists[c + 1], p);
    assert multiset(pool.lists[c + 1].items) + multiset{p} == multiset(l.items);
    MoveOne(pool, c + 1, l, Keeping(p, Some(c)), Idle);
  }

  lemma KeepCut(pool: Pool, p: Page, c: nat, count: int)
    requires ListsExact(pool) && CpuOk(pool, c) && count > 0
    ensures var cut := CutOff(Pushed(pool.lists[c + 1], p), count, NIL);
            Moves(pool, Keeping(p, Some(c)), Next(SetList(pool, c + 1, cut.rest), Spilling(cut.cut, Some(c))))
  {
    hide ListPages, Moves, CutOff;
    KeptList(pool.lists[c + 1], p, count);
    var cut := CutOff(Pushed(pool.lists[c + 1], p), count, NIL);
    MoveOne(pool, c + 1, cut.rest, Keeping(p, Some(c)), Spilling(cut.cut, Some(c)));
  }

  lemma KeepMoves(cfg: Config, pool: Pool, p: Page, on: Option<nat>)
    requires ListsExact(pool) && (on.Some? ==> CpuOk(pool, on.value))
    ensures Moves(pool, Keeping(p, on), Keep(cfg, pool, p, on))
  {
    hide ListPages, Moves, CutOff, SetList;
    if on.Some? {
      var l := Pushed(pool.lists[on.value + 1], p);
      if l.len <= cfg.limit {
        KeepLocal(pool, p, on.value);
      } else {
        KeepCut(pool, p, on.value, l.len - cfg.limit / 2);
      }
    } else {
      StayMoves(pool, Keeping(p, on), Spilling(L([p], 1), None));
    }
    hide ListsExact, PcOk, Held;
  }

  lemma PopMoves(pool: Pool, c: nat, otherwise: Pc, pc: Pc)
    requires ListsExact(pool) && CpuOk(pool, c) && PcOk(pool, otherwise) && Held(otherwise) == Held(pc) == multiset{}
    ensures Moves(pool, pc, PopOr(pool, c, otherwise))
  {
    var l := pool.lists[c + 1];
    if l.items != [] {
      assert l.items == [l.items[0]] + l.items[1..];
      MoveOne(pool, c + 1, Popped(l), pc, Has(l.items[0]));
    }
  }

  lemma PullMoves(cfg: Config, pool: Pool, i: nat, c: nat, otherwise: Pc, pc: Pc)
    requires ListsExact(pool) && i < |pool.lists| && CpuOk(pool, c) && PcOk(pool, otherwise)
    requires Held(otherwise) == Held(pc) == multiset{}
    ensures Moves(pool, pc, PullOr(cfg, pool, i, c, otherwise))
  {
    var l := pool.lists[i];
    if l.len > 0 {
      var cut := CutOff(l, cfg.pull, NIL);
      if cfg.pull > 0 {
        CutKeepsIff(l, cfg.pull, NIL);
      }
      MoveOne(pool, i, cut.rest, pc, if cut.cut.len == 0 then otherwise else Pulled(cut.cut, c));
    }
  }

  lemma SpliceMoves(pool: Pool, i: nat, t: L, pc: Pc, next: Pc)
    requires ListsExact(pool) && i < |pool.lists| && Exact(t) && Held(pc) == Held(next) + multiset(t.items) && PcOk(pool, next)
    ensures Moves(pool, pc, Next(SetList(pool, i, Spliced(pool.lists[i], t)), next))
  {
    var l := pool.lists[i];
    assert multiset(l.items + t.items) == multiset(l.items) + multiset(t.items);
    MoveOne(pool, i, Spliced(l, t), pc, next);
  }

  /** Only two steps deal with the host. */
  lemma HostBalanced(cfg: Config, pool: Pool, pc: Pc, env: Env)
    requires ListsExact(pool) && PcOk(pool, pc) && StepEnabled(pool, pc, env) && (pc.Freeing? || pc.Passing?)
    ensures var r := Step(cfg, pool, pc, env);
            ListsExact(r.pool) && PcOk(r.pool, r.pc) && Balanced(pool, pc, r) && r.pool.lists == pool.lists
  {
    hide ListPages;
    if pc.Freeing? {
      assert multiset(pool.host - {pc.p}) + multiset{pc.p} == multiset(pool.host);
    } else if env.page.Some? {
      assert multiset(pool.host + {env.page.value}) == multiset(pool.host) + multiset{env.page.value};
    }
  }

  lemma SpillMoves(cfg: Config, pool: Pool, t: L, on: Option<nat>, locked: bool)
    requires ListsExact(pool) && Exact(t) && (on.Some? ==> CpuOk(pool, on.value))
    ensures Moves(pool, Spilling(t, on), Spill(cfg, pool, t, on, locked))
  {
    hide Moves, ListPages;
    SpliceMoves(pool, 0, t, Spilling(t, on), Idle);
    if t.len == 0 {
      StayMoves(pool, Spilling(t, on), Idle);
    } else if on.Some? {
      StayMoves(pool, Spilling(t, on), Returning(t, on.value));
    }
  }

  lemma NextMoves(cfg: Config, pool: Pool, c: nat, n: nat)
    requires ListsExact(pool) && CpuOk(pool, c)
    ensures Moves(pool, PullOthers(c, n), PullNext(cfg, pool, c, n))
  {
    hide Moves, ListPages, PullOr, ListsExact, CpuAfter;
    var cpus := |pool.lists| - 1;
    if n >= cpus {
      StayMoves(pool, PullOthers(c, n), Room(c));
    } else {
      PullMoves(cfg, pool, CpuAfter(c, n, cpus) + 1, c, PullOthers(c, n + 1), PullOthers(c, n));
    }
  }

  lemma StayMoves(pool: Pool, pc: Pc, next: Pc)
    requires ListsExact(pool) && PcOk(pool, next) && Held(next) == Held(pc)
    ensures Moves(pool, pc, Next(pool, next))
  {
  }

  lemma CountMoves(pool: Pool, r: Pool, pc: Pc, next: Pc)
    requires ListsExact(pool) && PcOk(pool, next) && Held(next) == Held(pc) && r.lists == pool.lists && r.host == pool.host
    ensures Moves(pool, pc, Next(r, next))
  {
  }

  lemma SpliceSteps(cfg: Config, pool: Pool, pc: Pc, env: Env)
    requires ListsExact(pool) && PcOk(pool, pc) && (pc.Returning? || pc.Giving?)
    ensures Moves(pool, pc, Step(cfg, pool, pc, env))
  {
    hide Moves, ListPages, PopOr, PullOr, PullNext, Spill, Keep, SetList, Spliced, CutOff;
    match pc {
      case Returning(t, c) => SpliceMoves(pool, c + 1, t, pc, Idle);
      case Giving(p, t, c) => SpliceMoves(pool, c + 1, t, pc, Has(p));
    }
    hide PcOk, Held, ListsExact, Exact, CpuOk;
  }

  lemma PushSteps(cfg: Config, pool: Pool, pc: Pc, env: Env)
    requires ListsExact(pool) && PcOk(pool, pc) && (pc.Keeping? || pc.Spilling?)
    ensures Moves(pool, pc, Step(cfg, pool, pc, env))
  {
    hide Moves, ListPages, Spill, Keep;
    match pc {
      case Keeping(p, on) => KeepMoves(cfg, pool, p, on);
      case Spilling(t, on) => SpillMoves(cfg, pool, t, on, env.locked);
    }
    hide PcOk, Held, ListsExact, Exact, CpuOk;
  }

  lemma PopSteps(cfg: Config, pool: Pool, pc: Pc, env: Env)
    requires ListsExact(pool) && PcOk(pool, pc) && (pc.TryLocal? || pc.Retry?)
    ensures Moves(pool, pc, Step(cfg, pool, pc, env))
  {
    hide Moves, ListPages, PopOr, PullOr, PullNext, Spill, Keep, SetList, Spliced, CutOff;
    match pc {
      case TryLocal(c) => PopMoves(pool, c, Room(c), pc);
      case Retry(c) => PopMoves(pool, c, PullGlobal(c), pc);
    }
    hide PcOk, Held, ListsExact, Exact, CpuOk;
  }

  lemma PullSteps(cfg: Config, pool: Pool, pc: Pc, env: Env)
    requires ListsExact(pool) && PcOk(pool, pc) && (pc.PullGlobal? || pc.PullOthers?)
    ensures Moves(pool, pc, Step(cfg, pool, pc, env))
  {
    hide Moves, ListPages, PopOr, PullOr, PullNext, Spill, Keep, SetList, Spliced, CutOff;
    match pc {
      case PullGlobal(c) => PullMoves(cfg, pool, 0, c, PullOthers(c, 1), pc);
      case PullOthers(c, n) => NextMoves(cfg, pool, c, n);
    }
    hide PcOk, Held, ListsExact, Exact, CpuOk;
  }

  lemma CountSteps(cfg: Config, pool: Pool, pc: Pc, env: Env)
    requires ListsExact(pool) && PcOk(pool, pc) && (pc.Deciding? || pc.Reserving? || pc.Restoring?)
    ensures Moves(pool, pc, Step(cfg, pool, pc, env))
  {
    hide Moves, ListPages, PopOr, PullOr, PullNext, Spill, Keep, SetList, Spliced, CutOff;
    match pc {
      case Deciding(p, on) => StayMoves(pool, pc, if pool.reclaim >= cfg.sb then Reserving(p, on) else Keeping(p, on));
      case Reserving(p, on) =>
        var r := pool.reclaim - cfg.sb;
        CountMoves(pool, pool.(reclaim := r), pc, if r >= 0 then Freeing(p) else Restoring(p, on));
      case Restoring(p, on) => CountMoves(pool, pool.(reclaim := pool.reclaim + cfg.sb), pc, Keeping(p, on));
    }
    hide PcOk, Held, ListsExact, Exact, CpuOk;
  }

  lemma LengthSteps(cfg: Config, pool: Pool, pc: Pc, env: Env)
    requires ListsExact(pool) && PcOk(pool, pc) && (pc.Freed? || pc.Got?)
    ensures Moves(pool, pc, Step(cfg, pool, pc, env))
  {
    hide Moves, ListPages, ListsExact;
    if pc.Freed? {
      CountMoves(pool, pool.(allocLen := pool.allocLen - cfg.sb), pc, Idle);
    } else {
      CountMoves(pool, pool.(allocLen := pool.allocLen + cfg.sb), pc, Has(pc.p));
    }
    hide PcOk, Held;
  }

  lemma FirstPulled(t: L)
    requires Exact(t) && t.items != []
    ensures [t.items[0]] + Popped(t).items == t.items && Exact(Popped(t))
    ensures Popped(t).len == 0 ==> [t.items[0]] == t.items
  {
  }

  function FirstOf(t: L, c: nat): Pc
    requires t.items != []
  {
    if Popped(t).len > 0 then Giving(t.items[0], Popped(t), c) else Has(t.items[0])
  }

  lemma FirstHeld(pool: Pool, t: L, c: nat)
    requires Exact(t) && t.items != [] && CpuOk(pool, c)
    ensures Held(FirstOf(t, c)) == multiset(t.items) && PcOk(pool, FirstOf(t, c))
  {
    FirstPulled(t);
    if Popped(t).len <= 0 {
      assert [t.items[0]] == t.items;
    }
  }

  lemma PulledStep(cfg: Config, pool: Pool, t: L, c: nat, env: Env)
    requires ListsExact(pool) && PcOk(pool, Pulled(t, c))
    ensures Moves(pool, Pulled(t, c), Step(cfg, pool, Pulled(t, c), env))
  {
    FirstHeld(pool, t, c);
    hide Moves, ListPages, FirstOf, Popped;
    StayMoves(pool, Pulled(t, c), FirstOf(t, c));
    hide PcOk, Held, ListsExact;
  }

  lemma StaySteps(cfg: Config, pool: Pool, pc: Pc, env: Env)
    requires ListsExact(pool) && PcOk(pool, pc) && (pc.Room? || pc.Idle? || pc.Has?)
    ensures Moves(pool, pc, Step(cfg, pool, pc, env))
  {
    hide Moves, ListPages, PopOr, PullOr, PullNext, Spill, Keep, SetList, Spliced, CutOff;
    match pc {
      case Room(c) => StayMoves(pool, pc, if pool.allocLen < cfg.max then Passing(c) else Retry(c));
      case Idle => StayMoves(pool, pc, pc);
      case Has(_) => StayMoves(pool, pc, pc);
    }
    hide PcOk, Held, ListsExact, Exact, CpuOk;
  }

  lemma ListStepMoves(cfg: Config, pool: Pool, pc: Pc, env: Env)
    requires ListsExact(pool) && PcOk(pool, pc) && !pc.Freeing? && !pc.Passing?
    ensures Moves(pool, pc, Step(cfg, pool, pc, env))
  {
    hide Moves, Step, ListsExact;
    match pc {
      case Keeping(_, _) => PushSteps(cfg, pool, pc, env);
      case Spilling(_, _) => PushSteps(cfg, pool, pc, env);
      case Returning(_, _) => SpliceSteps(cfg, pool, pc, env);
      case Giving(_, _, _) => SpliceSteps(cfg, pool, pc, env);
      case TryLocal(_) => PopSteps(cfg, pool, pc, env);
      case Retry(_) => PopSteps(cfg, pool, pc, env);
      case PullGlobal(_) => PullSteps(cfg, pool, pc, env);
      case PullOthers(_, _) => PullSteps(cfg, pool, pc, env);
      case Room(_) => StaySteps(cfg, pool, pc, env);
      case Pulled(t, c) => PulledStep(cfg, pool, t, c, env);
      case Idle => StaySteps(cfg, pool, pc, env);
      case Has(_) => StaySteps(cfg, pool, pc, env);
      case Freed => LengthSteps(cfg, pool, pc, env);
      case Got(_) => LengthSteps(cfg, pool, pc, env);
      case _ => CountSteps(cfg, pool, pc, env);
    }
  }

  lemma StepBalanced(cfg: Config, pool: Pool, pc: Pc, env: Env)
    requires ListsExact(pool) && PcOk(pool, pc) && StepEnabled(pool, pc, env)
    ensures var r := Step(cfg, pool, pc, env);
            ListsExact(r.pool) && PcOk(r.pool, r.pc) && Balanced(pool, pc, r) && |r.pool.lists| == |pool.lists|
  {
    if pc.Freeing? || pc.Passing? {
      HostBalanced(cfg, pool, pc, env);
    } else {
      ListStepMoves(cfg, pool, pc, env);
    }
    hide Step, ListsExact, PcOk, Held, ListPages;
  }

  // ---------------------------------------------------------------------------------------------
  // All threads

  /** `inUse`: the pages handed out; `budget`: what was ever asked to be given back to the host; `reclaimed`: the
      subblocks that pushes agreed to give back. */
  datatype State = State(pool: Pool, pcs: seq<Pc>, inUse: multiset<Page>, budget: int, reclaimed: nat)

  datatype Event =
    | StepOf(k: nat, env: Env)
    | BeginPush(k: nat, p: Page, on: Option<nat>)
    | BeginAlloc(k: nat, c: nat)
    | Use(k: nat)
    | AskBack(pages: nat)

  function HeldAll(pcs: seq<Pc>): multiset<Page>
    decreases |pcs|
  {
    if pcs == [] then multiset{} else Held(pcs[0]) + HeldAll(pcs[1..])
  }

  /** Pages given back but still counted, less those got and not counted yet. */
  datatype Tally = Owed | Claimed | Coming

  function Weight(sb: nat, w: Tally, pc: Pc): int {
    match w
    case Owed => if pc.Freed? then sb else if pc.Got? then 0 - sb else 0
    case Claimed => if pc.Restoring? then sb else 0
    case Coming => if pc.Passing? || pc.Got? then sb else 0
  }

  function Sum(sb: nat, w: Tally, pcs: seq<Pc>): int
    decreases |pcs|
  {
    if pcs == [] then 0 else Weight(sb, w, pcs[0]) + Sum(sb, w, pcs[1..])
  }

  lemma {:induction false} SumSet(sb: nat, w: Tally, pcs: seq<Pc>, k: nat, pc: Pc)
    requires k < |pcs|
    ensures Sum(sb, w, pcs[k := pc]) == Sum(sb, w, pcs) - Weight(sb, w, pcs[k]) + Weight(sb, w, pc)
    decreases |pcs|
  {
    var r := pcs[k := pc];
    if k == 0 {
      assert r[1..] == pcs[1..];
    } else {
      SumSet(sb, w, pcs[1..], k - 1, pc);
      assert r[1..] == pcs[1..][k - 1 := pc];
    }
  }

  lemma {:induction false} HeldSet(pcs: seq<Pc>, k: nat, pc: Pc)
    requires k < |pcs|
    ensures HeldAll(pcs[k := pc]) + Held(pcs[k]) == HeldAll(pcs) + Held(pc)
    decreases |pcs|
  {
    hide Held;
    var r := pcs[k := pc];
    var h, t := Held(pcs[0]), HeldAll(pcs[1..]);
    if k == 0 {
      assert r[1..] == pcs[1..];
      Swap(Held(pc), t, h);
    } else {
      HeldSet(pcs[1..], k - 1, pc);
      assert r[1..] == pcs[1..][k - 1 := pc];
      Front(h, HeldAll(r[1..]), Held(pcs[k]), t, Held(pc));
    }
  }

  /** No thread counts twice on the limit. */
  lemma {:induction false} ComingBound(sb: nat, pcs: seq<Pc>)
    ensures 0 <= Sum(sb, Coming, pcs) <= sb * |pcs|
    decreases |pcs|
  {
    if pcs != [] {
      ComingBound(sb, pcs[1..]);
      assert sb * |pcs| == sb * |pcs[1..]| + sb;
    }
  }

  // ---------------------------------------------------------------------------------------------
  // The invariant

  /** Every page got from the host is on a list, with a thread, or in use; each once. */
  ghost predicate Conserved(s: State) {
    ListPages(s.pool.lists) + HeldAll(s.pcs) + s.inUse == multiset(s.pool.host)
  }

  function Cap(cfg: Config): nat {
    if cfg.max > 0 then cfg.max - 1 else 0
  }

  ghost predicate Counted(cfg: Config, s: State) {
    && s.pool.allocLen == cfg.sb * |s.pool.host| + Sum(cfg.sb, Owed, s.pcs)
    && s.pool.reclaim + Sum(cfg.sb, Claimed, s.pcs) + cfg.sb * s.reclaimed == s.budget
    && cfg.sb * s.reclaimed <= s.budget
    && s.pool.allocLen + Sum(cfg.sb, Coming, s.pcs) <= Cap(cfg) + cfg.sb * |s.pcs|
  }

  ghost predicate Inv(cfg: Config, s: State) {
    && ListsExact(s.pool) && (forall k: nat :: k < |s.pcs| ==> PcOk(s.pool, s.pcs[k]))
    && Conserved(s) && Counted(cfg, s)
  }

  ghost predicate Enabled(cfg: Config, s: State, e: Event) {
    match e
    case StepOf(k, env) => k < |s.pcs| && (s.pcs[k].Passing? && env.page.Some? ==> env.page.value !in s.pool.host)
    case BeginPush(k, p, on) => k < |s.pcs| && s.pcs[k].Idle? && p in s.inUse && (on.Some? ==> CpuOk(s.pool, on.value))
    case BeginAlloc(k, c) => k < |s.pcs| && s.pcs[k].Idle? && CpuOk(s.pool, c)
    case Use(k) => k < |s.pcs| && s.pcs[k].Has?
    case AskBack(_) => true
  }

  function At(s: State, k: nat, pc: Pc): State
    requires k < |s.pcs|
  {
    s.(pcs := s.pcs[k := pc])
  }

  ghost function Apply(cfg: Config, s: State, e: Event): State
    requires Inv(cfg, s) && Enabled(cfg, s, e)
  {
    match e
    case StepOf(k, env) =>
      var r := Step(cfg, s.pool, s.pcs[k], env);
      At(s, k, r.pc).(pool := r.pool, reclaimed := s.reclaimed + (if s.pcs[k].Reserving? && r.pc.Freeing? then 1 else 0))
    case BeginPush(k, p, on) => At(s, k, Deciding(p, on)).(inUse := s.inUse - multiset{p})
    case BeginAlloc(k, c) => At(s, k, TryLocal(c))
    case Use(k) => At(s, k, Idle).(inUse := s.inUse + multiset{s.pcs[k].p})
    case AskBack(n) => s.(pool := s.pool.(reclaim := s.pool.reclaim + n), budget := s.budget + n)
  }

  // ---------------------------------------------------------------------------------------------
  // Every event keeps it

  lemma {:induction false} HeldIn(pcs: seq<Pc>, k: nat, p: Page)
    requires k < |pcs| && p in Held(pcs[k])
    ensures p in HeldAll(pcs)
    decreases |pcs|
  {
    if k > 0 {
      HeldIn(pcs[1..], k - 1, p);
    }
  }

  lemma Recombine(lp: multiset<Page>, lq: multiset<Page>, h: multiset<Page>, h2: multiset<Page>, ha: multiset<Page>, hb: multiset<Page>,
                  u: multiset<Page>, v: multiset<Page>, m: multiset<Page>, n: multiset<Page>)
    requires lq + h2 + v + m == lp + h + u + n && hb + h == ha + h2 && lp + ha + u == m
    ensures lq + hb + v == n
  {
    forall x: Page
      ensures (lq + hb + v)[x] == n[x]
    {
      assert (lq + h2 + v + m)[x] == (lp + h + u + n)[x] && (hb + h)[x] == (ha + h2)[x] && (lp + ha + u)[x] == m[x];
    }
  }

  lemma HostSize(host: set<Page>, p: Page)
    ensures p in host ==> |host - {p}| == |host| - 1
    ensures p !in host ==> |host + {p}| == |host| + 1
  {
  }

  /** What a step from `pc` to `next` adds to the pages got from the host. */
  function Gain(sb: nat, pc: Pc, next: Pc): int {
    if pc.Freeing? then 0 - sb else if pc.Passing? && next.Got? then sb else 0
  }

  lemma HostGain(cfg: Config, pool: Pool, pc: Pc, env: Env)
    requires ListsExact(pool) && PcOk(pool, pc) && StepEnabled(pool, pc, env)
    ensures var r := Step(cfg, pool, pc, env);
            cfg.sb * |r.pool.host| == cfg.sb * |pool.host| + Gain(cfg.sb, pc, r.pc)
  {
    var r := Step(cfg, pool, pc, env);
    HostOnly(cfg, pool, pc, env);
    hide Step, ListsExact, PcOk;
    if pc.Freeing? {
      HostSize(pool.host, pc.p);
      assert |r.pool.host| == |pool.host| - 1;
      OneLess(cfg.sb, |pool.host|);
    } else if pc.Passing? && env.page.Some? {
      HostSize(pool.host, env.page.value);
      assert |r.pool.host| == |pool.host| + 1;
      OneMore(cfg.sb, |pool.host|);
    }
  }

  /** Only two steps change what was got from the host. */
  lemma HostOnly(cfg: Config, pool: Pool, pc: Pc, env: Env)
    requires ListsExact(pool) && PcOk(pool, pc)
    ensures var r := Step(cfg, pool, pc, env);
            && r.pool.host == (if pc.Freeing? then pool.host - {pc.p}
                               else if pc.Passing? && env.page.Some? then pool.host + {env.page.value} else pool.host)
            && (pc.Passing? && r.pc.Got? <==> pc.Passing? && env.page.Some?)
  {
    hide CutOff, ListsExact, PcOk;
  }

  lemma OneMore(sb: nat, n: nat)
    ensures sb * (n + 1) == sb * n + sb
  {
  }

  lemma OneLess(sb: nat, n: int)
    ensures sb * (n - 1) == sb * n - sb
  {
  }

  /** What a step does to the counters is what it does to the thread's share of them. */
  lemma StepCounts(cfg: Config, pool: Pool, pc: Pc, env: Env)
    requires ListsExact(pool) && PcOk(pool, pc)
    ensures var r := Step(cfg, pool, pc, env);
            && r.pool.allocLen - Weight(cfg.sb, Owed, r.pc) == pool.allocLen - Weight(cfg.sb, Owed, pc) + Gain(cfg.sb, pc, r.pc)
            && r.pool.reclaim + Weight(cfg.sb, Claimed, r.pc) + (if pc.Reserving? && r.pc.Freeing? then cfg.sb else 0)
               == pool.reclaim + Weight(cfg.sb, Claimed, pc)
            && (pc.Reserving? && r.pc.Freeing? ==> r.pool.reclaim >= 0)
            && (r.pool.allocLen + Weight(cfg.sb, Coming, r.pc) <= pool.allocLen + Weight(cfg.sb, Coming, pc)
                || (pool.allocLen <= Cap(cfg) && r.pool.allocLen == pool.allocLen))
  {
    hide CutOff, ListsExact, PcOk;
  }

  lemma {:induction false} ClaimedBound(sb: nat, pcs: seq<Pc>)
    ensures Sum(sb, Claimed, pcs) >= 0
    decreases |pcs|
  {
    if pcs != [] {
      ClaimedBound(sb, pcs[1..]);
    }
  }

  /** A thread that is about to free a page holds one that is the host's. */
  lemma HeldIsHosts(s: State, k: nat, p: Page)
    requires Conserved(s) && k < |s.pcs| && p in Held(s.pcs[k])
    ensures p in s.pool.host
  {
    HeldIn(s.pcs, k, p);
    assert p in ListPages(s.pool.lists) + HeldAll(s.pcs) + s.inUse;
  }

  lemma StepConserves(cfg: Config, s: State, k: nat, env: Env)
    requires Inv(cfg, s) && Enabled(cfg, s, StepOf(k, env))
    ensures StepEnabled(s.pool, s.pcs[k], env) && Conserved(Apply(cfg, s, StepOf(k, env)))
  {
    var pc := s.pcs[k];
    if pc.Freeing? {
      HeldIsHosts(s, k, pc.p);
    }
    StepBalanced(cfg, s.pool, pc, env);
    var r := Step(cfg, s.pool, pc, env);
    HeldSet(s.pcs, k, r.pc);
    hide Step, Held, HeldAll, ListPages, ListsExact, PcOk, Counted;
    assert ListPages(r.pool.lists) + Held(r.pc) + s.inUse + multiset(s.pool.host)
        == ListPages(s.pool.lists) + Held(pc) + s.inUse + multiset(r.pool.host) by {
      Pad(ListPages(r.pool.lists) + Held(r.pc), multiset(s.pool.host), ListPages(s.pool.lists) + Held(pc), multiset(r.pool.host), s.inUse);
    }
    Recombine(ListPages(s.pool.lists), ListPages(r.pool.lists), Held(pc), Held(r.pc), HeldAll(s.pcs), HeldAll(s.pcs[k := r.pc]),
              s.inUse, s.inUse, multiset(s.pool.host), multiset(r.pool.host));
  }

  lemma Pad(a: multiset<Page>, m: multiset<Page>, b: multiset<Page>, n: multiset<Page>, u: multiset<Page>)
    requires a + m == b + n
    ensures a + u + m == b + u + n
  {
    forall x: Page
      ensures (a + u + m)[x] == (b + u + n)[x]
    {
      assert (a + m)[x] == (b + n)[x];
    }
  }

  /** `a`, `b`: a thread's share of the three counts, before and after. */
  lemma CountedNext(cfg: Config, s: State, r: State, n: nat, gain: int, a: (int, int, int), b: (int, int, int))
    requires Counted(cfg, s) && r.budget == s.budget && r.reclaimed == s.reclaimed + n && n <= 1 && |r.pcs| == |s.pcs|
    requires Sum(cfg.sb, Owed, r.pcs) == Sum(cfg.sb, Owed, s.pcs) - a.0 + b.0
    requires Sum(cfg.sb, Claimed, r.pcs) == Sum(cfg.sb, Claimed, s.pcs) - a.1 + b.1
    requires Sum(cfg.sb, Coming, r.pcs) == Sum(cfg.sb, Coming, s.pcs) - a.2 + b.2
    requires r.pool.allocLen - b.0 == s.pool.allocLen - a.0 + gain && cfg.sb * |r.pool.host| == cfg.sb * |s.pool.host| + gain
    requires r.pool.reclaim + b.1 + (if n == 1 then cfg.sb else 0) == s.pool.reclaim + a.1 && (n == 1 ==> r.pool.reclaim >= 0)
    requires r.pool.allocLen + b.2 <= s.pool.allocLen + a.2 || (s.pool.allocLen <= Cap(cfg) && r.pool.allocLen == s.pool.allocLen)
    ensures Counted(cfg, r)
  {
    ClaimedBound(cfg.sb, r.pcs);
    ComingBound(cfg.sb, r.pcs);
    hide Sum, Cap;
    OneMore(cfg.sb, s.reclaimed);
  }

  lemma StepCounted(cfg: Config, s: State, k: nat, env: Env)
    requires Inv(cfg, s) && Enabled(cfg, s, StepOf(k, env)) && StepEnabled(s.pool, s.pcs[k], env)
    ensures Counted(cfg, Apply(cfg, s, StepOf(k, env)))
  {
    var pc := s.pcs[k];
    var r := Step(cfg, s.pool, pc, env);
    StepCounts(cfg, s.pool, pc, env);
    HostGain(cfg, s.pool, pc, env);
    SumSet(cfg.sb, Owed, s.pcs, k, r.pc);
    SumSet(cfg.sb, Claimed, s.pcs, k, r.pc);
    SumSet(cfg.sb, Coming, s.pcs, k, r.pc);
    var n := if pc.Reserving? && r.pc.Freeing? then 1 else 0;
    hide Step, Sum, Weight, ListsExact, PcOk, Conserved, Counted, Cap, Gain;
    CountedNext(cfg, s, Apply(cfg, s, StepOf(k, env)), n, Gain(cfg.sb, pc, r.pc),
                (Weight(cfg.sb, Owed, pc), Weight(cfg.sb, Claimed, pc), Weight(cfg.sb, Coming, pc)),
                (Weight(cfg.sb, Owed, r.pc), Weight(cfg.sb, Claimed, r.pc), Weight(cfg.sb, Coming, r.pc)));
  }

  lemma StepInv(cfg: Config, s: State, k: nat, env: Env)
    requires Inv(cfg, s) && Enabled(cfg, s, StepOf(k, env))
    ensures Inv(cfg, Apply(cfg, s, StepOf(k, env)))
  {
    StepConserves(cfg, s, k, env);
    StepCounted(cfg, s, k, env);
    StepBalanced(cfg, s.pool, s.pcs[k], env);
    var r := Step(cfg, s.pool, s.pcs[k], env);
    forall j: nat | j < |s.pcs|
      ensures PcOk(r.pool, s.pcs[j])
    {
      PcStays(s.pool, r.pool, s.pcs[j]);
    }
    hide Step, ListsExact, PcOk, Conserved, Counted;
  }

  /** Threads that touch no counter. */
  predicate Quiet(pc: Pc) {
    !pc.Freed? && !pc.Got? && !pc.Passing? && !pc.Restoring?
  }

  lemma QuietCounted(cfg: Config, s: State, k: nat, pc: Pc, inUse: multiset<Page>)
    requires Counted(cfg, s) && k < |s.pcs| && Quiet(s.pcs[k]) && Quiet(pc)
    ensures Counted(cfg, At(s, k, pc).(inUse := inUse))
  {
    SumSet(cfg.sb, Owed, s.pcs, k, pc);
    SumSet(cfg.sb, Claimed, s.pcs, k, pc);
    SumSet(cfg.sb, Coming, s.pcs, k, pc);
    hide Sum;
  }

  lemma UseConserves(s: State, k: nat, pc: Pc, inUse: multiset<Page>)
    requires Conserved(s) && k < |s.pcs| && Held(pc) + inUse == Held(s.pcs[k]) + s.inUse
    ensures Conserved(At(s, k, pc).(inUse := inUse))
  {
    HeldSet(s.pcs, k, pc);
    hide Held, HeldAll, ListPages;
    var lp, m := ListPages(s.pool.lists), multiset(s.pool.host);
    assert lp + Held(pc) + inUse + m == lp + Held(s.pcs[k]) + s.inUse + m by {
      assert lp + Held(pc) + inUse == lp + (Held(pc) + inUse);
      assert lp + Held(s.pcs[k]) + s.inUse == lp + (Held(s.pcs[k]) + s.inUse);
    }
    Recombine(lp, lp, Held(s.pcs[k]), Held(pc), HeldAll(s.pcs), HeldAll(s.pcs[k := pc]), s.inUse, inUse, m, m);
  }

  /** A thread starts or ends: only its own place and the pages in use change. */
  lemma TurnInv(cfg: Config, s: State, k: nat, pc: Pc, inUse: multiset<Page>)
    requires Inv(cfg, s) && k < |s.pcs| && Quiet(s.pcs[k]) && Quiet(pc) && PcOk(s.pool, pc)
    requires Held(pc) + inUse == Held(s.pcs[k]) + s.inUse
    ensures Inv(cfg, At(s, k, pc).(inUse := inUse))
  {
    QuietCounted(cfg, s, k, pc, inUse);
    UseConserves(s, k, pc, inUse);
    hide Counted, Conserved, Held, ListsExact, PcOk;
  }

  lemma ThreadInv(cfg: Config, s: State, e: Event)
    requires Inv(cfg, s) && Enabled(cfg, s, e) && (e.BeginPush? || e.BeginAlloc? || e.Use?)
    ensures Inv(cfg, Apply(cfg, s, e))
  {
    hide Inv, Conserved, Counted, ListsExact;
    match e {
      case BeginPush(k, p, on) =>
        assert multiset{p} + (s.inUse - multiset{p}) == s.inUse;
        TurnInv(cfg, s, k, Deciding(p, on), s.inUse - multiset{p});
      case BeginAlloc(k, c) => TurnInv(cfg, s, k, TryLocal(c), s.inUse);
      case Use(k) => TurnInv(cfg, s, k, Idle, s.inUse + multiset{s.pcs[k].p});
    }
  }

  lemma EventInv(cfg: Config, s: State, e: Event)
    requires Inv(cfg, s) && Enabled(cfg, s, e)
    ensures Inv(cfg, Apply(cfg, s, e))
  {
    if e.StepOf? {
      StepInv(cfg, s, e.k, e.env);
    } else if e.AskBack? {
      hide ListsExact, Sum;
    } else {
      ThreadInv(cfg, s, e);
    }
    hide Conserved, Counted, Step;
  }

  // ---------------------------------------------------------------------------------------------
  // Runs

  predicate Initial(s: State) {
    && s.pool.lists != [] && (forall i: nat :: i < |s.pool.lists| ==> s.pool.lists[i] == NIL)
    && (forall k: nat :: k < |s.pcs| ==> s.pcs[k] == Idle)
    && s.pool.reclaim == s.pool.allocLen == s.budget == s.reclaimed == 0
    && s.pool.host == {} && s.inUse == multiset{}
  }

  predicate AllIdle(pcs: seq<Pc>) {
    forall k: nat :: k < |pcs| ==> pcs[k] == Idle
  }

  lemma {:induction false} IdleSums(sb: nat, pcs: seq<Pc>)
    requires AllIdle(pcs)
    ensures HeldAll(pcs) == multiset{} && forall w :: Sum(sb, w, pcs) == 0
    decreases |pcs|
  {
    if pcs != [] {
      IdleSums(sb, pcs[1..]);
    }
  }

  lemma {:induction false} NoListPages(ls: seq<L>)
    requires forall i: nat :: i < |ls| ==> ls[i] == NIL
    ensures ListPages(ls) == multiset{}
    decreases |ls|
  {
    if ls != [] {
      assert forall i: nat :: i < |ls[1..]| ==> ls[1..][i] == ls[i + 1];
      NoListPages(ls[1..]);
      assert ls[0] == NIL;
    }
  }

  lemma InitialInv(cfg: Config, s: State)
    requires Initial(s)
    ensures Inv(cfg, s)
  {
    IdleSums(cfg.sb, s.pcs);
    NoListPages(s.pool.lists);
  }

  ghost predicate Schedulable(cfg: Config, s: State, es: seq<Event>)
    requires Inv(cfg, s)
    decreases |es|
  {
    es == [] || (Enabled(cfg, s, es[0]) && (EventInv(cfg, s, es[0]); Schedulable(cfg, Apply(cfg, s, es[0]), es[1..])))
  }

  ghost function After(cfg: Config, s: State, es: seq<Event>): State
    requires Inv(cfg, s) && Schedulable(cfg, s, es)
    decreases |es|
  {
    if es == [] then s else EventInv(cfg, s, es[0]); After(cfg, Apply(cfg, s, es[0]), es[1..])
  }

  lemma {:induction false} RunInv(cfg: Config, s: State, es: seq<Event>)
    requires Inv(cfg, s) && Schedulable(cfg, s, es)
    ensures Inv(cfg, After(cfg, s, es))
    decreases |es|
  {
    if es != [] {
      EventInv(cfg, s, es[0]);
      hide Inv, Apply, Enabled;
      RunInv(cfg, Apply(cfg, s, es[0]), es[1..]);
    }
  }

  /** Page `p` is in exactly one place if it was got and not given back, and nowhere otherwise; no list's length is
      wrong; the cache is over its limit by less than a subblock a thread; no more is given back than was asked for. */
  ghost predicate InPlace(cfg: Config, s: State, p: Page) {
    && (ListPages(s.pool.lists) + HeldAll(s.pcs) + s.inUse)[p] == (if p in s.pool.host then 1 else 0)
    && (forall i: nat :: i < |s.pool.lists| ==> s.pool.lists[i].len == |s.pool.lists[i].items|)
    && s.pool.allocLen <= Cap(cfg) + cfg.sb * |s.pcs|
    && cfg.sb * s.reclaimed <= s.budget
  }

  /** The counters say exactly what was got and given back; every page is on a list or in use. */
  ghost predicate Exactly(cfg: Config, s: State) {
    && s.pool.allocLen == cfg.sb * |s.pool.host|
    && s.pool.reclaim == s.budget - cfg.sb * s.reclaimed >= 0
    && ListPages(s.pool.lists) + s.inUse == multiset(s.pool.host)
  }

  /** Over every run, however the threads interleave, no page is lost or in two places; and whenever no thread is at
      work the counters are exact. */
  lemma PagesConserved(cfg: Config, s: State, es: seq<Event>, p: Page)
    requires Initial(s) && (InitialInv(cfg, s); Schedulable(cfg, s, es))
    ensures (InitialInv(cfg, s); InPlace(cfg, After(cfg, s, es), p))
    ensures (InitialInv(cfg, s); AllIdle(After(cfg, s, es).pcs) ==> Exactly(cfg, After(cfg, s, es)))
  {
    InitialInv(cfg, s);
    RunInv(cfg, s, es);
    var r := After(cfg, s, es);
    hide After, Initial;
    ComingBound(cfg.sb, r.pcs);
    if AllIdle(r.pcs) {
      IdleSums(cfg.sb, r.pcs);
      hide AllIdle, Sum, PcOk, ListPages, HeldAll;
      assert ListPages(r.pool.lists) + multiset{} + r.inUse == ListPages(r.pool.lists) + r.inUse;
    }
    hide Sum, PcOk, ListPages, HeldAll;
  }

  // ---------------------------------------------------------------------------------------------
  // One thread to the end of its call

  predicate Resting(pc: Pc) {
    pc.Idle? || pc.Has? || pc.Room?
  }

  /** Steps left. */
  function Rank(pool: Pool, pc: Pc): nat {
    var n := |pool.lists|;
    match pc
    case Deciding(_, _) => 7
    case Reserving(_, _) => 6
    case Restoring(_, _) => 5
    case Keeping(_, _) => 4
    case Spilling(_, _) => 3
    case Freeing(_) => 2
    case Returning(_, _) => 2
    case Freed => 1
    case Passing(_) => n + 10
    case Retry(_) => n + 9
    case PullGlobal(_) => n + 8
    case PullOthers(_, k) => 5 + (if k < n then n - k else 0)
    case Pulled(_, _) => 3
    case Giving(_, _, _) => 2
    case TryLocal(_) => 1
    case Got(_) => 1
    case _ => 0
  }

  lemma StepOk(cfg: Config, pool: Pool, pc: Pc, env: Env)
    requires ListsExact(pool) && PcOk(pool, pc)
    ensures var r := Step(cfg, pool, pc, env); ListsExact(r.pool) && PcOk(r.pool, r.pc) && |r.pool.lists| == |pool.lists|
  {
    if !pc.Freeing? && !pc.Passing? {
      ListStepMoves(cfg, pool, pc, env);
      hide Step, ListPages, Held, PcOk, ListsExact;
    }
  }

  lemma StepRanks(cfg: Config, pool: Pool, pc: Pc, env: Env)
    requires ListsExact(pool) && PcOk(pool, pc) && !Resting(pc)
    ensures var r := Step(cfg, pool, pc, env); Rank(r.pool, r.pc) < Rank(pool, pc)
  {
    assert pool.lists != [];
    hide CutOff, ListsExact, PcOk;
  }

  /** A call by one thread, nobody else moving. */
  function Finish(cfg: Config, pool: Pool, pc: Pc, env: Env): Next
    requires ListsExact(pool) && PcOk(pool, pc)
    decreases Rank(pool, pc)
  {
    if Resting(pc) then Next(pool, pc)
    else
      StepOk(cfg, pool, pc, env);
      StepRanks(cfg, pool, pc, env);
      Finish(cfg, Step(cfg, pool, pc, env).pool, Step(cfg, pool, pc, env).pc, env)
  }

  lemma NothingGot(cfg: Config, pool: Pool, pc: Pc, env: Env)
    requires ListsExact(pool) && PcOk(pool, pc) && !pc.Passing? && !pc.Got? && !Resting(pc)
    ensures var r := Step(cfg, pool, pc, env); !r.pc.Passing? && !r.pc.Got?
  {
    assert pool.lists != [];
    hide ListsExact, CutOff;
  }

  lemma StepWithin(cfg: Config, pool: Pool, pc: Pc, env: Env)
    requires ListsExact(pool) && PcOk(pool, pc) && !pc.Passing? && !pc.Got? && !Resting(pc)
    requires ListPages(pool.lists) + Held(pc) <= multiset(pool.host)
    ensures var r := Step(cfg, pool, pc, env);
            && ListsExact(r.pool) && PcOk(r.pool, r.pc) && Balanced(pool, pc, r) && !r.pc.Passing? && !r.pc.Got?
            && ListPages(r.pool.lists) + Held(r.pc) <= multiset(r.pool.host)
  {
    var r := Step(cfg, pool, pc, env);
    NothingGot(cfg, pool, pc, env);
    assert pc.Freeing? ==> pc.p in Held(pc) && pc.p in ListPages(pool.lists) + Held(pc);
    hide Step, ListsExact, PcOk, Held, ListPages;
    StepBalanced(cfg, pool, pc, env);
    Within(ListPages(pool.lists) + Held(pc), multiset(pool.host), ListPages(r.pool.lists) + Held(r.pc), multiset(r.pool.host));
  }

  /** A call that starts from pages of the host loses none and makes none. */
  lemma {:induction false} FinishBalanced(cfg: Config, pool: Pool, pc: Pc, env: Env)
    requires ListsExact(pool) && PcOk(pool, pc) && !pc.Passing? && !pc.Got?
    requires ListPages(pool.lists) + Held(pc) <= multiset(pool.host)
    ensures Balanced(pool, pc, Finish(cfg, pool, pc, env))
    decreases Rank(pool, pc)
  {
    if Resting(pc) {
      FinishRests(cfg, pool, pc, env);
    } else {
      var r := Step(cfg, pool, pc, env);
      StepWithin(cfg, pool, pc, env);
      StepRanks(cfg, pool, pc, env);
      FinishStep(cfg, pool, pc, env);
      FinishBalanced(cfg, r.pool, r.pc, env);
      hide Step, ListsExact, PcOk, Held, ListPages, Rank, Finish;
      var f := Finish(cfg, r.pool, r.pc, env);
      Chain(ListPages(pool.lists) + Held(pc), multiset(pool.host), ListPages(r.pool.lists) + Held(r.pc), multiset(r.pool.host),
            ListPages(f.pool.lists) + Held(f.pc), multiset(f.pool.host));
    }
  }

  lemma Within(a: multiset<Page>, m: multiset<Page>, b: multiset<Page>, n: multiset<Page>)
    requires a <= m && b + m == a + n
    ensures b <= n
  {
    forall x: Page
      ensures b[x] <= n[x]
    {
      assert (b + m)[x] == (a + n)[x] && a[x] <= m[x];
    }
  }

  lemma Chain(a: multiset<Page>, m: multiset<Page>, b: multiset<Page>, n: multiset<Page>, c: multiset<Page>, o: multiset<Page>)
    requires b + m == a + n && c + n == b + o
    ensures c + m == a + o
  {
    forall x: Page
      ensures (c + m)[x] == (a + o)[x]
    {
      assert (b + m)[x] == (a + n)[x] && (c + n)[x] == (b + o)[x];
    }
  }

  lemma FinishStep(cfg: Config, pool: Pool, pc: Pc, env: Env)
    requires ListsExact(pool) && PcOk(pool, pc) && !Resting(pc)
    ensures var r := Step(cfg, pool, pc, env);
            ListsExact(r.pool) && PcOk(r.pool, r.pc) && Finish(cfg, pool, pc, env) == Finish(cfg, r.pool, r.pc, env)
  {
    StepOk(cfg, pool, pc, env);
  }

  /** A page claimed for the host is given back, unless the claim overdraws the counter: then the counter is put right
      again and the page kept. */
  lemma ClaimEnds(cfg: Config, pool: Pool, p: Page, on: Option<nat>, env: Env)
    requires ListsExact(pool) && PcOk(pool, Reserving(p, on))
    ensures pool.reclaim >= cfg.sb ==>
              Finish(cfg, pool, Reserving(p, on), env).pool
              == pool.(reclaim := pool.reclaim - cfg.sb, host := pool.host - {p}, allocLen := pool.allocLen - cfg.sb)
    ensures pool.reclaim < cfg.sb ==>
              Finish(cfg, pool, Reserving(p, on), env) == Finish(cfg, pool, Keeping(p, on), env)
  {
    FinishStep(cfg, pool, Reserving(p, on), env);
    var a := pool.(reclaim := pool.reclaim - cfg.sb);
    if pool.reclaim >= cfg.sb {
      FinishStep(cfg, a, Freeing(p), env);
      var b := a.(host := a.host - {p});
      FinishStep(cfg, b, Freed, env);
    } else {
      FinishStep(cfg, a, Restoring(p, on), env);
      assert a.(reclaim := a.reclaim + cfg.sb) == pool;
    }
    hide ListsExact, PcOk, Keep;
  }

  lemma FinishRests(cfg: Config, pool: Pool, pc: Pc, env: Env)
    requires ListsExact(pool) && PcOk(pool, pc) && Resting(pc)
    ensures Finish(cfg, pool, pc, env) == Next(pool, pc)
  {
  }

  /** A step to rest ends the call. */
  lemma LastStep(cfg: Config, pool: Pool, pc: Pc, env: Env, r: Next)
    requires ListsExact(pool) && PcOk(pool, pc) && !Resting(pc) && Step(cfg, pool, pc, env) == r && Resting(r.pc)
    ensures Finish(cfg, pool, pc, env) == r
  {
    FinishStep(cfg, pool, pc, env);
    hide Step, ListsExact, PcOk, Finish;
    FinishRests(cfg, r.pool, r.pc, env);
  }

  lemma ReturnEnds(cfg: Config, pool: Pool, t: L, c: nat, env: Env)
    requires ListsExact(pool) && PcOk(pool, Returning(t, c))
    ensures Finish(cfg, pool, Returning(t, c), env).pool == SetList(pool, c + 1, Spliced(pool.lists[c + 1], t))
  {
    hide Finish, ListsExact, SetList, Spliced;
    LastStep(cfg, pool, Returning(t, c), env, Next(SetList(pool, c + 1, Spliced(pool.lists[c + 1], t)), Idle));
  }

  function SpillTo(cfg: Config, t: L, on: Option<nat>, locked: bool): nat {
    if on.Some? && t.len < cfg.limit && !locked then on.value + 1 else 0
  }

  lemma SpillEnds(cfg: Config, pool: Pool, t: L, on: Option<nat>, env: Env)
    requires ListsExact(pool) && PcOk(pool, Spilling(t, on))
    ensures t.len == 0 ==> Finish(cfg, pool, Spilling(t, on), env).pool == pool
    ensures var i := SpillTo(cfg, t, on, env.locked);
            t.len != 0 ==> i < |pool.lists| && Finish(cfg, pool, Spilling(t, on), env).pool == SetList(pool, i, Spliced(pool.lists[i], t))
  {
    assert pool.lists != [];
    var r := Step(cfg, pool, Spilling(t, on), env);
    assert r == Spill(cfg, pool, t, on, env.locked);
    hide Step, Finish, ListsExact, SetList, Spliced;
    if r.pc.Returning? {
      FinishStep(cfg, pool, Spilling(t, on), env);
      ReturnEnds(cfg, pool, t, on.value, env);
    } else {
      LastStep(cfg, pool, Spilling(t, on), env, r);
    }
  }

  /** A pull that finds pages: the first is handed out, the others go to the cpu's own list. */
  lemma PulledEnds(cfg: Config, pool: Pool, t: L, c: nat, env: Env)
    requires ListsExact(pool) && PcOk(pool, Pulled(t, c))
    ensures Finish(cfg, pool, Pulled(t, c), env)
            == Next(if |t.items| > 1 then SetList(pool, c + 1, Spliced(pool.lists[c + 1], Popped(t))) else pool, Has(t.items[0]))
  {
    hide Finish, ListsExact, SetList, Spliced;
    if |t.items| > 1 {
      FinishStep(cfg, pool, Pulled(t, c), env);
      LastStep(cfg, pool, Giving(t.items[0], Popped(t), c), env,
               Next(SetList(pool, c + 1, Spliced(pool.lists[c + 1], Popped(t))), Has(t.items[0])));
    } else {
      LastStep(cfg, pool, Pulled(t, c), env, Next(pool, Has(t.items[0])));
    }
  }

  /** The cpus after `c` are tried in turn. */
  lemma OthersEnd(cfg: Config, pool: Pool, c: nat, n: nat, env: Env)
    requires ListsExact(pool) && CpuOk(pool, c)
    ensures n >= |pool.lists| - 1 ==> Finish(cfg, pool, PullOthers(c, n), env) == Next(pool, Room(c))
    ensures n < |pool.lists| - 1 ==>
              var r := PullOr(cfg, pool, CpuAfter(c, n, |pool.lists| - 1) + 1, c, PullOthers(c, n + 1));
              ListsExact(r.pool) && PcOk(r.pool, r.pc) && Finish(cfg, pool, PullOthers(c, n), env) == Finish(cfg, r.pool, r.pc, env)
  {
    hide Finish, ListsExact, PullOr;
    if n >= |pool.lists| - 1 {
      LastStep(cfg, pool, PullOthers(c, n), env, Next(pool, Room(c)));
    } else {
      FinishStep(cfg, pool, PullOthers(c, n), env);
    }
  }

  function SearchPc(t: L, c: nat, n: nat): Pc {
    if t.len == 0 then PullOthers(c, n) else Pulled(t, c)
  }

  /** The search of the `n`-th cpu after `c`, with `t` pulled so far, ends in `end`. */
  ghost predicate Searching(cfg: Config, pool: Pool, t: L, c: nat, n: nat, end: Next) {
    && ListsExact(pool) && CpuOk(pool, c) && PcOk(pool, SearchPc(t, c, n))
    && Finish(cfg, pool, SearchPc(t, c, n), Env(false, None)) == end
  }

  lemma SearchStarts(cfg: Config, pool: Pool, q: Pool, t: L, c: nat, end: Next)
    requires ListsExact(pool) && CpuOk(pool, c) && Finish(cfg, pool, PullGlobal(c), Env(false, None)) == end
    requires Next(q, SearchPc(t, c, 1)) == PullOr(cfg, pool, 0, c, PullOthers(c, 1))
    ensures Searching(cfg, q, t, c, 1, end)
  {
    FinishStep(cfg, pool, PullGlobal(c), Env(false, None));
    hide Finish, CutOff;
  }

  lemma SearchOn(cfg: Config, pool: Pool, c: nat, n: nat, end: Next)
    requires Searching(cfg, pool, NIL, c, n, end)
    ensures ListsExact(pool) && CpuOk(pool, c)
  {
  }

  lemma SearchNext(cfg: Config, pool: Pool, q: Pool, t: L, c: nat, n: nat, end: Next)
    requires Searching(cfg, pool, NIL, c, n, end) && n < |pool.lists| - 1 && |q.lists| == |pool.lists|
    requires Next(q, SearchPc(t, c, n + 1)) == PullOr(cfg, pool, CpuAfter(c, n, |pool.lists| - 1) + 1, c, PullOthers(c, n + 1))
    ensures Searching(cfg, q, t, c, n + 1, end)
  {
    OthersEnd(cfg, pool, c, n, Env(false, None));
    hide Finish, PullOr, ListsExact;
  }

  lemma SearchEnds(cfg: Config, pool: Pool, t: L, c: nat, n: nat, end: Next)
    requires Searching(cfg, pool, t, c, n, end) && (t.len == 0 ==> n >= |pool.lists| - 1)
    ensures ListsExact(pool) && CpuOk(pool, c)
    ensures t.len == 0 ==> end == Next(pool, Room(c))
    ensures t.len != 0 ==> PcOk(pool, Pulled(t, c)) && Finish(cfg, pool, Pulled(t, c), Env(false, None)) == end
  {
    OthersEnd(cfg, pool, c, n, Env(false, None));
    hide Finish;
  }

  // ---------------------------------------------------------------------------------------------
  // In place

  class Allocator {
    const cfg: Config
    const lists: seq<PageList>
    var reclaim: int
    var allocLen: int
    ghost var host: set<Page>

    constructor (cfg: Config, cpus: nat)
      ensures this.cfg == cfg && |lists| == cpus + 1 && Apart() && fresh(lists)
      ensures View() == Pool(seq(cpus + 1, _ => NIL), 0, 0, {})
    {
      this.cfg, reclaim, allocLen, host := cfg, 0, 0, {};
      var ls: seq<PageList> := [];
      while |ls| < cpus + 1
        invariant |ls| <= cpus + 1 && fresh(ls)
        invariant forall i: nat :: i < |ls| ==> ls[i].View() == NIL
        invariant forall i: nat, j: nat :: i < j < |ls| ==> ls[i] != ls[j]
      {
        var l := new PageList();
        ls := ls + [l];
      }
      lists := ls;
    }

    ghost predicate Apart() {
      lists != [] && forall i: nat, j: nat :: i < j < |lists| ==> lists[i] != lists[j]
    }

    ghost function Views(): (r: seq<L>)
      reads lists
      ensures |r| == |lists| && forall i: nat :: i < |r| ==> r[i] == lists[i].View()
    {
      seq(|lists|, i requires 0 <= i < |lists| reads lists => lists[i].View())
    }

    ghost function View(): (r: Pool)
      reads this, lists
      ensures |r.lists| == |lists|
    {
      Pool(Views(), reclaim, allocLen, host)
    }

    /** `locked`: whether the global list's lock could be had at once. */
    method KeepPage(p: Page, cpu: Option<nat>, locked: bool)
      requires Apart() && ListsExact(View()) && (cpu.Some? ==> CpuOk(View(), cpu.value))
      modifies this, lists
      ensures View() == Finish(cfg, old(View()), Keeping(p, cpu), Env(locked, None)).pool
    {
      ghost var v, env := View(), Env(locked, None);
      FinishStep(cfg, v, Keeping(p, cpu), env);
      hide Finish, CutOff, ListsExact, Spliced;
      var toGlobal := new PageList();
      if cpu.Some? {
        var local := lists[cpu.value + 1];
        local.AddTail(p);
        if local.len <= cfg.limit {
          assert Views() == v.lists[cpu.value + 1 := local.View()];
          FinishRests(cfg, View(), Idle, env);
          return;
        }
        local.CutCount(local.len - cfg.limit / 2, toGlobal);
        assert Views() == v.lists[cpu.value + 1 := local.View()];
      } else {
        toGlobal.AddTail(p);
        assert toGlobal.View() == L([p], 1) && Views() == v.lists;
      }
      assert Next(View(), Spilling(toGlobal.View(), cpu)) == Step(cfg, v, Keeping(p, cpu), env);
      hide Step;
      SpillOver(toGlobal, cpu, locked);
    }

    method SpillOver(toGlobal: PageList, cpu: Option<nat>, locked: bool)
      requires Apart() && ListsExact(View()) && toGlobal !in lists && PcOk(View(), Spilling(toGlobal.View(), cpu))
      modifies lists, toGlobal
      ensures View() == Finish(cfg, old(View()), Spilling(old(toGlobal.View()), cpu), Env(locked, None)).pool
    {
      ghost var t, w := toGlobal.View(), Views();
      SpillEnds(cfg, View(), t, cpu, Env(locked, None));
      hide Finish, ListsExact, Spliced;
      var cut := toGlobal.len;
      if cut == 0 {
        return;
      }
      if cpu.Some? && cut < cfg.limit && !locked {
        lists[cpu.value + 1].SpliceTail(toGlobal);
        assert Views() == w[cpu.value + 1 := Spliced(w[cpu.value + 1], t)];
      } else {
        lists[0].SpliceTail(toGlobal);
        assert Views() == w[0 := Spliced(w[0], t)];
      }
    }

    /** `seen`: what was read of the reclaim counter, which others may have claimed from since. */
    method PushFreePage(p: Page, cpu: Option<nat>, locked: bool, seen: int)
      requires Apart() && ListsExact(View()) && (cpu.Some? ==> CpuOk(View(), cpu.value))
      modifies this, lists
      ensures View() == Finish(cfg, old(View()), if seen >= cfg.sb then Reserving(p, cpu) else Keeping(p, cpu), Env(locked, None)).pool
    {
      ghost var v := View();
      ClaimEnds(cfg, v, p, cpu, Env(locked, None));
      hide Finish, Step, CutOff, ListsExact;
      if seen >= cfg.sb {
        reclaim := reclaim - cfg.sb;
        if reclaim >= 0 {
          host := host - {p};
          allocLen := allocLen - cfg.sb;
          return;
        }
        reclaim := reclaim + cfg.sb;
        assert View() == v;
      }
      KeepPage(p, cpu, locked);
    }

    /** Pulls from list `i` what is to be pulled, if it has any. */
    method PullList(i: nat, pull: PageList, ghost c: nat, ghost n: nat)
      requires Apart() && ListsExact(View()) && i < |lists| && pull !in lists && pull.View() == NIL
      modifies lists, pull
      ensures Next(View(), SearchPc(pull.View(), c, n)) == PullOr(cfg, old(View()), i, c, PullOthers(c, n))
      ensures pull.len == 0 ==> pull.View() == NIL
    {
      ghost var v := View();
      PullEmpty(cfg, v.lists[i]);
      hide CutOff, ListsExact;
      assert v.lists[i] == lists[i].View();
      if lists[i].len > 0 {
        lists[i].CutCount(cfg.pull, pull);
        assert Views() == v.lists[i := lists[i].View()];
      }
    }

    /** A page of its own list, else a pull from the global list, else from the first other cpu that has any. */
    method PopFreePage(c: nat) returns (page: Option<Page>)
      requires Apart() && ListsExact(View()) && CpuOk(View(), c)
      modifies lists
      ensures var r := Finish(cfg, old(View()), Retry(c), Env(false, None));
              View() == r.pool && page == if r.pc.Has? then Some(r.pc.p) else None
    {
      ghost var v, env := View(), Env(false, None);
      FinishStep(cfg, v, Retry(c), env);
      assert v.lists[c + 1] == lists[c + 1].View();
      hide Finish, CutOff, PullOr, PullNext;
      if lists[c + 1].len > 0 {
        var p := lists[c + 1].PopHead();
        assert Views() == v.lists[c + 1 := lists[c + 1].View()];
        FinishRests(cfg, View(), Has(p), env);
        return Some(p);
      }
      FinishStep(cfg, v, PullGlobal(c), env);
      hide ListsExact, Step, PcOk;
      page := Pull(c);
    }

    method Pull(c: nat) returns (page: Option<Page>)
      requires Apart() && ListsExact(View()) && CpuOk(View(), c)
      modifies lists
      ensures var r := Finish(cfg, old(View()), PullGlobal(c), Env(false, None));
              View() == r.pool && page == if r.pc.Has? then Some(r.pc.p) else None
    {
      ghost var end, v := Finish(cfg, View(), PullGlobal(c), Env(false, None)), View();
      hide Finish, PullOr, Step, CutOff, ListsExact, Searching, SearchPc, PcOk;
      var pull := new PageList();
      PullList(0, pull, c, 1);
      SearchStarts(cfg, v, View(), pull.View(), c, end);
      ghost var n := TryOthers(c, pull, end);
      SearchEnds(cfg, View(), pull.View(), c, n, end);
      if pull.len == 0 {
        return None;
      }
      page := TakeFirst(c, pull);
    }

    /** Tries the other cpus until something was pulled; `n`: how many were. */
    method TryOthers(c: nat, pull: PageList, ghost end: Next) returns (ghost n: nat)
      requires Apart() && pull !in lists && (pull.len == 0 ==> pull.View() == NIL)
      requires Searching(cfg, View(), pull.View(), c, 1, end)
      modifies lists, pull
      ensures Searching(cfg, View(), pull.View(), c, n, end) && (pull.len == 0 ==> n >= |lists| - 1)
    {
      hide Finish, PullOr, CutOff, ListsExact, Searching, SearchPc, View, Views;
      var cpus, i := |lists| - 1, 1;
      while pull.len == 0 && i < cpus
        invariant 1 <= i && (pull.len == 0 ==> pull.View() == NIL) && Searching(cfg, View(), pull.View(), c, i, end)
        decreases cpus - i
      {
        ghost var v := View();
        SearchOn(cfg, v, c, i, end);
        var other := CpuAfter(c, i, cpus);
        PullList(other + 1, pull, c, i + 1);
        SearchNext(cfg, v, View(), pull.View(), c, i, end);
        i := i + 1;
      }
      n := i;
    }

    /** The first of the pulled pages; the others go to the cpu's own list. */
    method TakeFirst(c: nat, pull: PageList) returns (page: Option<Page>)
      requires Apart() && ListsExact(View()) && PcOk(View(), Pulled(pull.View(), c)) && pull !in lists
      modifies lists, pull
      ensures var r := Finish(cfg, old(View()), Pulled(old(pull.View()), c), Env(false, None));
              View() == r.pool && r.pc.Has? && page == Some(r.pc.p)
    {
      ghost var w, t := Views(), pull.View();
      PulledEnds(cfg, View(), t, c, Env(false, None));
      hide Finish, ListsExact;
      var p := pull.PopHead();
      assert pull.View() == Popped(t);
      if pull.len > 0 {
        lists[c + 1].SpliceTail(pull);
        assert Views() == w[c + 1 := Spliced(w[c + 1], Popped(t))];
      } else {
        assert Views() == w;
      }
      page := Some(p);
    }
  }

  lemma PullEmpty(cfg: Config, l: L)
    requires Exact(l)
    ensures var cut := CutOff(l, cfg.pull, NIL); Exact(cut.cut) && (cut.cut.len == 0 ==> cut.cut == NIL)
  {
  }
}