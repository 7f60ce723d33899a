/**
  Who holds which slot on the donors.

  A descriptor holds no slot, a slot of its own, or a reference to a counted record that holds the slot for
  several descriptors.  Copy-on-write shares a slot by making such a record; fetching puts the reference,
  and the last put moves the slot back into the descriptor.
 */
module DonorSlots {

  type DescId = nat
  type Slot = nat
  type CrpId = nat

  datatype Option<T> = None | Some(value: T)

  datatype Remote = Free | Own(slot: Slot) | Cow(crp: CrpId)

  /** The counted record.  Nothing stops it from being made over a descriptor that holds no slot. */
  datatype Crp = Crp(slot: Option<Slot>, refcnt: int)

  datatype Pool = Pool(remote: map<DescId, Remote>, crps: map<CrpId, Crp>, avail: set<Slot>)

  /** The slot a descriptor reads from and writes to. */
  function SlotOf(p: Pool, d: DescId): Option<Slot> {
    if d !in p.remote then None
    else match p.remote[d]
         case Free => None
         case Own(s) => Some(s)
         case Cow(c) => if c in p.crps then p.crps[c].slot else None
  }

  predicate IsCow(p: Pool, d: DescId) {
    d in p.remote && p.remote[d].Cow?
  }

  predicate IsFree(p: Pool, d: DescId) {
    d in p.remote && p.remote[d].Free?
  }

  // ---------------------------------------------------------------------------------------------
  // Operations

  function AddDesc(p: Pool, d: DescId): Pool {
    p.(remote := p.remote[d := Free])
  }

  /** A writeback allocates a slot for a descriptor that has none. */
  function Alloc(p: Pool, d: DescId, s: Slot): Pool {
    if IsFree(p, d) then p.(remote := p.remote[d := Own(s)], avail := p.avail - {s}) else p
  }

  function Held(r: Remote): Option<Slot> {
    if r.Own? then Some(r.slot) else None
  }

  /** `c` is the record allocated if there is none yet. */
  function Share(p: Pool, src: DescId, dst: DescId, c: CrpId): Pool
    requires src in p.remote && (p.remote[src].Cow? ==> p.remote[src].crp in p.crps)
  {
    if p.remote[src].Cow? then
      var k := p.remote[src].crp;
      Pool(p.remote[dst := Cow(k)], p.crps[k := Crp(p.crps[k].slot, p.crps[k].refcnt + 1)], p.avail)
    else
      Pool(p.remote[src := Cow(c)][dst := Cow(c)], p.crps[c := Crp(Held(p.remote[src]), 2)], p.avail)
  }

  function Holding(s: Option<Slot>): Remote {
    if s.Some? then Own(s.value) else Free
  }

  /** Drops a shared reference; the last one takes the slot over. */
  function Put(p: Pool, d: DescId): Pool
    requires d in p.remote && (p.remote[d].Cow? ==> p.remote[d].crp in p.crps)
  {
    if !p.remote[d].Cow? then p
    else
      var c := p.remote[d].crp;
      if p.crps[c].refcnt - 1 == 0 then
        Pool(p.remote[d := Holding(p.crps[c].slot)], p.crps - {c}, p.avail)
      else
        Pool(p.remote[d := Free], p.crps[c := Crp(p.crps[c].slot, p.crps[c].refcnt - 1)], p.avail)
  }

  /** Gives the descriptor's own slot back to the donor. */
  function FreeSlot(p: Pool, d: DescId): Pool
    requires d in p.remote
  {
    if p.remote[d].Own? then p.(remote := p.remote[d := Free], avail := p.avail + {p.remote[d].slot}) else p
  }

  /** Completion of a fetch: the reference is put, and only what is then its own may be freed, which reuse of
      donor copies forbids altogether. */
  function FetchDone(p: Pool, d: DescId, reuse: bool): Pool
    requires d in p.remote && (p.remote[d].Cow? ==> p.remote[d].crp in p.crps)
  {
    if reuse then Put(p, d) else FreeSlot(Put(p, d), d)
  }

  /** A descriptor is given back. */
  function Release(p: Pool, d: DescId): Pool
    requires d in p.remote && (p.remote[d].Cow? ==> p.remote[d].crp in p.crps)
  {
    var q := FreeSlot(Put(p, d), d);
    q.(remote := q.remote - {d})
  }

  // ---------------------------------------------------------------------------------------------
  // The invariant

  function Sharers(p: Pool, c: CrpId): (r: set<DescId>)
    ensures forall d :: d in r <==> d in p.remote && p.remote[d] == Cow(c)
  {
    set d | d in p.remote && p.remote[d] == Cow(c)
  }

  ghost predicate CrpsCounted(p: Pool) {
    && (forall d :: d in p.remote && p.remote[d].Cow? ==> p.remote[d].crp in p.crps)
    && (forall c :: c in p.crps ==> p.crps[c].refcnt == |Sharers(p, c)| && p.crps[c].refcnt > 0)
  }

  /** Every slot in use has one holder: a descriptor or a record. */
  ghost predicate HoldersUnique(p: Pool) {
    && (forall d :: d in p.remote && p.remote[d].Own? ==> p.remote[d].slot !in p.avail)
    && (forall c :: c in p.crps && p.crps[c].slot.Some? ==> p.crps[c].slot.value !in p.avail)
    && (forall d, e :: d in p.remote && e in p.remote && d != e && p.remote[d].Own? && p.remote[e].Own? ==>
          p.remote[d].slot != p.remote[e].slot)
    && (forall d, c :: d in p.remote && c in p.crps && p.remote[d].Own? ==> p.crps[c].slot != Some(p.remote[d].slot))
    && (forall c, k :: c in p.crps && k in p.crps && c != k && p.crps[c].slot.Some? ==> p.crps[c].slot != p.crps[k].slot)
  }

  ghost predicate Inv(p: Pool) {
    CrpsCounted(p) && HoldersUnique(p)
  }

  /** Nothing about `e` differs. */
  ghost predicate SameFor(p: Pool, q: Pool, e: DescId) {
    && SlotOf(q, e) == SlotOf(p, e) && (e in q.remote <==> e in p.remote)
    && (e in p.remote ==> q.remote[e] == p.remote[e])
  }

  lemma AddDescInv(p: Pool, d: DescId)
    requires Inv(p) && d !in p.remote
    ensures Inv(AddDesc(p, d))
    ensures forall e :: e != d ==> SameFor(p, AddDesc(p, d), e)
    ensures SlotOf(AddDesc(p, d), d) == None
  {
    var q := AddDesc(p, d);
    forall c | c in p.crps
      ensures Sharers(q, c) == Sharers(p, c)
    {
    }
  }

  /** Only the references count: changing what is not one changes no record's count. */
  lemma SameRecords(p: Pool, q: Pool)
    requires CrpsCounted(p) && q.crps == p.crps
    requires forall e, c :: e in q.remote && q.remote[e] == Cow(c) <==> e in p.remote && p.remote[e] == Cow(c)
    ensures CrpsCounted(q)
  {
    forall c | c in p.crps
      ensures Sharers(q, c) == Sharers(p, c)
    {
    }
    forall d | d in q.remote && q.remote[d].Cow?
      ensures q.remote[d].crp in q.crps
    {
      assert p.remote[d] == Cow(q.remote[d].crp);
    }
  }

  lemma AllocUnique(p: Pool, d: DescId, s: Slot)
    requires HoldersUnique(p) && d in p.remote && (IsFree(p, d) ==> s in p.avail)
    ensures HoldersUnique(Alloc(p, d, s))
  {
  }

  lemma AllocInv(p: Pool, d: DescId, s: Slot)
    requires Inv(p) && d in p.remote && (IsFree(p, d) ==> s in p.avail)
    ensures Inv(Alloc(p, d, s))
    ensures forall e :: e != d ==> SameFor(p, Alloc(p, d, s), e)
    ensures Alloc(p, d, s).remote.Keys == p.remote.Keys && (IsCow(Alloc(p, d, s), d) <==> IsCow(p, d))
    ensures SlotOf(Alloc(p, d, s), d) == if IsFree(p, d) then Some(s) else SlotOf(p, d)
  {
    hide HoldersUnique, CrpsCounted;
    AllocUnique(p, d, s);
    SameRecords(p, Alloc(p, d, s));
  }

  predicate CanShare(p: Pool, src: DescId, dst: DescId, c: CrpId) {
    src in p.remote && IsFree(p, dst) && src != dst && c !in p.crps
  }

  lemma ShareCounted(p: Pool, src: DescId, dst: DescId, c: CrpId)
    requires CrpsCounted(p) && CanShare(p, src, dst, c)
    ensures CrpsCounted(Share(p, src, dst, c))
  {
    var q := Share(p, src, dst, c);
    if p.remote[src].Cow? {
      var k := p.remote[src].crp;
      assert Sharers(q, k) == Sharers(p, k) + {dst};
      forall j | j in p.crps && j != k
        ensures Sharers(q, j) == Sharers(p, j)
      {
      }
    } else {
      assert forall e :: e in p.remote ==> p.remote[e] != Cow(c);
      assert Sharers(q, c) == {src, dst};
      forall j | j in p.crps
        ensures Sharers(q, j) == Sharers(p, j)
      {
      }
    }
  }

  lemma ShareUnique(p: Pool, src: DescId, dst: DescId, c: CrpId)
    requires HoldersUnique(p) && CanShare(p, src, dst, c) && (p.remote[src].Cow? ==> p.remote[src].crp in p.crps)
    ensures HoldersUnique(Share(p, src, dst, c))
  {
  }

  lemma ShareSlots(p: Pool, src: DescId, dst: DescId, c: CrpId)
    requires CanShare(p, src, dst, c) && (p.remote[src].Cow? ==> p.remote[src].crp in p.crps)
    requires forall d :: d in p.remote && p.remote[d].Cow? ==> p.remote[d].crp in p.crps
    ensures forall e :: e != dst && e != src ==> SameFor(p, Share(p, src, dst, c), e)
    ensures SlotOf(Share(p, src, dst, c), src) == SlotOf(p, src)
    ensures Share(p, src, dst, c).remote.Keys == p.remote.Keys
    ensures SlotOf(Share(p, src, dst, c), dst) == SlotOf(p, src)
    ensures IsCow(Share(p, src, dst, c), src) && IsCow(Share(p, src, dst, c), dst)
  {
  }

  /** After sharing both read the slot the old descriptor read before. */
  lemma ShareInv(p: Pool, src: DescId, dst: DescId, c: CrpId)
    requires Inv(p) && CanShare(p, src, dst, c)
    ensures Inv(Share(p, src, dst, c))
    ensures forall e :: e != dst && e != src ==> SameFor(p, Share(p, src, dst, c), e)
    ensures SlotOf(Share(p, src, dst, c), src) == SlotOf(p, src)
    ensures Share(p, src, dst, c).remote.Keys == p.remote.Keys
    ensures SlotOf(Share(p, src, dst, c), dst) == SlotOf(p, src)
    ensures IsCow(Share(p, src, dst, c), src) && IsCow(Share(p, src, dst, c), dst)
  {
    hide HoldersUnique, Sharers, SlotOf;
    ShareCounted(p, src, dst, c);
    ShareUnique(p, src, dst, c);
    ShareSlots(p, src, dst, c);
  }

  lemma PutCounted(p: Pool, d: DescId)
    requires CrpsCounted(p) && IsCow(p, d)
    ensures CrpsCounted(Put(p, d))
  {
    var c, q := p.remote[d].crp, Put(p, d);
    assert Sharers(q, c) == Sharers(p, c) - {d};
    forall j | j in p.crps && j != c
      ensures Sharers(q, j) == Sharers(p, j)
    {
    }
    if p.crps[c].refcnt == 1 {
      LastSharer(p, d);
    }
  }

  /** The last reference to a record is the only one. */
  lemma LastSharer(p: Pool, d: DescId)
    requires CrpsCounted(p) && IsCow(p, d) && p.crps[p.remote[d].crp].refcnt == 1
    ensures forall e :: e in p.remote && e != d ==> p.remote[e] != p.remote[d]
  {
    var c := p.remote[d].crp;
    assert |Sharers(p, c) - {d}| == 0;
    forall e | e in p.remote && e != d
      ensures p.remote[e] != p.remote[d]
    {
      assert e !in Sharers(p, c) - {d};
    }
  }

  lemma PutUnique(p: Pool, d: DescId)
    requires HoldersUnique(p) && IsCow(p, d) && p.remote[d].crp in p.crps
    ensures HoldersUnique(Put(p, d))
  {
  }

  lemma PutSlots(p: Pool, d: DescId)
    requires CrpsCounted(p) && IsCow(p, d)
    ensures d in Put(p, d).remote && !IsCow(Put(p, d), d)
    ensures forall e :: e != d ==> SameFor(p, Put(p, d), e)
    ensures Put(p, d).remote.Keys == p.remote.Keys
    ensures SlotOf(Put(p, d), d) == SlotOf(p, d) || SlotOf(Put(p, d), d) == None
  {
    if p.crps[p.remote[d].crp].refcnt == 1 {
      LastSharer(p, d);
    }
  }

  /** Nobody else notices a put. */
  lemma PutInv(p: Pool, d: DescId)
    requires Inv(p) && d in p.remote
    ensures Inv(Put(p, d)) && d in Put(p, d).remote && !IsCow(Put(p, d), d)
    ensures forall e :: e != d ==> SameFor(p, Put(p, d), e)
    ensures Put(p, d).remote.Keys == p.remote.Keys
    ensures SlotOf(Put(p, d), d) == SlotOf(p, d) || SlotOf(Put(p, d), d) == None
  {
    if IsCow(p, d) {
      PutCounted(p, d);
      PutUnique(p, d);
      PutSlots(p, d);
      hide CrpsCounted, HoldersUnique, SlotOf;
    }
  }

  /** The descriptor keeps the slot exactly when nobody else refers to it any more. */
  lemma LastPutKeepsSlot(p: Pool, d: DescId)
    requires CrpsCounted(p) && IsCow(p, d)
    ensures var alone := forall e :: e in p.remote && e != d ==> p.remote[e] != p.remote[d];
            SlotOf(Put(p, d), d) == if alone then SlotOf(p, d) else None
  {
    var c := p.remote[d].crp;
    if p.crps[c].refcnt == 1 {
      LastSharer(p, d);
    }
    assert (forall e :: e in p.remote && e != d ==> p.remote[e] != Cow(c)) ==> Sharers(p, c) == {d};
  }

  lemma FreeSlotUnique(p: Pool, d: DescId)
    requires HoldersUnique(p) && d in p.remote
    ensures HoldersUnique(FreeSlot(p, d))
  {
  }

  lemma FreeSlotInv(p: Pool, d: DescId)
    requires Inv(p) && d in p.remote
    ensures Inv(FreeSlot(p, d))
    ensures forall e :: e != d ==> SameFor(p, FreeSlot(p, d), e)
    ensures FreeSlot(p, d).remote.Keys == p.remote.Keys
    ensures d in FreeSlot(p, d).remote && (IsCow(FreeSlot(p, d), d) <==> IsCow(p, d))
    ensures !IsCow(p, d) ==> SlotOf(FreeSlot(p, d), d) == None
  {
    hide HoldersUnique, CrpsCounted;
    FreeSlotUnique(p, d);
    SameRecords(p, FreeSlot(p, d));
  }

  /** A slot some descriptor reads is never among the free ones. */
  lemma ReadableIsTaken(p: Pool, d: DescId)
    requires Inv(p) && SlotOf(p, d).Some?
    ensures SlotOf(p, d).value !in p.avail
  {
  }

  lemma FetchDoneInv(p: Pool, d: DescId, reuse: bool)
    requires Inv(p) && d in p.remote
    ensures var q := FetchDone(p, d, reuse);
            && Inv(q) && !IsCow(q, d) && q.remote.Keys == p.remote.Keys
            && (SlotOf(q, d) == SlotOf(p, d) || SlotOf(q, d) == None)
            && forall e :: e != d ==> SameFor(p, q, e)
  {
    hide CrpsCounted, HoldersUnique, SlotOf, Put, FreeSlot;
    RecordKnown(p, d);
    PutInv(p, d);
    FreeSlotInv(Put(p, d), d);
    forall e | e != d
      ensures SameFor(p, FetchDone(p, d, reuse), e)
    {
      assert SameFor(p, Put(p, d), e) && SameFor(Put(p, d), FreeSlot(Put(p, d), d), e);
    }
  }

  /** Fetch completion never frees a slot that another descriptor can still read. */
  lemma FetchDoneIsSafe(p: Pool, d: DescId, reuse: bool, e: DescId)
    requires Inv(p) && d in p.remote && e != d
    ensures Inv(FetchDone(p, d, reuse)) && !IsCow(FetchDone(p, d, reuse), d)
    ensures SlotOf(FetchDone(p, d, reuse), e) == SlotOf(p, e)
    ensures SlotOf(p, e).Some? ==> SlotOf(p, e).value !in FetchDone(p, d, reuse).avail
    ensures SlotOf(FetchDone(p, d, reuse), d) == SlotOf(p, d) || SlotOf(FetchDone(p, d, reuse), d) == None
  {
    FetchDoneInv(p, d, reuse);
    assert SameFor(p, FetchDone(p, d, reuse), e);
    ReadableIsTakenOr(FetchDone(p, d, reuse), e);
  }

  /** Another descriptor refers to the same record. */
  ghost predicate SharedElsewhere(p: Pool, d: DescId) {
    IsCow(p, d) && exists e :: e in p.remote && e != d && p.remote[e] == p.remote[d]
  }

  /** Fetch completion leaves the descriptor its slot exactly when donor copies are reused and nobody shares the slot;
      a slot goes back to the donor exactly when they are not and nobody does. */
  lemma FetchDoneKeepsIff(p: Pool, d: DescId, reuse: bool)
    requires Inv(p) && d in p.remote
    ensures var q := FetchDone(p, d, reuse);
            && SlotOf(q, d) == (if reuse && !SharedElsewhere(p, d) then SlotOf(p, d) else None)
            && q.avail == p.avail + (if !reuse && !SharedElsewhere(p, d) && SlotOf(p, d).Some? then {SlotOf(p, d).value} else {})
  {
    if IsCow(p, d) {
      LastPutKeepsSlot(p, d);
    }
  }

  lemma ReadableIsTakenOr(p: Pool, e: DescId)
    requires Inv(p)
    ensures SlotOf(p, e).Some? ==> SlotOf(p, e).value !in p.avail
  {
    if SlotOf(p, e).Some? {
      ReadableIsTaken(p, e);
    }
  }

  lemma RecordKnown(p: Pool, d: DescId)
    requires CrpsCounted(p)
    ensures IsCow(p, d) ==> p.remote[d].crp in p.crps
  {
  }

  lemma DropInv(p: Pool, d: DescId)
    requires Inv(p) && d in p.remote && !IsCow(p, d)
    ensures Inv(p.(remote := p.remote - {d}))
    ensures forall e :: e != d ==> SameFor(p, p.(remote := p.remote - {d}), e)
  {
    hide CrpsCounted;
    SameRecords(p, p.(remote := p.remote - {d}));
  }

  lemma ReleaseInv(p: Pool, d: DescId)
    requires Inv(p) && d in p.remote
    ensures Inv(Release(p, d)) && d !in Release(p, d).remote
    ensures forall e :: e != d ==> SameFor(p, Release(p, d), e)
    ensures Release(p, d).remote.Keys == p.remote.Keys - {d}
  {
    hide CrpsCounted, HoldersUnique, SlotOf, FreeSlot;
    RecordKnown(p, d);
    PutInv(p, d);
    FreeSlotInv(Put(p, d), d);
    var q := FreeSlot(Put(p, d), d);
    DropInv(q, d);
    forall e | e != d
      ensures SameFor(p, Release(p, d), e)
    {
      assert SameFor(p, Put(p, d), e) && SameFor(Put(p, d), q, e) && SameFor(q, Release(p, d), e);
    }
  }

  // ---------------------------------------------------------------------------------------------
  // No slot is lost

  ghost predicate Accounted(p: Pool, s: Slot) {
    || s in p.avail
    || (exists d :: d in p.remote && p.remote[d] == Own(s))
    || (exists c :: c in p.crps && p.crps[c].slot == Some(s))
  }

  lemma OwnedStays(p: Pool, q: Pool, s: Slot)
    requires Accounted(p, s)
    requires s in p.avail ==> Accounted(q, s)
    requires forall d :: d in p.remote && p.remote[d] == Own(s) ==> Accounted(q, s)
    requires forall c :: c in p.crps && p.crps[c].slot == Some(s) ==> Accounted(q, s)
    ensures Accounted(q, s)
  {
  }

  lemma PutAccounts(p: Pool, d: DescId, s: Slot)
    requires Inv(p) && d in p.remote && Accounted(p, s)
    ensures Accounted(Put(p, d), s)
  {
    var q := Put(p, d);
    if p.remote[d].Cow? {
      forall e | e in p.remote && p.remote[e] == Own(s)
        ensures Accounted(q, s)
      {
        assert q.remote[e] == Own(s);
      }
      forall c | c in p.crps && p.crps[c].slot == Some(s)
        ensures Accounted(q, s)
      {
        if c in q.crps {
          assert q.crps[c].slot == Some(s);
        } else {
          assert q.remote[d] == Own(s);
        }
      }
      OwnedStays(p, q, s);
    }
  }

  lemma FreeAccounts(p: Pool, d: DescId, s: Slot)
    requires Inv(p) && d in p.remote && Accounted(p, s)
    ensures Accounted(FreeSlot(p, d), s)
  {
    var q := FreeSlot(p, d);
    forall e | e in p.remote && p.remote[e] == Own(s)
      ensures Accounted(q, s)
    {
      assert e == d || q.remote[e] == Own(s);
    }
    forall c | c in p.crps && p.crps[c].slot == Some(s)
      ensures Accounted(q, s)
    {
      assert q.crps[c].slot == Some(s);
    }
    OwnedStays(p, q, s);
  }

  lemma ShareAccounts(p: Pool, src: DescId, dst: DescId, c: CrpId, s: Slot)
    requires Inv(p) && CanShare(p, src, dst, c) && Accounted(p, s)
    ensures Accounted(Share(p, src, dst, c), s)
  {
    var q := Share(p, src, dst, c);
    forall e | e in p.remote && p.remote[e] == Own(s)
      ensures Accounted(q, s)
    {
      if e == src {
        assert q.crps[c].slot == Some(s);
      } else {
        assert q.remote[e] == Own(s);
      }
    }
    forall k | k in p.crps && p.crps[k].slot == Some(s)
      ensures Accounted(q, s)
    {
      assert q.crps[k].slot == Some(s);
    }
    OwnedStays(p, q, s);
  }

  // ---------------------------------------------------------------------------------------------
  // Runs

  datatype Event =
    | AddEvent(d: DescId)
    | AllocEvent(d: DescId, s: Slot)
    | ShareEvent(src: DescId, dst: DescId, c: CrpId)
    | FetchEvent(d: DescId, reuse: bool)
    | RefaultEvent(d: DescId, reuse: bool)
    | ReleaseEvent(d: DescId)

  ghost predicate Enabled(p: Pool, e: Event) {
    match e
    case AddEvent(d) => d !in p.remote
    case AllocEvent(d, s) => d in p.remote && (IsFree(p, d) ==> s in p.avail)
    case ShareEvent(src, n, c) => src in p.remote && IsFree(p, n) && src != n && c !in p.crps
    case FetchEvent(d, _) => d in p.remote
    case RefaultEvent(d, _) => d in p.remote
    case ReleaseEvent(d) => d in p.remote
  }

  ghost function Apply(p: Pool, e: Event): Pool
    requires Inv(p) && Enabled(p, e)
  {
    match e
    case AddEvent(d) => AddDesc(p, d)
    case AllocEvent(d, s) => Alloc(p, d, s)
    case ShareEvent(src, n, c) => Share(p, src, n, c)
    case FetchEvent(d, reuse) => FetchDone(p, d, reuse)
    case RefaultEvent(d, reuse) => if reuse then p else FreeSlot(p, d)
    case ReleaseEvent(d) => Release(p, d)
  }

  lemma StepInv(p: Pool, e: Event)
    requires Inv(p) && Enabled(p, e)
    ensures Inv(Apply(p, e))
  {
    match e
    case AddEvent(d) => AddDescInv(p, d);
    case AllocEvent(d, s) => AllocInv(p, d, s);
    case ShareEvent(src, n, c) => ShareInv(p, src, n, c);
    case FetchEvent(d, reuse) => FetchDoneIsSafe(p, d, reuse, d + 1);
    case RefaultEvent(d, reuse) => FreeSlotInv(p, d);
    case ReleaseEvent(d) => ReleaseInv(p, d);
  }

  ghost predicate Schedulable(p: Pool, es: seq<Event>)
    requires Inv(p)
    decreases |es|
  {
    es == [] || (Enabled(p, es[0]) && (StepInv(p, es[0]); Schedulable(Apply(p, es[0]), es[1..])))
  }

  ghost function After(p: Pool, es: seq<Event>): Pool
    requires Inv(p) && Schedulable(p, es)
    decreases |es|
  {
    if es == [] then p else StepInv(p, es[0]); After(Apply(p, es[0]), es[1..])
  }

  /** Over every run a slot in use has exactly one holder, a record counts exactly the descriptors naming it, and
      what a descriptor reads is not free. */
  lemma {:induction false} HoldersOverRuns(p: Pool, es: seq<Event>)
    requires Inv(p) && Schedulable(p, es)
    ensures var q := After(p, es);
            && Inv(q)
            && (forall c :: c in q.crps ==> q.crps[c].refcnt == |Sharers(q, c)|)
            && (forall d :: SlotOf(q, d).Some? ==> SlotOf(q, d).value !in q.avail)
    decreases |es|
  {
    if es != [] {
      StepInv(p, es[0]);
      HoldersOverRuns(Apply(p, es[0]), es[1..]);
    }
  }

  lemma AllocAccounts(p: Pool, d: DescId, n: Slot, s: Slot)
    requires Inv(p) && d in p.remote && (IsFree(p, d) ==> n in p.avail) && Accounted(p, s)
    ensures Accounted(Alloc(p, d, n), s)
  {
    var q := Alloc(p, d, n);
    if IsFree(p, d) && s == n {
      assert q.remote[d] == Own(s);
    }
    forall e | e in p.remote && p.remote[e] == Own(s)
      ensures Accounted(q, s)
    {
      assert q.remote[e] == Own(s);
    }
    forall c | c in p.crps && p.crps[c].slot == Some(s)
      ensures Accounted(q, s)
    {
      assert q.crps[c].slot == Some(s);
    }
  }

  lemma AddAccounts(p: Pool, d: DescId, s: Slot)
    requires d !in p.remote && Accounted(p, s)
    ensures Accounted(AddDesc(p, d), s)
  {
    var q := AddDesc(p, d);
    forall e | e in p.remote && p.remote[e] == Own(s)
      ensures Accounted(q, s)
    {
      assert q.remote[e] == Own(s);
    }
  }

  lemma ReleaseAccounts(p: Pool, d: DescId, s: Slot)
    requires Inv(p) && d in p.remote && Accounted(p, s)
    ensures Accounted(Release(p, d), s)
  {
    PutInv(p, d);
    PutAccounts(p, d, s);
    FreeAccounts(Put(p, d), d, s);
    hide Inv;
    var q, r := FreeSlot(Put(p, d), d), Release(p, d);
    forall e | e in q.remote && q.remote[e] == Own(s)
      ensures Accounted(r, s)
    {
      assert e != d && r.remote[e] == Own(s);
    }
  }

  lemma StepAccounts(p: Pool, e: Event, s: Slot)
    requires Inv(p) && Enabled(p, e) && Accounted(p, s)
    ensures Accounted(Apply(p, e), s)
  {
    match e {
      case AddEvent(d) => AddAccounts(p, d, s);
      case AllocEvent(d, n) => AllocAccounts(p, d, n, s);
      case ShareEvent(src, n, c) => ShareAccounts(p, src, n, c, s);
      case FetchEvent(d, reuse) =>
        PutInv(p, d);
        PutAccounts(p, d, s);
        FreeAccounts(Put(p, d), d, s);
      case RefaultEvent(d, reuse) => FreeAccounts(p, d, s);
      case ReleaseEvent(d) => ReleaseAccounts(p, d, s);
    }
    hide Inv, Accounted;
  }

  /** Over every run no slot is lost: it is free, or a descriptor's own, or a record's. */
  lemma {:induction false} SlotsAccounted(p: Pool, es: seq<Event>, s: Slot)
    requires Inv(p) && Schedulable(p, es) && Accounted(p, s)
    ensures Accounted(After(p, es), s)
    decreases |es|
  {
    if es != [] {
      StepInv(p, es[0]);
      StepAccounts(p, es[0], s);
      hide Inv, Accounted, Enabled, Apply;
      SlotsAccounted(Apply(p, es[0]), es[1..], s);
    }
  }

  // ---------------------------------------------------------------------------------------------
  // Sharing nothing, and undoing a share

  /** Every descriptor that does not say it is free can be read. */
  ghost predicate Readable(p: Pool) {
    forall d :: d in p.remote && !p.remote[d].Free? ==> SlotOf(p, d).Some?
  }

  /** Sharing a descriptor that has no slot makes a record over nothing, and both then claim a donor copy that
      is not there.  Readability survives a share exactly when the shared descriptor was not free. */
  lemma ShareReadableIff(p: Pool, src: DescId, dst: DescId, c: CrpId)
    requires Inv(p) && Readable(p) && CanShare(p, src, dst, c)
    ensures Readable(Share(p, src, dst, c)) <==> !IsFree(p, src)
  {
    ShareInv(p, src, dst, c);
    hide Inv, CrpsCounted, HoldersUnique;
    var q := Share(p, src, dst, c);
    if IsFree(p, src) {
      assert !q.remote[src].Free? && SlotOf(q, src) == None;
    } else {
      forall d | d in q.remote && !q.remote[d].Free?
        ensures SlotOf(q, d).Some?
      {
        if d != src && d != dst {
          assert SameFor(p, q, d);
        }
      }
    }
  }

  /** The error path puts the reference of the new and of the old descriptor alike: it restores the old one
      exactly when that was not shared before. */
  lemma RollbackIff(p: Pool, src: DescId, dst: DescId, c: CrpId)
    requires Inv(p) && CanShare(p, src, dst, c)
    ensures Inv(Share(p, src, dst, c)) && Inv(Put(Share(p, src, dst, c), dst))
    ensures Put(Put(Share(p, src, dst, c), dst), src).remote[src] == p.remote[src] <==> !IsCow(p, src)
  {
    hide CrpsCounted, HoldersUnique, SlotOf;
    RecordKnown(p, src);
    ShareInv(p, src, dst, c);
    RecordKnown(Share(p, src, dst, c), dst);
    PutInv(Share(p, src, dst, c), dst);
    PutInv(Put(Share(p, src, dst, c), dst), src);
  }

  // ---------------------------------------------------------------------------------------------
  // In place

  /** The remote page of every descriptor, the counted records, and the donors' free slots. */
  class RemotePages {
    var remote: map<DescId, Remote>
    var crps: map<CrpId, Crp>
    var avail: set<Slot>

    ghost function State(): Pool
      reads this
    {
      Pool(remote, crps, avail)
    }

    constructor (slots: set<Slot>)
      ensures State() == Pool(map[], map[], slots) && Inv(State())
    {
      remote, crps, avail := map[], map[], slots;
    }

    /** `fresh`: the record the allocator hands out, if it has one. */
    method GetCow(src: DescId, dst: DescId, rec: Option<CrpId>) returns (ok: bool)
      requires Inv(State()) && src in remote && IsFree(State(), dst) && src != dst
      requires rec.Some? ==> rec.value !in crps
      modifies this
      ensures ok <==> old(IsCow(State(), src)) || rec.Some?
      ensures ok ==> Inv(State()) && State() == Share(old(State()), src, dst, if rec.Some? then rec.value else 0)
      ensures !ok ==> State() == old(State())
    {
      hide CrpsCounted, HoldersUnique;
      ghost var p := State();
      RecordKnown(p, src);
      if rec.Some? {
        ShareInv(State(), src, dst, rec.value);
      } else if remote[src].Cow? {
        ShareCow(State(), src, dst);
      }
      if !remote[src].Cow? {
        if rec == None {
          return false;
        }
        var c := rec.value;
        crps := crps[c := Crp(Held(remote[src]), 1)];
        remote := remote[src := Cow(c)];
      }
      var k := remote[src].crp;
      crps := crps[k := Crp(crps[k].slot, crps[k].refcnt + 1)];
      remote := remote[dst := Cow(k)];
      assert State() == Share(p, src, dst, if rec.Some? then rec.value else 0);
      return true;
    }

    /** Sharing once more takes no new record, whatever the allocator would have said. */
    static lemma ShareCow(p: Pool, src: DescId, dst: DescId)
      requires Inv(p) && IsCow(p, src) && IsFree(p, dst) && src != dst
      ensures Inv(Share(p, src, dst, 0))
    {
      var c := FreshRecord(p.crps.Keys);
      ShareInv(p, src, dst, c);
    }

    static lemma FreshRecord(s: set<CrpId>) returns (c: CrpId)
      ensures c !in s
    {
      c := 0;
      var rest := s;
      while rest != {}
        invariant forall x :: x in s && x !in rest ==> x < c
        decreases rest
      {
        var x :| x in rest;
        rest := rest - {x};
        if x >= c {
          c := x + 1;
        }
      }
    }

    /** True if the remote page is still there for this descriptor alone. */
    method PutCow(d: DescId) returns (mine: bool)
      requires Inv(State()) && d in remote
      modifies this
      ensures Inv(State()) && State() == Put(old(State()), d)
      ensures mine <==> !old(IsCow(State(), d)) || old(crps[remote[d].crp].refcnt) == 1
    {
      hide CrpsCounted, HoldersUnique, SlotOf;
      RecordKnown(State(), d);
      PutInv(State(), d);
      if !remote[d].Cow? {
        return true;
      }
      var c := remote[d].crp;
      var left := crps[c].refcnt - 1;
      if left == 0 {
        remote := remote[d := Holding(crps[c].slot)];
        crps := crps - {c};
        return true;
      }
      crps := crps[c := Crp(crps[c].slot, left)];
      remote := remote[d := Free];
      return false;
    }

    /** Completion of a fetch. */
    method ClearFetching(d: DescId, reuse: bool)
      requires Inv(State()) && d in remote
      modifies this
      ensures Inv(State()) && State() == FetchDone(old(State()), d, reuse)
      ensures forall e :: e != d ==> SlotOf(State(), e) == old(SlotOf(State(), e))
      ensures SlotOf(State(), d) == if reuse && !SharedElsewhere(old(State()), d) then SlotOf(old(State()), d) else None
      ensures var gone := !reuse && !SharedElsewhere(old(State()), d) && SlotOf(old(State()), d).Some?;
              avail == old(avail) + if gone then {SlotOf(old(State()), d).value} else {}
    {
      hide CrpsCounted, HoldersUnique, SlotOf, SharedElsewhere;
      ghost var p := State();
      FetchDoneKeepsIff(p, d, reuse);
      RecordKnown(p, d);
      FetchDoneInv(p, d, reuse);
      var mine := PutCow(d);
      if mine && remote[d].Own? && !reuse {
        avail := avail + {remote[d].slot};
        remote := remote[d := Free];
      }
      assert State() == FetchDone(p, d, reuse);
      forall e | e != d
        ensures SlotOf(State(), e) == SlotOf(p, e)
      {
        assert SameFor(p, State(), e);
      }
    }
  }
}
