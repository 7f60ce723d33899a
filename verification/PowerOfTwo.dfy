/**
  Powers of two and the aligned grid that block heads live on.

  A descriptor group is allocated at an address which is a multiple of its own size, so the head of
  the block a descriptor belongs to is found by rounding its address down.  Addresses are counted in
  descriptors here.
 */
module PowerOfTwo {

  function Pow2(k: nat): (r: nat)
    ensures r >= 1
  {
    if k == 0 then 1 else 2 * Pow2(k - 1)
  }

  /** `m` rounded down to a multiple of `Pow2(k)`; `HeadIsModulo` gives the closed form. */
  function BlockHead(m: nat, k: nat): (h: nat)
    decreases k
  {
    if k == 0 then m else 2 * BlockHead(m / 2, k - 1)
  }

  lemma {:induction false} HeadBounds(m: nat, k: nat)
    ensures BlockHead(m, k) <= m < BlockHead(m, k) + Pow2(k)
  {
    if k > 0 {
      HeadBounds(m / 2, k - 1);
    }
  }

  /** Rounding on a coarse grid forgets a rounding on a finer one. */
  lemma {:induction false} HeadOfHead(m: nat, j: nat, k: nat)
    requires j <= k
    ensures BlockHead(BlockHead(m, j), k) == BlockHead(m, k)
    decreases k
  {
    if j > 0 {
      HeadOfHead(m / 2, j - 1, k - 1);
    }
  }

  lemma {:induction false} HeadUnique(h: nat, x: nat, k: nat)
    requires BlockHead(h, k) == h
    requires h <= x < h + Pow2(k)
    ensures BlockHead(x, k) == h
    decreases k
  {
    if k > 0 {
      HeadUnique(h / 2, x / 2, k - 1);
    }
  }

  /** A point on a coarse grid is on every finer grid. */
  lemma AlignedWeaken(h: nat, j: nat, k: nat)
    requires j <= k && BlockHead(h, k) == h
    ensures BlockHead(h, j) == h
    decreases k
  {
    if j > 0 {
      AlignedWeaken(h / 2, j - 1, k - 1);
    }
  }

  /** A block of order k+1 is two buddies of order k. */
  lemma {:induction false} BuddyHalves(h: nat, k: nat)
    requires BlockHead(h, k + 1) == h
    ensures BlockHead(h, k) == h
    ensures BlockHead(h + Pow2(k), k) == h + Pow2(k)
    decreases k
  {
    if k > 0 {
      BuddyHalves(h / 2, k - 1);
    }
  }

  /** The head one order up is either the same descriptor or the left buddy. */
  lemma {:induction false} HeadOneUp(h: nat, k: nat)
    requires BlockHead(h, k) == h
    ensures BlockHead(h, k + 1) == h || BlockHead(h, k + 1) + Pow2(k) == h
    decreases k
  {
    if k > 0 {
      HeadOneUp(h / 2, k - 1);
    }
  }

  lemma {:induction false} Pow2Monotone(j: nat, k: nat)
    requires j <= k
    ensures Pow2(j) <= Pow2(k)
    decreases k
  {
    if j < k {
      Pow2Monotone(j, k - 1);
    }
  }

  /** The block of `m` at a fine order lies inside its block at a coarse order. */
  lemma BlockNesting(m: nat, x: nat, j: nat, k: nat)
    requires j <= k && BlockHead(x, j) == BlockHead(m, j)
    ensures BlockHead(x, k) == BlockHead(m, k)
    ensures BlockHead(m, k) <= BlockHead(m, j)
    ensures BlockHead(m, j) + Pow2(j) <= BlockHead(m, k) + Pow2(k)
  {
    HeadOfHead(m, j, k);
    HeadOfHead(x, j, k);
    HeadBounds(BlockHead(m, j), k);
    HeadOfHead(m, j, j);
    var last := BlockHead(m, j) + Pow2(j) - 1;
    HeadUnique(BlockHead(m, j), last, j);
    HeadOfHead(last, j, k);
    HeadBounds(last, k);
  }

  lemma {:induction false} Pow2Split(j: nat, k: nat)
    requires j <= k
    ensures Pow2(k) == Pow2(j) * Pow2(k - j)
    decreases j
  {
    if j > 0 {
      Pow2Split(j - 1, k - 1);
      assert Pow2(k) == 2 * (Pow2(j - 1) * Pow2(k - j));
      assert Pow2(j) * Pow2(k - j) == (2 * Pow2(j - 1)) * Pow2(k - j);
    }
  }

  lemma {:induction false} HeadIsMultiple(m: nat, k: nat) returns (q: nat)
    ensures BlockHead(m, k) == q * Pow2(k)
  {
    if k == 0 {
      q := m;
    } else {
      q := HeadIsMultiple(m / 2, k - 1);
      assert 2 * (q * Pow2(k - 1)) == q * (2 * Pow2(k - 1));
    }
  }

  lemma ProductSmall(a: int, d: int)
    requires d >= 1 && -d < a * d < d
    ensures a == 0
  {
  }

  lemma Distribute(q: int, p: int, d: int)
    ensures (q - p) * d == q * d - p * d
  {
  }

  lemma QuotientUnique(m: nat, d: nat, q: nat)
    requires d >= 1 && q * d <= m < q * d + d
    ensures m / d == q && m % d == m - q * d
  {
    var p, r := m / d, m % d;
    assert m == p * d + r && 0 <= r < d;
    Distribute(q, p, d);
    ProductSmall(q - p, d);
  }

  /** The expression the head derivation evaluates: the address minus its remainder. */
  lemma HeadIsModulo(m: nat, k: nat)
    ensures BlockHead(m, k) == m - m % Pow2(k)
  {
    var q := HeadIsMultiple(m, k);
    HeadBounds(m, k);
    QuotientUnique(m, Pow2(k), q);
  }
}
