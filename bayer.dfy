/** The classic ordered-dither index matrices of order 2^k, built by the
    recursive Bayer construction, together with their inverse. This is the
    reference the generated dither textures are checked against. */
module BayerMatrix {

  function Pow2(k: nat): (p: nat)
    ensures p >= 1
  {
    if k == 0 then 1 else 2 * Pow2(k - 1)
  }

  function Pow4(k: nat): (p: nat)
    ensures p >= 1
  {
    if k == 0 then 1 else 4 * Pow4(k - 1)
  }

  /** The order-2 seed [[0, 2], [3, 1]], indexed by row and column. */
  function Seed(r: nat, c: nat): (d: nat)
    requires r < 2 && c < 2
    ensures d < 4
  {
    if r == 0 then (if c == 0 then 0 else 2) else (if c == 0 then 3 else 1)
  }

  /** Row of the seed cell that holds digit `d`. */
  function SeedRow(d: nat): nat
  {
    if d == 0 || d == 2 then 0 else 1
  }

  /** Column of the seed cell that holds digit `d`. */
  function SeedCol(d: nat): nat
  {
    if d == 0 || d == 3 then 0 else 1
  }

  /** Which half of a side of length 2h the coordinate `x` falls in. */
  function Half(x: nat, h: nat): nat
  {
    if x < h then 0 else 1
  }

  /** The coordinate `x` relative to the start of its half. */
  function InHalf(x: nat, h: nat): nat
  {
    if x < h then x else x - h
  }

  /** Index at row `r`, column `c` of the Bayer matrix of order 2^k, by the
      recursive construction M(2h) = [[4M(h) + 0, 4M(h) + 2], [4M(h) + 3, 4M(h) + 1]]:
      the quadrant picks the seed digit, the position inside the quadrant picks
      the order-h index. */
  function Bayer(k: nat, r: nat, c: nat): nat
    decreases k
  {
    if k == 0 then 0
    else
      4 * Bayer(k - 1, InHalf(r, Pow2(k - 1)), InHalf(c, Pow2(k - 1)))
        + Seed(Half(r, Pow2(k - 1)), Half(c, Pow2(k - 1)))
  }

  /** Row at which index `v` sits in the Bayer matrix of order 2^k. */
  function BayerRow(k: nat, v: nat): nat
    decreases k
  {
    if k == 0 then 0
    else (if SeedRow(v % 4) == 0 then 0 else Pow2(k - 1)) + BayerRow(k - 1, v / 4)
  }

  /** Column at which index `v` sits in the Bayer matrix of order 2^k. */
  function BayerCol(k: nat, v: nat): nat
    decreases k
  {
    if k == 0 then 0
    else (if SeedCol(v % 4) == 0 then 0 else Pow2(k - 1)) + BayerCol(k - 1, v / 4)
  }

  /** Every index of the order-2^k matrix lies below 4^k. */
  lemma {:induction false} BayerBound(k: nat, r: nat, c: nat)
    requires r < Pow2(k) && c < Pow2(k)
    ensures Bayer(k, r, c) < Pow4(k)
  {
    if k > 0 {
      var h := Pow2(k - 1);
      BayerBound(k - 1, InHalf(r, h), InHalf(c, h));
    }
  }

  /** Distinct cells of the order-2^k matrix hold distinct indices. */
  lemma {:induction false} BayerInjective(k: nat, r: nat, c: nat, r2: nat, c2: nat)
    requires r < Pow2(k) && c < Pow2(k) && r2 < Pow2(k) && c2 < Pow2(k)
    requires Bayer(k, r, c) == Bayer(k, r2, c2)
    ensures r == r2 && c == c2
  {
    if k > 0 {
      var h := Pow2(k - 1);
      assert Seed(Half(r, h), Half(c, h)) == Seed(Half(r2, h), Half(c2, h));
      BayerInjective(k - 1, InHalf(r, h), InHalf(c, h), InHalf(r2, h), InHalf(c2, h));
    }
  }

  /** Every index below 4^k occurs in the order-2^k matrix, at the cell given
      by BayerRow and BayerCol. */
  lemma {:induction false} BayerSurjective(k: nat, v: nat)
    requires v < Pow4(k)
    ensures BayerRow(k, v) < Pow2(k) && BayerCol(k, v) < Pow2(k)
    ensures Bayer(k, BayerRow(k, v), BayerCol(k, v)) == v
  {
    if k > 0 {
      var h := Pow2(k - 1);
      BayerSurjective(k - 1, v / 4);
      var r, c := BayerRow(k, v), BayerCol(k, v);
      assert Half(r, h) == SeedRow(v % 4) && InHalf(r, h) == BayerRow(k - 1, v / 4);
      assert Half(c, h) == SeedCol(v % 4) && InHalf(c, h) == BayerCol(k - 1, v / 4);
    }
  }

  // Unrolled forms of the order-4 and order-8 matrices: one seed digit per
  // level of the construction, with the half-sizes written out.

  function Bayer4(r: nat, c: nat): nat
  {
    4 * Seed(Half(InHalf(r, 2), 1), Half(InHalf(c, 2), 1)) + Seed(Half(r, 2), Half(c, 2))
  }

  function Bayer8(r: nat, c: nat): nat
  {
    4 * Bayer4(InHalf(r, 4), InHalf(c, 4)) + Seed(Half(r, 4), Half(c, 4))
  }

  lemma Bayer4Unrolled(r: nat, c: nat)
    ensures Bayer(2, r, c) == Bayer4(r, c)
  {
    assert Pow2(1) == 2 && Pow2(0) == 1;
  }

  lemma Bayer8Unrolled(r: nat, c: nat)
    ensures Bayer(3, r, c) == Bayer8(r, c)
  {
    assert Pow2(2) == 4;
    Bayer4Unrolled(InHalf(r, 4), InHalf(c, 4));
  }
}
