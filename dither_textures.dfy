/** The ordered-dither threshold textures built by the dither pass: one fixed
    N×N table of R8 texels per dither type, N ∈ {2, 3, 4, 8}. Each table holds
    the N² evenly spaced levels floor(k·255/(N²−1)), arranged by an index
    matrix: the Bayer matrix for N = 2 and 4, its transpose for N = 8 and the
    usual 3×3 ordered-dither matrix for N = 3. */
module DitherTextures {
  import opened Wrappers
  import opened Rendering
  import opened BayerMatrix

  /** The pass's dither type. A C# enum is an integer underneath, so a cast
      can produce values outside the four named cases. */
  newtype DitherType = int

  const Bayer2x2: DitherType := 0
  const Bayer3x3: DitherType := 1
  const Bayer4x4: DitherType := 2
  const Bayer8x8: DitherType := 3

  predicate IsNamed(t: DitherType)
  {
    Bayer2x2 <= t <= Bayer8x8
  }

  /** The side of the table for a named dither type. */
  function Order(t: DitherType): (n: nat)
    requires IsNamed(t)
    ensures n in {2, 3, 4, 8}
  {
    if t == Bayer2x2 then 2 else if t == Bayer3x3 then 3 else if t == Bayer4x4 then 4 else 8
  }

  // The texel bytes, row by row as they appear in the generator.
  const Pattern2x2: seq<byte> := [0, 170, 255, 85]
  const Pattern3x3: seq<byte> := [0, 223, 95, 191, 159, 63, 127, 31, 255]
  const Pattern4x4: seq<byte> :=
    [0, 136, 34, 170, 204, 68, 238, 102] +
    [51, 187, 17, 153, 255, 119, 221, 85]
  const Pattern8x8: seq<byte> :=
    [0, 194, 48, 242, 12, 206, 60, 255] +
    [129, 64, 178, 113, 141, 76, 190, 125] +
    [32, 226, 16, 210, 44, 238, 28, 222] +
    [161, 97, 145, 80, 174, 109, 157, 93] +
    [8, 202, 56, 250, 4, 198, 52, 246] +
    [137, 72, 186, 121, 133, 68, 182, 117] +
    [40, 234, 24, 218, 36, 230, 20, 214] +
    [170, 105, 153, 89, 165, 101, 149, 85]

  /** An n×n, single-channel, mipmap-free, linear texture holding `data`. */
  function R8Texture(n: nat, data: seq<byte>): Texture2D
  {
    Texture2D(n, n, R8, false, true, data)
  }

  /** The threshold texture for a dither type, or null for a value outside the
      four named types. A new texture is built on every call. */
  function GenerateDitherTexture(t: DitherType): (tex: Option<Texture2D>)
    ensures tex.Some? <==> IsNamed(t)
    ensures tex.Some? ==>
      var n := Order(t);
      tex.value.width == n && tex.value.height == n && |tex.value.data| == n * n &&
      tex.value.format == R8 && !tex.value.mipChain && tex.value.linear
  {
    if t == Bayer2x2 then Some(R8Texture(2, Pattern2x2))
    else if t == Bayer3x3 then Some(R8Texture(3, Pattern3x3))
    else if t == Bayer4x4 then Some(R8Texture(4, Pattern4x4))
    else if t == Bayer8x8 then Some(R8Texture(8, Pattern8x8))
    else None
  }

  // ---------------------------------------------------------------------------
  // The reference the tables are checked against.

  predicate Supported(n: nat)
  {
    n == 2 || n == 3 || n == 4 || n == 8
  }

  /** The k-th of the n² evenly spaced levels spanning 0..255. */
  function Level(n: nat, k: int): int
    requires Supported(n)
  {
    k * 255 / (n * n - 1)
  }

  /** The usual 3×3 ordered-dither matrix [[0, 7, 3], [6, 5, 2], [4, 1, 8]]. */
  function Matrix3x3(r: nat, c: nat): nat
    requires r < 3 && c < 3
  {
    [[0, 7, 3], [6, 5, 2], [4, 1, 8]][r][c]
  }

  /** Row and column of index `v` in the 3×3 matrix. */
  function Matrix3x3Row(v: nat): nat
  {
    if v < 9 then [0, 2, 1, 0, 2, 1, 1, 0, 2][v] else 0
  }

  function Matrix3x3Col(v: nat): nat
  {
    if v < 9 then [0, 1, 2, 2, 0, 1, 0, 1, 2][v] else 0
  }

  /** The reference index at row `r`, column `c` of the order-n table. */
  function ThresholdIndex(n: nat, r: nat, c: nat): nat
    requires Supported(n) && r < n && c < n
  {
    if n == 2 then Bayer(1, r, c)
    else if n == 3 then Matrix3x3(r, c)
    else if n == 4 then Bayer(2, r, c)
    else Bayer(3, c, r)
  }

  /** Cell of index `v` in the order-n reference matrix. */
  function IndexRow(n: nat, v: nat): nat
    requires Supported(n)
  {
    if n == 2 then BayerRow(1, v)
    else if n == 3 then Matrix3x3Row(v)
    else if n == 4 then BayerRow(2, v)
    else BayerCol(3, v)
  }

  function IndexCol(n: nat, v: nat): nat
    requires Supported(n)
  {
    if n == 2 then BayerCol(1, v)
    else if n == 3 then Matrix3x3Col(v)
    else if n == 4 then BayerCol(2, v)
    else BayerRow(3, v)
  }

  /** The order-n reference matrix is a bijection from its cells onto 0..n²−1. */
  lemma ThresholdIndexBijective(n: nat)
    requires Supported(n)
    ensures forall r, c | 0 <= r < n && 0 <= c < n :: ThresholdIndex(n, r, c) < n * n
    ensures forall r, c, r2, c2 | 0 <= r < n && 0 <= c < n && 0 <= r2 < n && 0 <= c2 < n ::
      ThresholdIndex(n, r, c) == ThresholdIndex(n, r2, c2) ==> r == r2 && c == c2
    ensures forall v | 0 <= v < n * n ::
      IndexRow(n, v) < n && IndexCol(n, v) < n && ThresholdIndex(n, IndexRow(n, v), IndexCol(n, v)) == v
  {
    if n == 3 {
      assert forall r, c | 0 <= r < 3 && 0 <= c < 3 ::
        Matrix3x3Row(Matrix3x3(r, c)) == r && Matrix3x3Col(Matrix3x3(r, c)) == c;
    } else {
      var k := if n == 2 then 1 else if n == 4 then 2 else 3;
      assert Pow2(k) == n && Pow4(k) == n * n;
      forall r, c | 0 <= r < n && 0 <= c < n
        ensures ThresholdIndex(n, r, c) < n * n
      {
        BayerBound(k, r, c);
        BayerBound(k, c, r);
      }
      forall r, c, r2, c2 | 0 <= r < n && 0 <= c < n && 0 <= r2 < n && 0 <= c2 < n &&
          ThresholdIndex(n, r, c) == ThresholdIndex(n, r2, c2)
        ensures r == r2 && c == c2
      {
        if n == 8 {
          BayerInjective(k, c, r, c2, r2);
        } else {
          BayerInjective(k, r, c, r2, c2);
        }
      }
      forall v | 0 <= v < n * n
        ensures IndexRow(n, v) < n && IndexCol(n, v) < n
        ensures ThresholdIndex(n, IndexRow(n, v), IndexCol(n, v)) == v
      {
        BayerSurjective(k, v);
      }
    }
  }

  /** Every entry of `data` holds the level of the reference index of its
      cell, the table being stored row by row. */
  ghost predicate MatchesReference(data: seq<int>, n: nat)
    requires Supported(n)
  {
    |data| == n * n &&
    forall i | 0 <= i < n * n :: data[i] == Level(n, ThresholdIndex(n, i / n, i % n))
  }

  /** `data` is a permutation of the n² levels: as many entries, pairwise
      distinct, and every level present. */
  ghost predicate IsLevelPermutation(data: seq<int>, n: nat)
    requires Supported(n)
  {
    |data| == n * n &&
    (forall i, j | 0 <= i < j < |data| :: data[i] != data[j]) &&
    (forall k | 0 <= k < n * n :: Level(n, k) in data)
  }

  /** Position `i` of a row-by-row table of side n is the cell (i / n, i % n),
      and back. */
  lemma CellOfPosition(n: nat, i: nat)
    requires Supported(n) && i < n * n
    ensures i / n < n && i % n < n && (i / n) * n + i % n == i
  {
  }

  lemma PositionOfCell(n: nat, r: nat, c: nat)
    requires Supported(n) && r < n && c < n
    ensures r * n + c < n * n && (r * n + c) / n == r && (r * n + c) % n == c
  {
  }

  /** The levels run from 0 to 255 and strictly increase with the index, so
      distinct indices give distinct levels. */
  lemma LevelStrictlyIncreasing(n: nat, k: int, k2: int)
    requires Supported(n) && 0 <= k < k2 <= n * n - 1
    ensures 0 <= Level(n, k) < Level(n, k2) <= 255
  {
    if n == 2 {
      assert Level(n, k) == k * 255 / 3 && Level(n, k2) == k2 * 255 / 3;
    } else if n == 3 {
      assert Level(n, k) == k * 255 / 8 && Level(n, k2) == k2 * 255 / 8;
    } else if n == 4 {
      assert Level(n, k) == k * 255 / 15 && Level(n, k2) == k2 * 255 / 15;
    } else {
      assert Level(n, k) == k * 255 / 63 && Level(n, k2) == k2 * 255 / 63;
    }
  }

  lemma LevelEnds(n: nat)
    requires Supported(n)
    ensures Level(n, 0) == 0 && Level(n, n * n - 1) == 255
  {
  }

  /** Any table that matches the reference is a permutation of the n² levels:
      the reference index is a bijection and the levels are distinct. */
  lemma {:induction false} ReferenceIsLevelPermutation(data: seq<int>, n: nat)
    requires Supported(n) && MatchesReference(data, n)
    ensures IsLevelPermutation(data, n)
    ensures 0 in data && 255 in data
  {
    ThresholdIndexBijective(n);
    forall i, j | 0 <= i < j < |data|
      ensures data[i] != data[j]
    {
      CellOfPosition(n, i);
      CellOfPosition(n, j);
      var a, b := ThresholdIndex(n, i / n, i % n), ThresholdIndex(n, j / n, j % n);
      if a < b {
        LevelStrictlyIncreasing(n, a, b);
      } else if b < a {
        LevelStrictlyIncreasing(n, b, a);
      }
    }
    forall k | 0 <= k < n * n
      ensures Level(n, k) in data
    {
      var r, c := IndexRow(n, k), IndexCol(n, k);
      PositionOfCell(n, r, c);
      assert data[r * n + c] == Level(n, k);
    }
    LevelEnds(n);
    assert Level(n, 0) in data && Level(n, n * n - 1) in data;
  }

  /** Row-by-row evaluation of the literal tables against the reference. */
  lemma Pattern2x2Cells()
    ensures forall r, c | 0 <= r < 2 && 0 <= c < 2 :: Pattern2x2[r * 2 + c] == Level(2, Bayer(1, r, c))
  {
    assert Pow2(0) == 1;
  }

  lemma Pattern3x3Cells()
    ensures forall r, c | 0 <= r < 3 && 0 <= c < 3 :: Pattern3x3[r * 3 + c] == Level(3, Matrix3x3(r, c))
  {
  }

  lemma Pattern4x4Cells()
    ensures forall r, c | 0 <= r < 4 && 0 <= c < 4 :: Pattern4x4[r * 4 + c] == Level(4, Bayer4(r, c))
  {
  }

  lemma Pattern8x8Rows01()
    ensures forall r, c | 0 <= r < 2 && 0 <= c < 8 :: Pattern8x8[r * 8 + c] == Level(8, Bayer8(c, r))
  {
  }

  lemma Pattern8x8Rows23()
    ensures forall r, c | 2 <= r < 4 && 0 <= c < 8 :: Pattern8x8[r * 8 + c] == Level(8, Bayer8(c, r))
  {
  }

  lemma Pattern8x8Rows45()
    ensures forall r, c | 4 <= r < 6 && 0 <= c < 8 :: Pattern8x8[r * 8 + c] == Level(8, Bayer8(c, r))
  {
  }

  lemma Pattern8x8Rows67()
    ensures forall r, c | 6 <= r < 8 && 0 <= c < 8 :: Pattern8x8[r * 8 + c] == Level(8, Bayer8(c, r))
  {
  }

  /** The 2×2 table is the order-2 Bayer matrix scaled by 85. */
  lemma Pattern2x2MatchesReference()
    ensures MatchesReference(Pattern2x2, 2)
  {
    Pattern2x2Cells();
    forall i | 0 <= i < 4
      ensures Pattern2x2[i] == Level(2, ThresholdIndex(2, i / 2, i % 2))
    {
      CellOfPosition(2, i);
    }
  }

  /** The 3×3 table is the 3×3 ordered-dither matrix scaled by 255/8. */
  lemma Pattern3x3MatchesReference()
    ensures MatchesReference(Pattern3x3, 3)
  {
    Pattern3x3Cells();
    forall i | 0 <= i < 9
      ensures Pattern3x3[i] == Level(3, ThresholdIndex(3, i / 3, i % 3))
    {
      CellOfPosition(3, i);
    }
  }

  /** The 4×4 table is the order-4 Bayer matrix scaled by 17. */
  lemma Pattern4x4MatchesReference()
    ensures MatchesReference(Pattern4x4, 4)
  {
    Pattern4x4Cells();
    forall i | 0 <= i < 16
      ensures Pattern4x4[i] == Level(4, ThresholdIndex(4, i / 4, i % 4))
    {
      CellOfPosition(4, i);
      Bayer4Unrolled(i / 4, i % 4);
    }
  }

  /** The 8×8 table is the transposed order-8 Bayer matrix scaled by 255/63. */
  lemma Pattern8x8MatchesReference()
    ensures MatchesReference(Pattern8x8, 8)
  {
    Pattern8x8Rows01();
    Pattern8x8Rows23();
    Pattern8x8Rows45();
    Pattern8x8Rows67();
    forall i | 0 <= i < 64
      ensures Pattern8x8[i] == Level(8, ThresholdIndex(8, i / 8, i % 8))
    {
      CellOfPosition(8, i);
      Bayer8Unrolled(i % 8, i / 8);
    }
  }

  /** Every texture the generator returns is a permutation of the evenly
      spaced levels of its size, laid out by the reference index matrix, and
      spans the full range 0..255. */
  lemma {:induction false} GeneratedTextureIsLevelPermutation(t: DitherType)
    requires IsNamed(t)
    ensures var tex := GenerateDitherTexture(t).value;
      MatchesReference(tex.data, Order(t)) && IsLevelPermutation(tex.data, Order(t)) &&
      0 in tex.data && 255 in tex.data
  {
    var data := GenerateDitherTexture(t).value.data;
    if t == Bayer2x2 {
      Pattern2x2MatchesReference();
    } else if t == Bayer3x3 {
      Pattern3x3MatchesReference();
    } else if t == Bayer4x4 {
      Pattern4x4MatchesReference();
    } else {
      Pattern8x8MatchesReference();
    }
    ReferenceIsLevelPermutation(data, Order(t));
  }
}
