/**
 * The quilt's row-major numbering, shared by both tile renderers: the tile in row `i` and
 * column `j` of a `tileX`-wide grid renders view `i * tileX + j`.
 */
module Quilt {

  /** The view rendered into the tile in row `i`, column `j`. */
  function ViewIndex(tileX: int, i: int, j: int): int
  {
    i * tileX + j
  }

  /** A loop bound `for (k = 0; k < n; ++k)` runs `Count(n)` times. */
  function Count(n: int): nat
  {
    if n > 0 then n else 0
  }

  lemma MulMono(a: int, b: int, c: int)
    requires 0 <= a <= b && c >= 0
    ensures a * c <= b * c
  {
  }

  /** A row of `c` tiles moves the running view counter from row `i` to row `i + 1`. */
  lemma RowsAdvance(i: int, c: int)
    ensures i * c + c == (i + 1) * c
  {
  }

  /** Row `i` of a `tileX * tileY` grid starts at view `i * tileX` and fits in the grid. */
  lemma RowBounds(tileX: int, tileY: int, i: int)
    requires tileX > 0 && 0 <= i < tileY
    ensures 0 <= i * tileX && i * tileX + tileX <= tileX * tileY
  {
    MulMono(0, i, tileX);
    MulMono(i + 1, tileY, tileX);
  }

  /** Every tile of the grid gets a view in `[0, tileX * tileY)`, and its row and column are recovered. */
  lemma ViewIndexInRange(tileX: int, tileY: int, i: int, j: int)
    requires 0 <= i < tileY && 0 <= j < tileX
    ensures 0 <= ViewIndex(tileX, i, j) < tileX * tileY
    ensures ViewIndex(tileX, i, j) / tileX == i && ViewIndex(tileX, i, j) % tileX == j
  {
    MulMono(i, tileY - 1, tileX);
    assert (tileY - 1) * tileX + tileX == tileX * tileY;
    DivModUnique(i * tileX + j, tileX, i, j);
  }

  /** Every view of `[0, tileX * tileY)` is rendered by exactly the tile `(k / tileX, k % tileX)`. */
  lemma TileOfView(tileX: int, tileY: int, k: int)
    requires tileX > 0 && 0 <= k < tileX * tileY
    ensures 0 <= k / tileX < tileY && 0 <= k % tileX < tileX
    ensures ViewIndex(tileX, k / tileX, k % tileX) == k
  {
    var q := k / tileX;
    assert q * tileX + k % tileX == k;
    if q >= tileY {
      MulMono(tileY, q, tileX);
      assert false;
    }
  }

  /** Distinct tiles render distinct views. */
  lemma ViewIndexInjective(tileX: int, tileY: int, i1: int, j1: int, i2: int, j2: int)
    requires 0 <= i1 < tileY && 0 <= j1 < tileX
    requires 0 <= i2 < tileY && 0 <= j2 < tileX
    requires ViewIndex(tileX, i1, j1) == ViewIndex(tileX, i2, j2)
    ensures i1 == i2 && j1 == j2
  {
    ViewIndexInRange(tileX, tileY, i1, j1);
    ViewIndexInRange(tileX, tileY, i2, j2);
  }

  /** Euclidean quotient and remainder are unique. */
  lemma DivModUnique(n: int, d: int, q: int, r: int)
    requires d > 0 && 0 <= r < d && n == q * d + r
    ensures n / d == q && n % d == r
  {
    var q' := n / d;
    var r' := n % d;
    assert q' * d + r' == n;
    if q' < q {
      MulMono(q' + 1, q, d);
      assert false;
    } else if q' > q {
      MulMono(q + 1, q', d);
      assert false;
    }
  }

  /** A slice inside the left operand of a concatenation. */
  lemma SliceLeft<T>(a: seq<T>, b: seq<T>, lo: int, hi: int)
    requires 0 <= lo <= hi <= |a|
    ensures (a + b)[lo .. hi] == a[lo .. hi]
  {
  }

  /** A slice that is exactly the right operand of a concatenation. */
  lemma SliceRight<T>(a: seq<T>, b: seq<T>)
    ensures (a + b)[|a| .. |a| + |b|] == b
  {
  }

  /** A slice of the middle operand of a three-way concatenation. */
  lemma SliceInner<T>(p: seq<T>, m: seq<T>, q: seq<T>, lo: int, hi: int)
    requires 0 <= lo <= hi <= |m|
    ensures (p + m + q)[|p| + lo .. |p| + hi] == m[lo .. hi]
  {
    assert (p + m + q)[|p| + lo .. |p| + hi] == (p + m)[|p| + lo .. |p| + hi];
  }

  /** An element of the middle operand of a three-way concatenation. */
  lemma IndexInner<T>(p: seq<T>, m: seq<T>, q: seq<T>, x: int)
    requires 0 <= x < |m|
    ensures (p + m + q)[|p| + x] == m[x]
  {
  }
}
