/** Integer facts about the flat, row-major buffers the accumulator works on. */
module Arith {

  lemma MulNonNeg(a: int, b: int)
    requires a >= 0 && b >= 0
    ensures a * b >= 0
  {}

  /** A non-zero multiple of a positive d is at least d away from 0. */
  lemma MulAwayFromZero(k: int, d: int)
    requires d > 0
    ensures k >= 1 ==> k * d >= d
    ensures k <= -1 ==> k * d <= -d
  {
    if k >= 1 {
      MulNonNeg(k - 1, d);
      assert k * d == (k - 1) * d + d;
    } else if k <= -1 {
      MulNonNeg(-k - 1, d);
      assert k * d == -((-k - 1) * d) - d;
    }
  }

  /** Euclidean division is determined by quotient and remainder. */
  lemma DivModUnique(a: int, d: int, q: int, r: int)
    requires d > 0 && 0 <= r < d && a == q * d + r
    ensures a / d == q && a % d == r
  {
    var q' := a / d;
    assert (q - q') * d == a % d - r;
    MulAwayFromZero(q - q', d);
  }

  /** Row-major positions of a matrix with n rows of width m stay below m * n. */
  lemma MulMono(m: nat, row: nat, col: nat, n: nat)
    requires col < m && row < n
    ensures m * row + col < m * n
  {
    MulNonNeg(m, n - row - 1);
    assert m * n == m * row + m * (n - row - 1) + m;
  }

  lemma SquareBound(m: nat, row: nat, col: nat)
    requires col < m
    ensures row < m ==> m * row + col < m * m
  {
    if row < m { MulMono(m, row, col, m); }
  }

  /** m * y < m * n forces y < n. */
  lemma MulCancelLt(m: nat, y: nat, n: nat)
    ensures m * y < m * n ==> y < n
  {
    if y >= n {
      MulNonNeg(m, y - n);
      assert m * y == m * n + m * (y - n);
    }
  }

  /**
   * Real product as a named term. Weighted updates of buffer entries are
   * written with it so that the solver matches the products of an update and
   * of an invariant syntactically instead of reasoning about them.
   */
  function Times(a: real, b: real): real
  {
    a * b
  }

  /** Times distributes over a sum in its second factor. */
  lemma TimesAddRight(a: real, b: real, c: real)
    ensures Times(a, b + c) == Times(a, b) + Times(a, c)
  {
  }

  /** The outer factors of a nested product may swap. */
  lemma TimesSwapOuter(a: real, b: real, c: real)
    ensures Times(a, Times(b, c)) == Times(c, Times(b, a))
  {
  }

  /**
   * The offset m*row + col of entry (row, col) of a buffer whose rows are m
   * long. Its quotient and remainder by m give the entry back, so distinct
   * entries never share a position, and rows below m stay inside an m*m buffer.
   */
  function At(m: nat, row: nat, col: nat): (p: nat)
    requires col < m
    ensures p / m == row && p % m == col
    ensures row < m ==> p < m * m
  {
    DivModUnique(m * row + col, m, row, col);
    SquareBound(m, row, col);
    m * row + col
  }

  /** The two groupings of 3 * a * b that size the plane and the narrow z-stage space. */
  lemma Assoc3(a: nat, b: nat)
    ensures 3 * a * b == 3 * (a * b)
  {
  }
}
