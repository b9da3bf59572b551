/** Finite sums over real vectors and over lists of design rows. */
module Sums {
  import opened Arith

  /** Plain sum of a sequence, accumulated in index order. */
  function Total(s: seq<real>): real
    decreases |s|
  {
    if |s| == 0 then 0.0 else Total(s[..|s| - 1]) + s[|s| - 1]
  }

  /** Accumulating one more term extends the sum of a prefix. */
  lemma TotalPrefix(s: seq<real>, n: nat)
    requires n < |s|
    ensures Total(s[..n + 1]) == Total(s[..n]) + s[n]
  {
    assert s[..n + 1][..n] == s[..n];
  }

  /** Every row of the list has length m. */
  predicate Uniform(rows: seq<seq<real>>, m: nat)
  {
    forall k :: 0 <= k < |rows| ==> |rows[k]| == m
  }

  /** Entry (R, C) of the Gram matrix: the sum over rows d of d[R] * d[C]. */
  function GramAt(rows: seq<seq<real>>, m: nat, R: nat, C: nat): real
    requires Uniform(rows, m) && R < m && C < m
    decreases |rows|
  {
    if |rows| == 0 then 0.0
    else GramAt(rows[..|rows| - 1], m, R, C) + Times(rows[|rows| - 1][R], rows[|rows| - 1][C])
  }

  /** Entry R of the right-hand side: the sum over rows d, residuals e of d[R] * e. */
  function CrossAt(rows: seq<seq<real>>, res: seq<real>, m: nat, R: nat): real
    requires Uniform(rows, m) && |res| == |rows| && R < m
    decreases |rows|
  {
    if |rows| == 0 then 0.0
    else CrossAt(rows[..|rows| - 1], res[..|res| - 1], m, R) + Times(rows[|rows| - 1][R], res[|res| - 1])
  }

  /** Sum of squares of the residuals. */
  function SumSq(res: seq<real>): real
    decreases |res|
  {
    if |res| == 0 then 0.0 else SumSq(res[..|res| - 1]) + Times(res[|res| - 1], res[|res| - 1])
  }

  lemma {:induction false} GramAppend(a: seq<seq<real>>, b: seq<seq<real>>, m: nat, R: nat, C: nat)
    requires Uniform(a, m) && Uniform(b, m) && R < m && C < m
    ensures Uniform(a + b, m)
    ensures GramAt(a + b, m, R, C) == GramAt(a, m, R, C) + GramAt(b, m, R, C)
    decreases |b|
  {
    if |b| > 0 {
      var b' := b[..|b| - 1];
      assert (a + b)[..|a + b| - 1] == a + b';
      GramAppend(a, b', m, R, C);
    } else {
      assert a + b == a;
    }
  }

  lemma {:induction false} CrossAppend(a: seq<seq<real>>, ea: seq<real>, b: seq<seq<real>>, eb: seq<real>, m: nat, R: nat)
    requires Uniform(a, m) && Uniform(b, m) && |ea| == |a| && |eb| == |b| && R < m
    ensures Uniform(a + b, m)
    ensures CrossAt(a + b, ea + eb, m, R) == CrossAt(a, ea, m, R) + CrossAt(b, eb, m, R)
    decreases |b|
  {
    if |b| > 0 {
      var b', eb' := b[..|b| - 1], eb[..|eb| - 1];
      assert (a + b)[..|a + b| - 1] == a + b';
      assert (ea + eb)[..|ea + eb| - 1] == ea + eb';
      CrossAppend(a, ea, b', eb', m, R);
    } else {
      assert a + b == a;
      assert ea + eb == ea;
    }
  }

  lemma {:induction false} SumSqAppend(a: seq<real>, b: seq<real>)
    ensures SumSq(a + b) == SumSq(a) + SumSq(b)
    decreases |b|
  {
    if |b| > 0 {
      assert (a + b)[..|a + b| - 1] == a + b[..|b| - 1];
      SumSqAppend(a, b[..|b| - 1]);
    } else {
      assert a + b == a;
    }
  }

  /** Two Gram entries agree when every row gives them equal products. */
  lemma {:induction false} GramSameProducts(rows: seq<seq<real>>, m: nat, R1: nat, C1: nat, R2: nat, C2: nat)
    requires Uniform(rows, m) && R1 < m && C1 < m && R2 < m && C2 < m
    requires forall k :: 0 <= k < |rows| ==> Times(rows[k][R1], rows[k][C1]) == Times(rows[k][R2], rows[k][C2])
    ensures GramAt(rows, m, R1, C1) == GramAt(rows, m, R2, C2)
    decreases |rows|
  {
    if |rows| > 0 {
      GramSameProducts(rows[..|rows| - 1], m, R1, C1, R2, C2);
    }
  }

  /** The Gram matrix is symmetric. */
  lemma GramSymmetric(rows: seq<seq<real>>, m: nat, R: nat, C: nat)
    requires Uniform(rows, m) && R < m && C < m
    ensures GramAt(rows, m, R, C) == GramAt(rows, m, C, R)
  {
    GramSameProducts(rows, m, R, C, C, R);
  }

  /** Inner product of the first n entries of d and x. */
  function Dot(d: seq<real>, x: seq<real>, n: nat): real
    requires n <= |d| && n <= |x|
    decreases n
  {
    if n == 0 then 0.0 else Dot(d, x, n - 1) + Times(d[n - 1], x[n - 1])
  }

  /** The inner product of every row with x. */
  function Projections(rows: seq<seq<real>>, x: seq<real>, m: nat): seq<real>
    requires Uniform(rows, m) && |x| == m
  {
    seq(|rows|, k requires 0 <= k < |rows| => Dot(rows[k], x, m))
  }

  /** Sum over C < n of Gram entry (R, C) times x[C]. */
  function GramRowDot(rows: seq<seq<real>>, m: nat, x: seq<real>, R: nat, n: nat): real
    requires Uniform(rows, m) && |x| == m && R < m && n <= m
    decreases n
  {
    if n == 0 then 0.0 else GramRowDot(rows, m, x, R, n - 1) + Times(GramAt(rows, m, R, n - 1), x[n - 1])
  }

  /**
   * Sum over R < n of x[R] times row R of the Gram matrix applied to x; for
   * n == m this is the quadratic form of the Gram matrix at x.
   */
  function GramForm(rows: seq<seq<real>>, m: nat, x: seq<real>, n: nat): real
    requires Uniform(rows, m) && |x| == m && n <= m
    decreases n
  {
    if n == 0 then 0.0 else GramForm(rows, m, x, n - 1) + Times(x[n - 1], GramRowDot(rows, m, x, n - 1, m))
  }

  lemma {:induction false} GramFormEmpty(m: nat, x: seq<real>, n: nat)
    requires |x| == m && n <= m
    ensures GramForm([], m, x, n) == 0.0
    decreases n
  {
    if n > 0 {
      GramFormEmpty(m, x, n - 1);
      GramRowDotEmpty(m, x, n - 1, m);
    }
  }

  lemma {:induction false} GramRowDotEmpty(m: nat, x: seq<real>, R: nat, n: nat)
    requires |x| == m && R < m && n <= m
    ensures GramRowDot([], m, x, R, n) == 0.0
    decreases n
  {
    if n > 0 {
      GramRowDotEmpty(m, x, R, n - 1);
    }
  }

  /** Appending a row d adds d[R] times the projection of d to row R of the Gram matrix applied to x. */
  lemma {:induction false} GramRowDotLast(rows: seq<seq<real>>, d: seq<real>, m: nat, x: seq<real>, R: nat, n: nat)
    requires Uniform(rows, m) && |d| == m && |x| == m && R < m && n <= m
    ensures Uniform(rows + [d], m)
    ensures GramRowDot(rows + [d], m, x, R, n) == GramRowDot(rows, m, x, R, n) + Times(d[R], Dot(d, x, n))
    decreases n
  {
    assert Uniform(rows + [d], m);
    if n > 0 {
      GramRowDotLast(rows, d, m, x, R, n - 1);
      assert (rows + [d])[..|rows + [d]| - 1] == rows;
      assert GramAt(rows + [d], m, R, n - 1) == GramAt(rows, m, R, n - 1) + Times(d[R], d[n - 1]);
    }
  }

  /** Appending a row d adds the projection of d times its partial projection to the form. */
  lemma {:induction false} GramFormLast(rows: seq<seq<real>>, d: seq<real>, m: nat, x: seq<real>, n: nat)
    requires Uniform(rows, m) && |d| == m && |x| == m && n <= m
    ensures Uniform(rows + [d], m)
    ensures GramForm(rows + [d], m, x, n) == GramForm(rows, m, x, n) + Times(Dot(d, x, m), Dot(d, x, n))
    decreases n
  {
    assert Uniform(rows + [d], m);
    if n > 0 {
      GramFormLast(rows, d, m, x, n - 1);
      GramRowDotLast(rows, d, m, x, n - 1, m);
      var D, w := Dot(d, x, m), x[n - 1];
      TimesAddRight(w, GramRowDot(rows, m, x, n - 1, m), Times(d[n - 1], D));
      TimesAddRight(D, Dot(d, x, n - 1), Times(d[n - 1], w));
      TimesSwapOuter(w, d[n - 1], D);
    }
  }

  lemma {:induction false} SumSqNonNeg(res: seq<real>)
    ensures SumSq(res) >= 0.0
    decreases |res|
  {
    if |res| > 0 {
      SumSqNonNeg(res[..|res| - 1]);
      var e := res[|res| - 1];
      assert Times(e, e) >= 0.0 by {
        if e < 0.0 {
          assert Times(e, e) == (-e) * (-e);
        }
      }
    }
  }

  /**
   * The Gram matrix is positive semi-definite: its quadratic form at any x is
   * the sum of squares of the rows' projections onto x, so never negative.
   */
  lemma {:induction false} GramFormSumSq(rows: seq<seq<real>>, m: nat, x: seq<real>)
    requires Uniform(rows, m) && |x| == m
    ensures GramForm(rows, m, x, m) == SumSq(Projections(rows, x, m))
    ensures GramForm(rows, m, x, m) >= 0.0
    decreases |rows|
  {
    if |rows| == 0 {
      GramFormEmpty(m, x, m);
    } else {
      var r, d := rows[..|rows| - 1], rows[|rows| - 1];
      assert rows == r + [d];
      GramFormSumSq(r, m, x);
      GramFormLast(r, d, m, x, m);
      assert Projections(rows, x, m)[..|rows| - 1] == Projections(r, x, m);
    }
    SumSqNonNeg(Projections(rows, x, m));
  }
}
