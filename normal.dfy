/**
 * What the accumulators of mrqcof hold: the lower triangle of each alpha
 * buffer is a Gram matrix (the sum of outer products of design rows) and each
 * beta buffer the sum of design rows weighted by their residuals.  The row
 * buffers alphax/betax collect one row of voxels (spm_brainwarp.c:244-250);
 * each Kronecker lift then turns the Gram matrix of narrow rows into the
 * Gram matrix of the wide rows they stand for.
 */
module Normal {
  import opened Arith
  import opened Layout
  import opened Sums
  import opened Kronecker
  import opened Coords
  import opened Symmetrise

  /** Every row of a list lifted with the same new-axis basis values w. */
  function LiftRows(rows: seq<seq<real>>, w: seq<real>, b: nat, n: nat, q: nat): (r: seq<seq<real>>)
    requires Uniform(rows, 3 * b + q) && |w| == n
    ensures |r| == |rows| && Uniform(r, 3 * b * n + q)
    ensures forall k :: 0 <= k < |rows| ==> r[k] == LiftRow(rows[k], w, b, n, q)
  {
    seq(|rows|, k requires 0 <= k < |rows| => LiftRow(rows[k], w, b, n, q))
  }

  /** Scaling both factors of every product scales their sum. */
  lemma ScaleStep(a: real, c: real, g: real, x: real, y: real)
    ensures Times(Times(a, c), g) + Times(Times(a, x), Times(c, y)) == Times(Times(a, c), g + Times(x, y))
  {
  }

  /** Scaling one factor of every product scales their sum. */
  lemma ScaleStep1(a: real, g: real, x: real, e: real)
    ensures Times(a, g) + Times(Times(a, x), e) == Times(a, g + Times(x, e))
  {
  }

  /**
   * The Gram matrix of lifted rows is the Gram matrix of the narrow rows,
   * read at the source indices and weighted by both factors.
   */
  lemma {:induction false} GramLift(rows: seq<seq<real>>, w: seq<real>, b: nat, n: nat, q: nat, R: nat, C: nat)
    requires Uniform(rows, 3 * b + q) && |w| == n && R < 3 * b * n + q && C < 3 * b * n + q
    ensures GramAt(LiftRows(rows, w, b, n, q), 3 * b * n + q, R, C) ==
      Times(Times(Factor(b, n, q, w, R), Factor(b, n, q, w, C)),
            GramAt(rows, 3 * b + q, SrcIdx(b, n, q, R), SrcIdx(b, n, q, C)))
    decreases |rows|
  {
    var L := LiftRows(rows, w, b, n, q);
    if |rows| > 0 {
      var k := |rows| - 1;
      assert L[..k] == LiftRows(rows[..k], w, b, n, q);
      GramLift(rows[..k], w, b, n, q, R, C);
      ScaleStep(Factor(b, n, q, w, R), Factor(b, n, q, w, C), GramAt(rows[..k], 3 * b + q, SrcIdx(b, n, q, R), SrcIdx(b, n, q, C)),
                rows[k][SrcIdx(b, n, q, R)], rows[k][SrcIdx(b, n, q, C)]);
    }
  }

  /** The weighted sum of lifted rows is that of the narrow rows, weighted by the factor. */
  lemma {:induction false} CrossLift(rows: seq<seq<real>>, res: seq<real>, w: seq<real>, b: nat, n: nat, q: nat, R: nat)
    requires Uniform(rows, 3 * b + q) && |res| == |rows| && |w| == n && R < 3 * b * n + q
    ensures CrossAt(LiftRows(rows, w, b, n, q), res, 3 * b * n + q, R) ==
      Times(Factor(b, n, q, w, R), CrossAt(rows, res, 3 * b + q, SrcIdx(b, n, q, R)))
    decreases |rows|
  {
    var L := LiftRows(rows, w, b, n, q);
    if |rows| > 0 {
      var k := |rows| - 1;
      assert L[..k] == LiftRows(rows[..k], w, b, n, q);
      CrossLift(rows[..k], res[..k], w, b, n, q, R);
      ScaleStep1(Factor(b, n, q, w, R), CrossAt(rows[..k], res[..k], 3 * b + q, SrcIdx(b, n, q, R)),
                 rows[k][SrcIdx(b, n, q, R)], res[k]);
    }
  }

  /** What the lift adds to a pattern entry is the source entry times both factors. */
  lemma LiftEntryFactored(s: seq<real>, w: seq<real>, b: nat, n: nat, q: nat, R: nat, C: nat)
    requires |s| == (3 * b + q) * (3 * b + q) && |w| == n
    requires R < 3 * b * n + q && C < 3 * b * n + q && LiftPattern(b, n, q, R, C)
    ensures LiftEntry(s, w, b, n, q, R, C) ==
      Times(Times(Factor(b, n, q, w, R), Factor(b, n, q, w, C)), s[At(3 * b + q, SrcIdx(b, n, q, R), SrcIdx(b, n, q, C))])
  {
  }

  /** What the lift adds to a vector entry is the source entry times the factor. */
  lemma LiftBetaFactored(sb: seq<real>, w: seq<real>, b: nat, n: nat, q: nat, R: nat)
    requires |sb| == 3 * b + q && |w| == n && R < 3 * b * n + q
    ensures LiftBetaEntry(sb, w, b, n, q, R) == Times(Factor(b, n, q, w, R), sb[SrcIdx(b, n, q, R)])
  {
  }

  /** The lower triangle of a holds the Gram matrix of rows. */
  ghost predicate LowerGram(a: seq<real>, m: nat, rows: seq<seq<real>>)
    requires |a| == m * m && Uniform(rows, m)
  {
    forall R: nat, C: nat | C <= R < m :: a[At(m, R, C)] == GramAt(rows, m, R, C)
  }

  /** Every entry of a, in both triangles, holds the Gram matrix of rows. */
  ghost predicate FullGram(a: seq<real>, m: nat, rows: seq<seq<real>>)
    requires |a| == m * m && Uniform(rows, m)
  {
    forall R: nat, C: nat | R < m && C < m :: a[At(m, R, C)] == GramAt(rows, m, R, C)
  }

  /**
   * The lower triangle of a plane buffer holds the Gram matrix of rows on the
   * pattern of the y-lift and zero off it.
   */
  ghost predicate PatternGram(a: seq<real>, b: nat, n: nat, q: nat, rows: seq<seq<real>>)
    requires |a| == (3 * b * n + q) * (3 * b * n + q) && Uniform(rows, 3 * b * n + q)
  {
    forall R: nat, C: nat | C <= R < 3 * b * n + q ::
      a[At(3 * b * n + q, R, C)] == if LiftPattern(b, n, q, R, C) then GramAt(rows, 3 * b * n + q, R, C) else 0.0
  }

  /**
   * The lower triangle of the final buffer holds the Gram matrix of rows on
   * the accumulated entries and zero off them.
   */
  ghost predicate AccumulatedGram(a: seq<real>, nx: nat, ny: nat, nz: nat, q: nat, rows: seq<seq<real>>)
    requires |a| == (3 * (nx * ny) * nz + q) * (3 * (nx * ny) * nz + q) && Uniform(rows, 3 * (nx * ny) * nz + q)
  {
    var P := 3 * (nx * ny) * nz + q;
    forall R: nat, C: nat | C <= R < P ::
      a[At(P, R, C)] == if Accumulated(nx, ny, nz, q, R, C) then GramAt(rows, P, R, C) else 0.0
  }

  /** Sum over C < n of a[At(m, R, C)] * x[C]: row R of buffer a applied to x. */
  function BufferRowDot(a: seq<real>, m: nat, x: seq<real>, R: nat, n: nat): real
    requires |a| == m * m && |x| == m && R < m && n <= m
    decreases n
  {
    if n == 0 then 0.0 else BufferRowDot(a, m, x, R, n - 1) + Times(a[At(m, R, n - 1)], x[n - 1])
  }

  /** Sum over R < n of x[R] times row R of a applied to x; for n == m the quadratic form of a at x. */
  function BufferForm(a: seq<real>, m: nat, x: seq<real>, n: nat): real
    requires |a| == m * m && |x| == m && n <= m
    decreases n
  {
    if n == 0 then 0.0 else BufferForm(a, m, x, n - 1) + Times(x[n - 1], BufferRowDot(a, m, x, n - 1, m))
  }

  lemma {:induction false} FullGramRowDot(a: seq<real>, m: nat, rows: seq<seq<real>>, x: seq<real>, R: nat, n: nat)
    requires |a| == m * m && Uniform(rows, m) && |x| == m && R < m && n <= m && FullGram(a, m, rows)
    ensures BufferRowDot(a, m, x, R, n) == GramRowDot(rows, m, x, R, n)
    decreases n
  {
    if n > 0 {
      FullGramRowDot(a, m, rows, x, R, n - 1);
    }
  }

  lemma {:induction false} FullGramFormPrefix(a: seq<real>, m: nat, rows: seq<seq<real>>, x: seq<real>, n: nat)
    requires |a| == m * m && Uniform(rows, m) && |x| == m && n <= m && FullGram(a, m, rows)
    ensures BufferForm(a, m, x, n) == GramForm(rows, m, x, n)
    decreases n
  {
    if n > 0 {
      FullGramFormPrefix(a, m, rows, x, n - 1);
      FullGramRowDot(a, m, rows, x, n - 1, m);
    }
  }

  /**
   * A buffer holding a Gram matrix in both triangles is positive
   * semi-definite: its quadratic form at any x is the sum of squares of the
   * rows' projections onto x.
   */
  lemma FullGramForm(a: seq<real>, m: nat, rows: seq<seq<real>>, x: seq<real>)
    requires |a| == m * m && Uniform(rows, m) && |x| == m && FullGram(a, m, rows)
    ensures BufferForm(a, m, x, m) == SumSq(Projections(rows, x, m))
    ensures BufferForm(a, m, x, m) >= 0.0
  {
    FullGramFormPrefix(a, m, rows, x, m);
    GramFormSumSq(rows, m, x);
  }

  /** Entries (R, C) and (C, R) of buffer a agree. */
  ghost predicate Symmetric(a: seq<real>, m: nat)
    requires |a| == m * m
  {
    forall R: nat, C: nat | R < m && C < m :: a[At(m, R, C)] == a[At(m, C, R)]
  }

  /** The quadratic form of buffer a is never negative. */
  ghost predicate SemiDefinite(a: seq<real>, m: nat)
    requires |a| == m * m
  {
    forall x: seq<real> | |x| == m :: BufferForm(a, m, x, m) >= 0.0
  }

  /** A buffer holding a Gram matrix in both triangles is symmetric and positive semi-definite. */
  lemma FullGramShape(a: seq<real>, m: nat, rows: seq<seq<real>>)
    requires |a| == m * m && Uniform(rows, m) && FullGram(a, m, rows)
    ensures Symmetric(a, m) && SemiDefinite(a, m)
  {
    forall R: nat, C: nat | R < m && C < m
      ensures a[At(m, R, C)] == a[At(m, C, R)]
    {
      GramSymmetric(rows, m, R, C);
    }
    forall x: seq<real> | |x| == m
      ensures BufferForm(a, m, x, m) >= 0.0
    {
      FullGramForm(a, m, rows, x);
    }
  }

  /** Entry R of e is the residual-weighted sum of the rows' entries R. */
  ghost predicate VecCross(e: seq<real>, m: nat, rows: seq<seq<real>>, res: seq<real>)
    requires |e| == m && Uniform(rows, m) && |res| == |rows|
  {
    forall R | 0 <= R < m :: e[R] == CrossAt(rows, res, m, R)
  }

  /** Adding the outer product of d to the lower triangle appends d to the rows. */
  lemma OuterStep(a1: seq<real>, a0: seq<real>, m: nat, rows: seq<seq<real>>, d: seq<real>)
    requires |a1| == |a0| == m * m && Uniform(rows, m) && |d| == m
    requires LowerGram(a0, m, rows)
    requires forall R: nat, C: nat | C <= R < m :: a1[At(m, R, C)] == a0[At(m, R, C)] + Times(d[R], d[C])
    ensures Uniform(rows + [d], m) && LowerGram(a1, m, rows + [d])
  {
    var rows' := rows + [d];
    assert rows'[..|rows|] == rows;
    forall R: nat, C: nat | C <= R < m
      ensures a1[At(m, R, C)] == GramAt(rows', m, R, C)
    {
    }
  }

  /** Adding d weighted by its residual e appends both. */
  lemma CrossStep(b1: seq<real>, b0: seq<real>, m: nat, rows: seq<seq<real>>, res: seq<real>, d: seq<real>, e: real)
    requires |b1| == |b0| == m && Uniform(rows, m) && |res| == |rows| && |d| == m
    requires VecCross(b0, m, rows, res)
    requires forall R | 0 <= R < m :: b1[R] == b0[R] + Times(d[R], e)
    ensures Uniform(rows + [d], m) && VecCross(b1, m, rows + [d], res + [e])
  {
    var rows', res' := rows + [d], res + [e];
    assert rows'[..|rows|] == rows;
    assert res'[..|res|] == res;
  }

  /**
   * The y-lift of a row buffer holding the Gram matrix of rows into a plane
   * buffer appends the lifted rows to the plane's.
   */
  lemma YLiftStep(d1: seq<real>, d0: seq<real>, s: seq<real>, w: seq<real>, b: nat, n: nat, q: nat,
                  plane: seq<seq<real>>, rows: seq<seq<real>>)
    requires |d1| == |d0| == (3 * b * n + q) * (3 * b * n + q)
    requires |s| == (3 * b + q) * (3 * b + q) && |w| == n
    requires Uniform(plane, 3 * b * n + q) && Uniform(rows, 3 * b + q)
    requires Lifted(d1, d0, s, w, b, n, q)
    requires PatternGram(d0, b, n, q, plane) && LowerGram(s, 3 * b + q, rows)
    ensures Uniform(plane + LiftRows(rows, w, b, n, q), 3 * b * n + q)
    ensures PatternGram(d1, b, n, q, plane + LiftRows(rows, w, b, n, q))
  {
    var m1 := 3 * b * n + q;
    var L := LiftRows(rows, w, b, n, q);
    forall R: nat, C: nat | C <= R < m1
      ensures d1[At(m1, R, C)] == if LiftPattern(b, n, q, R, C) then GramAt(plane + L, m1, R, C) else 0.0
    {
      assert d1[At(m1, R, C)] ==
        if LiftPattern(b, n, q, R, C) then d0[At(m1, R, C)] + LiftEntry(s, w, b, n, q, R, C) else d0[At(m1, R, C)];
      if LiftPattern(b, n, q, R, C) {
        PatternReadsBelowDiagonal(b, n, q, R, C);
        LiftEntryFactored(s, w, b, n, q, R, C);
        GramLift(rows, w, b, n, q, R, C);
        GramAppend(plane, L, m1, R, C);
      }
    }
  }

  /**
   * The lift of a vector holding the weighted sum of rows appends the lifted
   * rows and their residuals; used by both stages.
   */
  lemma BetaLiftStep(e1: seq<real>, e0: seq<real>, sb: seq<real>, w: seq<real>, b: nat, n: nat, q: nat,
                     wide: seq<seq<real>>, wres: seq<real>, rows: seq<seq<real>>, res: seq<real>)
    requires |e1| == |e0| == 3 * b * n + q && |sb| == 3 * b + q && |w| == n
    requires Uniform(wide, 3 * b * n + q) && |wres| == |wide| && Uniform(rows, 3 * b + q) && |res| == |rows|
    requires LiftedBeta(e1, e0, sb, w, b, n, q)
    requires VecCross(e0, 3 * b * n + q, wide, wres) && VecCross(sb, 3 * b + q, rows, res)
    ensures Uniform(wide + LiftRows(rows, w, b, n, q), 3 * b * n + q)
    ensures VecCross(e1, 3 * b * n + q, wide + LiftRows(rows, w, b, n, q), wres + res)
  {
    var m1 := 3 * b * n + q;
    var L := LiftRows(rows, w, b, n, q);
    forall R | 0 <= R < m1
      ensures e1[R] == CrossAt(wide + L, wres + res, m1, R)
    {
      LiftBetaFactored(sb, w, b, n, q, R);
      CrossLift(rows, res, w, b, n, q, R);
      CrossAppend(wide, wres, L, res, m1, R);
    }
  }

  /**
   * A spatial index of the final space draws, through the z-lift, from the
   * plane index of the same component and in-plane basis functions.
   */
  lemma ZSource(nx: nat, ny: nat, nz: nat, q: nat, R: nat)
    requires R < 3 * (nx * ny) * nz
    ensures CompI(nx, ny, nz, R) < 3 && CompY(nx, ny, nz, R) < ny && CompX(nx, ny, nz, R) < nx
    ensures SrcIdx(nx * ny, nz, q, R) == Spatial(nx, ny, CompI(nx, ny, nz, R), CompY(nx, ny, nz, R), CompX(nx, ny, nz, R))
  {
    IndexDecode(nx, ny, nz, R);
    InnerSplit(nx, ny, nz, R);
    PlaneOffset(nx, ny, CompI(nx, ny, nz, R), CompY(nx, ny, nz, R), CompX(nx, ny, nz, R));
  }

  lemma PlaneOffset(nx: nat, ny: nat, i: nat, y: nat, x: nat)
    ensures nx * (ny * i + y) + x == (nx * ny) * i + (nx * y + x)
  {
    assert nx * (ny * i + y) == nx * (ny * i) + nx * y;
    assert nx * (ny * i) == (nx * ny) * i;
  }

  /**
   * The entries the two lifts compute together are those on the z-lift's
   * pattern whose sources lie on the y-lift's pattern.
   */
  lemma AccumulatedByStages(nx: nat, ny: nat, nz: nat, q: nat, R: nat, C: nat)
    requires R < 3 * (nx * ny) * nz + q && C < 3 * (nx * ny) * nz + q
    ensures 3 * (nx * ny) + q == 3 * nx * ny + q
    ensures Accumulated(nx, ny, nz, q, R, C) <==>
      LiftPattern(nx * ny, nz, q, R, C) && LiftPattern(nx, ny, q, SrcIdx(nx * ny, nz, q, R), SrcIdx(nx * ny, nz, q, C))
  {
    var N3 := 3 * (nx * ny) * nz;
    assert 3 * (nx * ny) == 3 * nx * ny;
    var sR, sC := SrcIdx(nx * ny, nz, q, R), SrcIdx(nx * ny, nz, q, C);
    if R < N3 && C < N3 {
      SpatialByStages(nx, ny, nz, q, R, C);
    } else if R < N3 {
      assert !LiftPattern(nx * ny, nz, q, R, C);
    } else if C < N3 {
      ZSource(nx, ny, nz, q, C);
      assert sC < 3 * nx * ny <= sR;
      assert LiftPattern(nx, ny, q, sR, sC);
    } else {
      assert 3 * nx * ny <= sC && 3 * nx * ny <= sR;
      assert sC <= sR <==> C <= R;
    }
  }

  lemma SpatialByStages(nx: nat, ny: nat, nz: nat, q: nat, R: nat, C: nat)
    requires R < 3 * (nx * ny) * nz && C < 3 * (nx * ny) * nz
    ensures SrcIdx(nx * ny, nz, q, R) < 3 * nx * ny && SrcIdx(nx * ny, nz, q, C) < 3 * nx * ny
    ensures Accumulated(nx, ny, nz, q, R, C) <==>
      LiftPattern(nx * ny, nz, q, R, C) && LiftPattern(nx, ny, q, SrcIdx(nx * ny, nz, q, R), SrcIdx(nx * ny, nz, q, C))
  {
    ZSource(nx, ny, nz, q, R);
    ZSource(nx, ny, nz, q, C);
    var yR, xR, yC, xC := CompY(nx, ny, nz, R), CompX(nx, ny, nz, R), CompY(nx, ny, nz, C), CompX(nx, ny, nz, C);
    InnerSplit(nx, ny, nz, R);
    InnerSplit(nx, ny, nz, C);
    if yC <= yR && xC <= xR {
      InnerMono(nx, yC, xC, yR, xR);
    }
  }

  lemma InnerSplit(nx: nat, ny: nat, nz: nat, R: nat)
    requires R < 3 * (nx * ny) * nz
    ensures Inner(nx * ny, nz, R) == nx * CompY(nx, ny, nz, R) + CompX(nx, ny, nz, R)
  {
  }

  lemma InnerMono(nx: nat, yC: nat, xC: nat, yR: nat, xR: nat)
    requires yC <= yR && xC <= xR
    ensures nx * yC + xC <= nx * yR + xR
  {
    MulNonNeg(nx, yR - yC);
    assert nx * yR == nx * yC + nx * (yR - yC);
  }

  /**
   * The z-lift of a plane buffer holding the Gram matrix of the plane's rows
   * on the y-lift's pattern appends the lifted plane rows to the volume's, on
   * the accumulated entries.
   */
  lemma ZLiftStep(d1: seq<real>, d0: seq<real>, s: seq<real>, w: seq<real>, nx: nat, ny: nat, nz: nat, q: nat,
                  full: seq<seq<real>>, plane: seq<seq<real>>)
    requires |d1| == |d0| == (3 * (nx * ny) * nz + q) * (3 * (nx * ny) * nz + q)
    requires |s| == (3 * nx * ny + q) * (3 * nx * ny + q) && |w| == nz
    requires Uniform(full, 3 * (nx * ny) * nz + q) && Uniform(plane, 3 * nx * ny + q)
    requires 3 * (nx * ny) + q == 3 * nx * ny + q
    requires Lifted(d1, d0, s, w, nx * ny, nz, q)
    requires AccumulatedGram(d0, nx, ny, nz, q, full) && PatternGram(s, nx, ny, q, plane)
    ensures Uniform(full + LiftRows(plane, w, nx * ny, nz, q), 3 * (nx * ny) * nz + q)
    ensures AccumulatedGram(d1, nx, ny, nz, q, full + LiftRows(plane, w, nx * ny, nz, q))
  {
    var b := nx * ny;
    var P := 3 * b * nz + q;
    var L := LiftRows(plane, w, b, nz, q);
    forall R: nat, C: nat | C <= R < P
      ensures d1[At(P, R, C)] == if Accumulated(nx, ny, nz, q, R, C) then GramAt(full + L, P, R, C) else 0.0
    {
      ZLiftPoint(d1, d0, s, w, nx, ny, nz, q, full, plane, R, C);
    }
  }

  /** ZLiftStep at one entry (R, C) of the lower triangle. */
  lemma ZLiftPoint(d1: seq<real>, d0: seq<real>, s: seq<real>, w: seq<real>, nx: nat, ny: nat, nz: nat, q: nat,
                  full: seq<seq<real>>, plane: seq<seq<real>>, R: nat, C: nat)
    requires |d1| == |d0| == (3 * (nx * ny) * nz + q) * (3 * (nx * ny) * nz + q)
    requires |s| == (3 * nx * ny + q) * (3 * nx * ny + q) && |w| == nz
    requires Uniform(full, 3 * (nx * ny) * nz + q) && Uniform(plane, 3 * nx * ny + q)
    requires 3 * (nx * ny) + q == 3 * nx * ny + q
    requires Lifted(d1, d0, s, w, nx * ny, nz, q)
    requires AccumulatedGram(d0, nx, ny, nz, q, full) && PatternGram(s, nx, ny, q, plane)
    requires C <= R < 3 * (nx * ny) * nz + q
    ensures Uniform(full + LiftRows(plane, w, nx * ny, nz, q), 3 * (nx * ny) * nz + q)
    ensures var P := 3 * (nx * ny) * nz + q;
      d1[At(P, R, C)] ==
        if Accumulated(nx, ny, nz, q, R, C) then GramAt(full + LiftRows(plane, w, nx * ny, nz, q), P, R, C) else 0.0
  {
    var b := nx * ny;
    var P := 3 * b * nz + q;
    var L := LiftRows(plane, w, b, nz, q);
    AccumulatedByStages(nx, ny, nz, q, R, C);
    assert d1[At(P, R, C)] ==
      if LiftPattern(b, nz, q, R, C) then d0[At(P, R, C)] + LiftEntry(s, w, b, nz, q, R, C) else d0[At(P, R, C)];
    if LiftPattern(b, nz, q, R, C) {
      PatternReadsBelowDiagonal(b, nz, q, R, C);
      LiftEntryFactored(s, w, b, nz, q, R, C);
      if Accumulated(nx, ny, nz, q, R, C) {
        GramLift(plane, w, b, nz, q, R, C);
        GramAppend(full, L, P, R, C);
      }
    }
  }
}
