/**
 * The Kronecker lift shared by the y-stage (row buffers alphax/betax into
 * plane buffers alphaxy/betaxy) and the z-stage (plane buffers into the final
 * alpha/beta) of spm_brainwarp.c.
 */
module Kronecker {
  import opened Arith
  import opened Layout
  import opened Sums
  import opened Buffers

  /**
   * Amount the lift adds to wide entry (R, C) of the pattern, read from the
   * narrow matrix s: spatial-spatial entries by the product of both basis
   * weights, intensity-spatial entries by the weight of the column, and
   * intensity-intensity entries unweighted.
   */
  function LiftEntry(s: seq<real>, w: seq<real>, b: nat, n: nat, q: nat, R: nat, C: nat): real
    requires |s| == (3 * b + q) * (3 * b + q) && |w| == n
    requires R < 3 * b * n + q && C < 3 * b * n + q && LiftPattern(b, n, q, R, C)
  {
    var v := s[At(3 * b + q, SrcIdx(b, n, q, R), SrcIdx(b, n, q, C))];
    if R < 3 * b * n then
      SpatialDecode(b, n, R); SpatialDecode(b, n, C);
      Times(Times(w[Basis(b, n, R)], w[Basis(b, n, C)]), v)
    else if C < 3 * b * n then
      SpatialDecode(b, n, C);
      Times(w[Basis(b, n, C)], v)
    else v
  }

  /** Amount the lift adds to wide vector entry R. */
  function LiftBetaEntry(sb: seq<real>, w: seq<real>, b: nat, n: nat, q: nat, R: nat): real
    requires |sb| == 3 * b + q && |w| == n && R < 3 * b * n + q
  {
    if R < 3 * b * n then
      SpatialDecode(b, n, R);
      Times(w[Basis(b, n, R)], sb[SrcIdx(b, n, q, R)])
    else sb[SrcIdx(b, n, q, R)]
  }

  /** The pattern lies on or below the diagonal: the lift never writes above it. */
  lemma PatternBelowDiagonal(b: nat, n: nat, q: nat, R: nat, C: nat)
    requires R < 3 * b * n + q && C < 3 * b * n + q && LiftPattern(b, n, q, R, C)
    ensures C <= R
  {
    if R < 3 * b * n && C < 3 * b * n {
      SpatialDecode(b, n, R);
      SpatialDecode(b, n, C);
      LexMono(b, n, Axis(b, n, C), Basis(b, n, C), Inner(b, n, C), Axis(b, n, R), Basis(b, n, R), Inner(b, n, R));
    }
  }

  lemma LexMono(b: nat, n: nat, i2: nat, y2: nat, x2: nat, i1: nat, y1: nat, x1: nat)
    requires i2 <= i1 < 3 && y2 <= y1 < n && x2 <= x1 < b
    ensures b * (n * i2 + y2) + x2 <= b * (n * i1 + y1) + x1
  {
    MulNonNeg(n, i1 - i2);
    assert n * i1 == n * i2 + n * (i1 - i2);
    MulNonNeg(b, (n * i1 + y1) - (n * i2 + y2));
    assert b * (n * i1 + y1) == b * (n * i2 + y2) + b * ((n * i1 + y1) - (n * i2 + y2));
  }

  /** The pattern reads the narrow matrix only on or below its diagonal. */
  lemma PatternReadsBelowDiagonal(b: nat, n: nat, q: nat, R: nat, C: nat)
    requires R < 3 * b * n + q && C < 3 * b * n + q && LiftPattern(b, n, q, R, C)
    ensures SrcIdx(b, n, q, C) <= SrcIdx(b, n, q, R)
  {
    if R < 3 * b * n && C < 3 * b * n {
      SpatialDecode(b, n, R);
      SpatialDecode(b, n, C);
      MulMono(b, Axis(b, n, C), Inner(b, n, C), 3);
      if Axis(b, n, C) < Axis(b, n, R) {
        MulMono(b, Axis(b, n, C), Inner(b, n, C), Axis(b, n, R));
        MulNonNeg(b, Axis(b, n, R));
      }
    } else if C < 3 * b * n {
      SpatialDecode(b, n, C);
      MulMono(b, Axis(b, n, C), Inner(b, n, C), 3);
    }
  }

  /**
   * The pointer bases of the C loops address the same entries as (row, column)
   * offsets: base + m1*x1 + x2 is entry (row base + x1, column base + x2) of the
   * wide matrix, and likewise for the narrow source.
   */
  lemma WidePointerOffset(b: nat, n: nat, q: nat, i1: nat, y1: nat, i2: nat, y2: nat, x1: nat, x2: nat)
    requires i1 < 3 && i2 < 3 && y1 < n && y2 < n && x1 < b && x2 < b
    ensures b * ((3 * b * n + q) * (n * i1 + y1) + n * i2 + y2) + (3 * b * n + q) * x1 + x2
         == (3 * b * n + q) * (b * (n * i1 + y1) + x1) + (b * (n * i2 + y2) + x2)
  {
    BaseOffset(b, 3 * b * n + q, n * i1 + y1, n * i2 + y2, x1, x2);
  }

  /** Distributing a block base b*(m*u + v) over rows of width m. */
  lemma BaseOffset(b: int, m: int, u: int, v: int, x1: int, x2: int)
    ensures b * (m * u + v) + m * x1 + x2 == m * (b * u + x1) + (b * v + x2)
  {
    assert b * (m * u + v) == m * (b * u) + b * v;
    assert m * (b * u) + m * x1 == m * (b * u + x1);
  }

  lemma NarrowPointerOffset(b: nat, q: nat, i1: nat, i2: nat, x1: nat, x2: nat)
    requires i1 < 3 && i2 < 3 && x1 < b && x2 < b
    ensures b * ((3 * b + q) * i1 + i2) + (3 * b + q) * x1 + x2 == At(3 * b + q, b * i1 + x1, b * i2 + x2)
  {
    var m2 := 3 * b + q;
    MulMono(b, i2, x2, 3);
    assert b * (m2 * i1 + i2) == m2 * (b * i1) + b * i2;
    assert m2 * (b * i1) + m2 * x1 == m2 * (b * i1 + x1);
  }

  /** A narrow block of b rows at (i, y) fits in the wide spatial range. */
  lemma BlockFits(b: nat, n: nat, i: nat, y: nat)
    requires i < 3 && y < n
    ensures b * (n * i + y) + b <= 3 * b * n
    ensures b * i + b <= 3 * b
  {
    MulNonNeg(b, 3 * n - (n * i + y + 1));
    assert b * (3 * n) == b * (n * i + y) + b + b * (3 * n - (n * i + y + 1));
    MulNonNeg(b, 2 - i);
  }

  /** Lexicographic progress through the (y1, i1, i2, y2) iterations. */
  predicate Done(b: nat, n: nat, q: nat, R: nat, C: nat, y1: nat, i1: nat, i2: nat, y2: nat)
    requires R < 3 * b * n + q && C < 3 * b * n + q
  {
    if R < 3 * b * n && C < 3 * b * n then
      var yR, iR, iC, yC := Basis(b, n, R), Axis(b, n, R), Axis(b, n, C), Basis(b, n, C);
      yR < y1 || (yR == y1 && (iR < i1 || (iR == i1 && (iC < i2 || (iC == i2 && yC < y2)))))
    else if R >= 3 * b * n && C < 3 * b * n then
      var yC, iC := Basis(b, n, C), Axis(b, n, C);
      yC < y1 || (yC == y1 && iC < i1)
    else false
  }

  /** Progress through the y1, i1 iterations for the vector. */
  predicate DoneB(b: nat, n: nat, R: nat, y1: nat, i1: nat)
  {
    R < 3 * b * n && (Basis(b, n, R) < y1 || (Basis(b, n, R) == y1 && Axis(b, n, R) < i1))
  }

  /** Matrix contents after the iterations recorded by the counters. */
  ghost predicate LiftedSoFar(d: seq<real>, d0: seq<real>, s: seq<real>, w: seq<real>,
                              b: nat, n: nat, q: nat, y1: nat, i1: nat, i2: nat, y2: nat)
    requires |d| == |d0| == (3 * b * n + q) * (3 * b * n + q)
    requires |s| == (3 * b + q) * (3 * b + q) && |w| == n
  {
    var m1 := 3 * b * n + q;
    forall R: nat, C: nat | R < m1 && C < m1 ::
      d[At(m1, R, C)] ==
        if LiftPattern(b, n, q, R, C) && Done(b, n, q, R, C, y1, i1, i2, y2)
        then d0[At(m1, R, C)] + LiftEntry(s, w, b, n, q, R, C)
        else d0[At(m1, R, C)]
  }

  /** Vector contents after the iterations recorded by the counters. */
  ghost predicate LiftedBetaSoFar(d: seq<real>, d0: seq<real>, sb: seq<real>, w: seq<real>,
                                  b: nat, n: nat, q: nat, y1: nat, i1: nat)
    requires |d| == |d0| == 3 * b * n + q && |sb| == 3 * b + q && |w| == n
  {
    forall R: nat | R < 3 * b * n + q ::
      d[R] == if DoneB(b, n, R, y1, i1) then d0[R] + LiftBetaEntry(sb, w, b, n, q, R) else d0[R]
  }

  /**
   * The spatial-spatial block of iteration (y1, i1, i2, y2) holds exactly the
   * pattern entries that this iteration completes.
   */
  lemma SpatialStep(b: nat, n: nat, q: nat, y1: nat, i1: nat, i2: nat, y2: nat, R: nat, C: nat)
    requires i2 <= i1 < 3 && y2 <= y1 < n && R < 3 * b * n + q && C < 3 * b * n + q
    ensures var R0, C0 := WideBase(b, n, i1, y1), WideBase(b, n, i2, y2);
      InBlock(R0, C0, b, b, true, R, C) ==>
        R < 3 * b * n && C < 3 * b * n && LiftPattern(b, n, q, R, C)
        && !Done(b, n, q, R, C, y1, i1, i2, y2) && Done(b, n, q, R, C, y1, i1, i2, y2 + 1)
        && Basis(b, n, R) == y1 && Basis(b, n, C) == y2
        && SrcIdx(b, n, q, R) == NarrowBase(b, i1) + (R - R0) && SrcIdx(b, n, q, C) == NarrowBase(b, i2) + (C - C0)
    ensures var R0, C0 := WideBase(b, n, i1, y1), WideBase(b, n, i2, y2);
      !InBlock(R0, C0, b, b, true, R, C) ==>
        ((LiftPattern(b, n, q, R, C) && Done(b, n, q, R, C, y1, i1, i2, y2 + 1)) ==
         (LiftPattern(b, n, q, R, C) && Done(b, n, q, R, C, y1, i1, i2, y2)))
  {
    BlockOf(b, n, i1, y1, R);
    BlockOf(b, n, i2, y2, C);
  }

  /** The intensity-spatial block of iteration (y1, i1) and the step to i1 + 1. */
  lemma IntensityStep(b: nat, n: nat, q: nat, y1: nat, i1: nat, R: nat, C: nat)
    requires i1 < 3 && y1 < n && R < 3 * b * n + q && C < 3 * b * n + q
    ensures var C0 := WideBase(b, n, i1, y1);
      InBlock(3 * b * n, C0, q, b, false, R, C) ==>
        R >= 3 * b * n && C < 3 * b * n && LiftPattern(b, n, q, R, C)
        && !Done(b, n, q, R, C, y1, i1, i1 + 1, 0) && Done(b, n, q, R, C, y1, i1 + 1, 0, 0)
        && Basis(b, n, C) == y1
        && SrcIdx(b, n, q, R) == 3 * b + (R - 3 * b * n) && SrcIdx(b, n, q, C) == NarrowBase(b, i1) + (C - C0)
    ensures var C0 := WideBase(b, n, i1, y1);
      !InBlock(3 * b * n, C0, q, b, false, R, C) ==>
        ((LiftPattern(b, n, q, R, C) && Done(b, n, q, R, C, y1, i1 + 1, 0, 0)) ==
         (LiftPattern(b, n, q, R, C) && Done(b, n, q, R, C, y1, i1, i1 + 1, 0)))
  {
    BlockOf(b, n, i1, y1, R);
    BlockOf(b, n, i1, y1, C);
  }

  /** Finishing the y2 loop of iteration (y1, i1, i2) is starting i2 + 1. */
  lemma NextColumnAxis(b: nat, n: nat, q: nat, y1: nat, i1: nat, i2: nat, R: nat, C: nat)
    requires R < 3 * b * n + q && C < 3 * b * n + q && LiftPattern(b, n, q, R, C)
    ensures Done(b, n, q, R, C, y1, i1, i2, y1 + 1) == Done(b, n, q, R, C, y1, i1, i2 + 1, 0)
  {
  }

  /** Finishing the i1 loop of iteration y1 is starting y1 + 1. */
  lemma NextBasis(b: nat, n: nat, q: nat, y1: nat, R: nat, C: nat)
    requires R < 3 * b * n + q && C < 3 * b * n + q
    ensures Done(b, n, q, R, C, y1, 3, 0, 0) == Done(b, n, q, R, C, y1 + 1, 0, 0, 0)
    ensures R < 3 * b * n ==> DoneB(b, n, R, y1, 3) == DoneB(b, n, R, y1 + 1, 0)
  {
    if R < 3 * b * n { SpatialDecode(b, n, R); }
    if C < 3 * b * n { SpatialDecode(b, n, C); }
  }

  /** The vector block of iteration (y1, i1). */
  lemma BetaStep(b: nat, n: nat, q: nat, y1: nat, i1: nat, R: nat)
    requires i1 < 3 && y1 < n && R < 3 * b * n + q
    ensures var R0 := WideBase(b, n, i1, y1);
      R0 <= R < R0 + b ==>
        R < 3 * b * n && !DoneB(b, n, R, y1, i1) && DoneB(b, n, R, y1, i1 + 1)
        && Basis(b, n, R) == y1 && SrcIdx(b, n, q, R) == NarrowBase(b, i1) + (R - R0)
    ensures var R0 := WideBase(b, n, i1, y1);
      !(R0 <= R < R0 + b) ==> DoneB(b, n, R, y1, i1 + 1) == DoneB(b, n, R, y1, i1)
  {
    BlockOf(b, n, i1, y1, R);
  }

  /** After every y1 iteration, only the intensity-intensity block is left. */
  lemma LastStep(b: nat, n: nat, q: nat, R: nat, C: nat)
    requires R < 3 * b * n + q && C < 3 * b * n + q
    ensures InBlock(3 * b * n, 3 * b * n, q, q, true, R, C) ==>
      LiftPattern(b, n, q, R, C) && !Done(b, n, q, R, C, n, 0, 0, 0)
      && SrcIdx(b, n, q, R) == 3 * b + (R - 3 * b * n) && SrcIdx(b, n, q, C) == 3 * b + (C - 3 * b * n)
    ensures !InBlock(3 * b * n, 3 * b * n, q, q, true, R, C) ==>
      (LiftPattern(b, n, q, R, C) == (LiftPattern(b, n, q, R, C) && Done(b, n, q, R, C, n, 0, 0, 0)))
    ensures R < 3 * b * n ==> DoneB(b, n, R, n, 0)
  {
    if R < 3 * b * n { SpatialDecode(b, n, R); }
    if C < 3 * b * n { SpatialDecode(b, n, C); }
  }

  /**
   * d is d0 after the whole lift of (s, w): every pattern entry has gained its
   * LiftEntry, every other entry is unchanged.
   */
  ghost predicate Lifted(d: seq<real>, d0: seq<real>, s: seq<real>, w: seq<real>, b: nat, n: nat, q: nat)
    requires |d| == |d0| == (3 * b * n + q) * (3 * b * n + q)
    requires |s| == (3 * b + q) * (3 * b + q) && |w| == n
  {
    var m1 := 3 * b * n + q;
    forall R: nat, C: nat | R < m1 && C < m1 ::
      d[At(m1, R, C)] ==
        if LiftPattern(b, n, q, R, C) then d0[At(m1, R, C)] + LiftEntry(s, w, b, n, q, R, C)
        else d0[At(m1, R, C)]
  }

  /** e is e0 after the whole lift of the vector sb. */
  ghost predicate LiftedBeta(e: seq<real>, e0: seq<real>, sb: seq<real>, w: seq<real>, b: nat, n: nat, q: nat)
    requires |e| == |e0| == 3 * b * n + q && |sb| == 3 * b + q && |w| == n
  {
    forall R: nat | R < 3 * b * n + q :: e[R] == e0[R] + LiftBetaEntry(sb, w, b, n, q, R)
  }

  lemma SpatialBlockLifted(d: seq<real>, d1: seq<real>, d0: seq<real>, s: seq<real>, w: seq<real>,
                           b: nat, n: nat, q: nat, y1: nat, i1: nat, i2: nat, y2: nat)
    requires |d| == |d1| == |d0| == (3 * b * n + q) * (3 * b * n + q)
    requires |s| == (3 * b + q) * (3 * b + q) && |w| == n
    requires i2 <= i1 < 3 && y2 <= y1 < n
    requires WideBase(b, n, i1, y1) + b <= 3 * b * n && WideBase(b, n, i2, y2) + b <= 3 * b * n
    requires NarrowBase(b, i1) + b <= 3 * b && NarrowBase(b, i2) + b <= 3 * b
    requires LiftedSoFar(d, d0, s, w, b, n, q, y1, i1, i2, y2)
    requires BlockAdded(d1, d, 3 * b * n + q, WideBase(b, n, i1, y1), WideBase(b, n, i2, y2),
                        s, 3 * b + q, NarrowBase(b, i1), NarrowBase(b, i2), b, b, true, Times(w[y1], w[y2]))
    ensures LiftedSoFar(d1, d0, s, w, b, n, q, y1, i1, i2, y2 + 1)
  {
    var m1 := 3 * b * n + q;
    forall R: nat, C: nat | R < m1 && C < m1
      ensures d1[At(m1, R, C)] ==
        if LiftPattern(b, n, q, R, C) && Done(b, n, q, R, C, y1, i1, i2, y2 + 1)
        then d0[At(m1, R, C)] + LiftEntry(s, w, b, n, q, R, C)
        else d0[At(m1, R, C)]
    {
      SpatialPoint(d, d1, d0, s, w, b, n, q, y1, i1, i2, y2, R, C);
    }
  }

  /** SpatialBlockLifted at one entry (R, C). */
  lemma SpatialPoint(d: seq<real>, d1: seq<real>, d0: seq<real>, s: seq<real>, w: seq<real>,
                           b: nat, n: nat, q: nat, y1: nat, i1: nat, i2: nat, y2: nat,
                    R: nat, C: nat)
    requires |d| == |d1| == |d0| == (3 * b * n + q) * (3 * b * n + q)
    requires |s| == (3 * b + q) * (3 * b + q) && |w| == n
    requires i2 <= i1 < 3 && y2 <= y1 < n
    requires WideBase(b, n, i1, y1) + b <= 3 * b * n && WideBase(b, n, i2, y2) + b <= 3 * b * n
    requires NarrowBase(b, i1) + b <= 3 * b && NarrowBase(b, i2) + b <= 3 * b
    requires LiftedSoFar(d, d0, s, w, b, n, q, y1, i1, i2, y2)
    requires BlockAdded(d1, d, 3 * b * n + q, WideBase(b, n, i1, y1), WideBase(b, n, i2, y2),
                        s, 3 * b + q, NarrowBase(b, i1), NarrowBase(b, i2), b, b, true, Times(w[y1], w[y2]))
    requires R < 3 * b * n + q && C < 3 * b * n + q
    ensures var m1 := 3 * b * n + q;
      d1[At(m1, R, C)] ==
        if LiftPattern(b, n, q, R, C) && Done(b, n, q, R, C, y1, i1, i2, y2 + 1)
        then d0[At(m1, R, C)] + LiftEntry(s, w, b, n, q, R, C)
        else d0[At(m1, R, C)]
  {
    SpatialStep(b, n, q, y1, i1, i2, y2, R, C);
  }

  lemma ColumnAxisLifted(d: seq<real>, d0: seq<real>, s: seq<real>, w: seq<real>,
                         b: nat, n: nat, q: nat, y1: nat, i1: nat, i2: nat)
    requires |d| == |d0| == (3 * b * n + q) * (3 * b * n + q)
    requires |s| == (3 * b + q) * (3 * b + q) && |w| == n
    requires LiftedSoFar(d, d0, s, w, b, n, q, y1, i1, i2, y1 + 1)
    ensures LiftedSoFar(d, d0, s, w, b, n, q, y1, i1, i2 + 1, 0)
  {
    var m1 := 3 * b * n + q;
    forall R: nat, C: nat | R < m1 && C < m1 && LiftPattern(b, n, q, R, C) {
      NextColumnAxis(b, n, q, y1, i1, i2, R, C);
    }
  }

  lemma IntensityBlockLifted(d: seq<real>, d1: seq<real>, d0: seq<real>, s: seq<real>, w: seq<real>,
                             b: nat, n: nat, q: nat, y1: nat, i1: nat)
    requires |d| == |d1| == |d0| == (3 * b * n + q) * (3 * b * n + q)
    requires |s| == (3 * b + q) * (3 * b + q) && |w| == n
    requires i1 < 3 && y1 < n
    requires WideBase(b, n, i1, y1) + b <= 3 * b * n && NarrowBase(b, i1) + b <= 3 * b
    requires LiftedSoFar(d, d0, s, w, b, n, q, y1, i1, i1 + 1, 0)
    requires BlockAdded(d1, d, 3 * b * n + q, 3 * b * n, WideBase(b, n, i1, y1),
                        s, 3 * b + q, 3 * b, NarrowBase(b, i1), q, b, false, w[y1])
    ensures LiftedSoFar(d1, d0, s, w, b, n, q, y1, i1 + 1, 0, 0)
  {
    var m1 := 3 * b * n + q;
    forall R: nat, C: nat | R < m1 && C < m1
      ensures d1[At(m1, R, C)] ==
        if LiftPattern(b, n, q, R, C) && Done(b, n, q, R, C, y1, i1 + 1, 0, 0)
        then d0[At(m1, R, C)] + LiftEntry(s, w, b, n, q, R, C)
        else d0[At(m1, R, C)]
    {
      IntensityPoint(d, d1, d0, s, w, b, n, q, y1, i1, R, C);
    }
  }

  /** IntensityBlockLifted at one entry (R, C). */
  lemma IntensityPoint(d: seq<real>, d1: seq<real>, d0: seq<real>, s: seq<real>, w: seq<real>,
                             b: nat, n: nat, q: nat, y1: nat, i1: nat, R: nat, C: nat)
    requires |d| == |d1| == |d0| == (3 * b * n + q) * (3 * b * n + q)
    requires |s| == (3 * b + q) * (3 * b + q) && |w| == n
    requires i1 < 3 && y1 < n
    requires WideBase(b, n, i1, y1) + b <= 3 * b * n && NarrowBase(b, i1) + b <= 3 * b
    requires LiftedSoFar(d, d0, s, w, b, n, q, y1, i1, i1 + 1, 0)
    requires BlockAdded(d1, d, 3 * b * n + q, 3 * b * n, WideBase(b, n, i1, y1),
                        s, 3 * b + q, 3 * b, NarrowBase(b, i1), q, b, false, w[y1])
    requires R < 3 * b * n + q && C < 3 * b * n + q
    ensures var m1 := 3 * b * n + q;
      d1[At(m1, R, C)] ==
        if LiftPattern(b, n, q, R, C) && Done(b, n, q, R, C, y1, i1 + 1, 0, 0)
        then d0[At(m1, R, C)] + LiftEntry(s, w, b, n, q, R, C)
        else d0[At(m1, R, C)]
  {
    IntensityStep(b, n, q, y1, i1, R, C);
  }

  lemma BetaBlockLifted(e: seq<real>, e1: seq<real>, e0: seq<real>, sb: seq<real>, w: seq<real>,
                        b: nat, n: nat, q: nat, y1: nat, i1: nat)
    requires |e| == |e1| == |e0| == 3 * b * n + q && |sb| == 3 * b + q && |w| == n
    requires i1 < 3 && y1 < n
    requires WideBase(b, n, i1, y1) + b <= 3 * b * n && NarrowBase(b, i1) + b <= 3 * b
    requires LiftedBetaSoFar(e, e0, sb, w, b, n, q, y1, i1)
    requires VecAdded(e1, e, WideBase(b, n, i1, y1), sb, NarrowBase(b, i1), b, w[y1])
    ensures LiftedBetaSoFar(e1, e0, sb, w, b, n, q, y1, i1 + 1)
  {
    forall R: nat | R < 3 * b * n + q
      ensures e1[R] == if DoneB(b, n, R, y1, i1 + 1) then e0[R] + LiftBetaEntry(sb, w, b, n, q, R) else e0[R]
    {
      BetaStep(b, n, q, y1, i1, R);
    }
  }

  lemma BasisLifted(d: seq<real>, d0: seq<real>, s: seq<real>, e: seq<real>, e0: seq<real>, sb: seq<real>,
                    w: seq<real>, b: nat, n: nat, q: nat, y1: nat)
    requires |d| == |d0| == (3 * b * n + q) * (3 * b * n + q)
    requires |s| == (3 * b + q) * (3 * b + q) && |w| == n
    requires |e| == |e0| == 3 * b * n + q && |sb| == 3 * b + q
    requires LiftedSoFar(d, d0, s, w, b, n, q, y1, 3, 0, 0)
    requires LiftedBetaSoFar(e, e0, sb, w, b, n, q, y1, 3)
    ensures LiftedSoFar(d, d0, s, w, b, n, q, y1 + 1, 0, 0, 0)
    ensures LiftedBetaSoFar(e, e0, sb, w, b, n, q, y1 + 1, 0)
  {
    var m1 := 3 * b * n + q;
    forall R: nat, C: nat | R < m1 && C < m1 {
      NextBasis(b, n, q, y1, R, C);
    }
    forall R: nat | R < m1 {
      NextBasis(b, n, q, y1, R, 0);
    }
  }

  lemma IntensityIntensityLifted(d: seq<real>, d1: seq<real>, d0: seq<real>, s: seq<real>,
                                 w: seq<real>, b: nat, n: nat, q: nat)
    requires |d| == |d1| == |d0| == (3 * b * n + q) * (3 * b * n + q)
    requires |s| == (3 * b + q) * (3 * b + q) && |w| == n
    requires BlockAdded(d1, d, 3 * b * n + q, 3 * b * n, 3 * b * n, s, 3 * b + q, 3 * b, 3 * b, q, q, true, 1.0)
    requires LiftedSoFar(d, d0, s, w, b, n, q, n, 0, 0, 0)
    ensures Lifted(d1, d0, s, w, b, n, q)
  {
    var m1 := 3 * b * n + q;
    forall R: nat, C: nat | R < m1 && C < m1
      ensures d1[At(m1, R, C)] ==
        if LiftPattern(b, n, q, R, C) then d0[At(m1, R, C)] + LiftEntry(s, w, b, n, q, R, C)
        else d0[At(m1, R, C)]
    {
      LastStep(b, n, q, R, C);
    }
  }

  lemma IntensityBetaLifted(e: seq<real>, e1: seq<real>, e0: seq<real>, sb: seq<real>,
                            w: seq<real>, b: nat, n: nat, q: nat)
    requires |e| == |e1| == |e0| == 3 * b * n + q && |sb| == 3 * b + q && |w| == n
    requires VecAdded(e1, e, 3 * b * n, sb, 3 * b, q, 1.0)
    requires LiftedBetaSoFar(e, e0, sb, w, b, n, q, n, 0)
    ensures LiftedBeta(e1, e0, sb, w, b, n, q)
  {
    forall R: nat | R < 3 * b * n + q
      ensures e1[R] == e0[R] + LiftBetaEntry(sb, w, b, n, q, R)
    {
      LastStep(b, n, q, R, R);
    }
  }

  /**
   * One (y1, i1) iteration of the lift loops: the spatial-spatial blocks for
   * every i2 <= i1 and y2 <= y1, weighted by w[y1] * w[y2], then the
   * intensity-spatial block and the vector block, weighted by w[y1].
   */
  method LiftAxis(dst: array<real>, dstB: array<real>, src: array<real>, srcB: array<real>,
                  b: nat, n: nat, q: nat, w: seq<real>, y1: nat, i1: nat,
                  ghost d0: seq<real>, ghost e0: seq<real>)
    requires dst != dstB && dst != src && dst != srcB && dstB != src && dstB != srcB
    requires dst.Length == (3 * b * n + q) * (3 * b * n + q) && dstB.Length == 3 * b * n + q
    requires src.Length == (3 * b + q) * (3 * b + q) && srcB.Length == 3 * b + q && |w| == n
    requires |d0| == (3 * b * n + q) * (3 * b * n + q) && |e0| == 3 * b * n + q
    requires i1 < 3 && y1 < n
    requires LiftedSoFar(dst[..], d0, src[..], w, b, n, q, y1, i1, 0, 0)
    requires LiftedBetaSoFar(dstB[..], e0, srcB[..], w, b, n, q, y1, i1)
    modifies dst, dstB
    ensures LiftedSoFar(dst[..], d0, src[..], w, b, n, q, y1, i1 + 1, 0, 0)
    ensures LiftedBetaSoFar(dstB[..], e0, srcB[..], w, b, n, q, y1, i1 + 1)
  {
    var m1, m2 := 3 * b * n + q, 3 * b + q;
    var wt := w[y1];
    BlockFits(b, n, i1, y1);
    for i2 := 0 to i1 + 1
      invariant LiftedSoFar(dst[..], d0, src[..], w, b, n, q, y1, i1, i2, 0)
      invariant dstB[..] == old(dstB[..])
    {
      for y2 := 0 to y1 + 1
        invariant LiftedSoFar(dst[..], d0, src[..], w, b, n, q, y1, i1, i2, y2)
        invariant dstB[..] == old(dstB[..])
      {
        var wt2 := Times(wt, w[y2]);
        BlockFits(b, n, i2, y2);
        ghost var before := dst[..];
        AddBlock(dst, m1, WideBase(b, n, i1, y1), WideBase(b, n, i2, y2), src, m2, NarrowBase(b, i1), NarrowBase(b, i2), b, b, true, wt2);
        SpatialBlockLifted(before, dst[..], d0, src[..], w, b, n, q, y1, i1, i2, y2);
      }
      ColumnAxisLifted(dst[..], d0, src[..], w, b, n, q, y1, i1, i2);
    }
    ghost var before := dst[..];
    AddBlock(dst, m1, 3 * b * n, WideBase(b, n, i1, y1), src, m2, 3 * b, NarrowBase(b, i1), q, b, false, wt);
    IntensityBlockLifted(before, dst[..], d0, src[..], w, b, n, q, y1, i1);
    ghost var beforeB := dstB[..];
    AddVec(dstB, WideBase(b, n, i1, y1), srcB, NarrowBase(b, i1), b, wt);
    BetaBlockLifted(beforeB, dstB[..], e0, srcB[..], w, b, n, q, y1, i1);
  }

  /**
   * The lift of a narrow system (src, srcB) into a wide one (dst, dstB): every
   * entry of the lift pattern gains its weighted narrow counterpart, every
   * other entry keeps its value, and every vector entry gains its weighted
   * narrow counterpart.
   */
  method Lift(dst: array<real>, dstB: array<real>, src: array<real>, srcB: array<real>,
              b: nat, n: nat, q: nat, w: seq<real>)
    requires dst != dstB && dst != src && dst != srcB && dstB != src && dstB != srcB
    requires dst.Length == (3 * b * n + q) * (3 * b * n + q) && dstB.Length == 3 * b * n + q
    requires src.Length == (3 * b + q) * (3 * b + q) && srcB.Length == 3 * b + q && |w| == n
    modifies dst, dstB
    ensures Lifted(dst[..], old(dst[..]), src[..], w, b, n, q)
    ensures LiftedBeta(dstB[..], old(dstB[..]), srcB[..], w, b, n, q)
  {
    var m1, m2 := 3 * b * n + q, 3 * b + q;
    ghost var d0, e0 := dst[..], dstB[..];
    for y1 := 0 to n
      invariant LiftedSoFar(dst[..], d0, src[..], w, b, n, q, y1, 0, 0, 0)
      invariant LiftedBetaSoFar(dstB[..], e0, srcB[..], w, b, n, q, y1, 0)
    {
      for i1 := 0 to 3
        invariant LiftedSoFar(dst[..], d0, src[..], w, b, n, q, y1, i1, 0, 0)
        invariant LiftedBetaSoFar(dstB[..], e0, srcB[..], w, b, n, q, y1, i1)
      {
        LiftAxis(dst, dstB, src, srcB, b, n, q, w, y1, i1, d0, e0);
      }
      BasisLifted(dst[..], d0, src[..], dstB[..], e0, srcB[..], w, b, n, q, y1);
    }
    ghost var d, e := dst[..], dstB[..];
    AddIntensity(dst, dstB, m1, 3 * b * n, src, srcB, m2, 3 * b, q);
    IntensityIntensityLifted(d, dst[..], d0, src[..], w, b, n, q);
    IntensityBetaLifted(e, dstB[..], e0, srcB[..], w, b, n, q);
  }
}
