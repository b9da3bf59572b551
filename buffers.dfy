/**
 * In-place passes over the flat square buffers of the accumulator: a buffer
 * for an m-parameter system holds entry (R, C) at At(m, R, C); "lower" means
 * C <= R.
 */
module Buffers {
  import opened Arith

  /** Entry (R, C) of a square buffer of side m, read from its contents. */
  function Entry(a: seq<real>, m: nat, R: nat, C: nat): real
    requires |a| == m * m && R < m && C < m
  {
    a[At(m, R, C)]
  }

  /**
   * Zeroes the lower triangle (diagonal included) of a and the first m entries
   * of b, leaving the strict upper triangle of a as it was.
   */
  method ZeroLower(a: array<real>, b: array<real>, m: nat)
    requires a != b && a.Length == m * m && b.Length == m
    modifies a, b
    ensures forall R: nat, C: nat | R < m && C < m ::
      a[At(m, R, C)] == if C <= R then 0.0 else old(a[At(m, R, C)])
    ensures forall R | 0 <= R < m :: b[R] == 0.0
  {
    for x1 := 0 to m
      invariant forall R: nat, C: nat | R < m && C < m ::
        a[At(m, R, C)] == if C <= R && R < x1 then 0.0 else old(a[At(m, R, C)])
      invariant forall R | 0 <= R < x1 :: b[R] == 0.0
    {
      for x2 := 0 to x1 + 1
        invariant forall R: nat, C: nat | R < m && C < m ::
          a[At(m, R, C)] == if C <= R && (R < x1 || (R == x1 && C < x2)) then 0.0 else old(a[At(m, R, C)])
        invariant forall R | 0 <= R < x1 :: b[R] == 0.0
      {
        a[At(m, x1, x2)] := 0.0;
      }
      b[x1] := 0.0;
    }
  }

  /** The contents of a buffer after its first m entries are multiplied by s. */
  function ScaledBy(d: seq<real>, m: nat, s: real): (r: seq<real>)
    requires m <= |d|
    ensures |r| == |d|
  {
    seq(|d|, i requires 0 <= i < |d| => if i < m then Times(d[i], s) else d[i])
  }

  /** Entry i of the first m is multiplied by s. */
  lemma ScaledAt(d: seq<real>, m: nat, s: real, i: nat)
    requires i < m <= |d|
    ensures ScaledBy(d, m, s)[i] == Times(d[i], s)
  {
  }

  /** Multiplies the first m entries of dat by s; the rest is unchanged. */
  method Scale(m: nat, dat: array<real>, s: real)
    requires m <= dat.Length
    modifies dat
    ensures dat[..] == ScaledBy(old(dat[..]), m, s)
  {
    for i := 0 to m
      invariant forall j | 0 <= j < i :: dat[j] == Times(old(dat[j]), s)
      invariant forall j | i <= j < dat.Length :: dat[j] == old(dat[j])
    {
      dat[i] := dat[i] * s;
    }
    assert forall j | 0 <= j < dat.Length :: dat[..][j] == ScaledBy(old(dat[..]), m, s)[j];
  }

  /** Scaling by s and then by 1/s restores the buffer. */
  lemma ScaledInverse(d: seq<real>, m: nat, s: real)
    requires m <= |d| && s != 0.0
    ensures ScaledBy(ScaledBy(d, m, s), m, 1.0 / s) == d
  {
    var e := ScaledBy(ScaledBy(d, m, s), m, 1.0 / s);
    forall i | 0 <= i < m
      ensures e[i] == d[i]
    {
      calc {
        e[i];
        Times(Times(d[i], s), 1.0 / s);
        d[i] * (s * (1.0 / s));
        d[i];
      }
    }
  }

  /** Scaling two times multiplies the factors. */
  lemma ScaledTwice(d: seq<real>, m: nat, s: real, t: real)
    requires m <= |d|
    ensures ScaledBy(ScaledBy(d, m, s), m, t) == ScaledBy(d, m, s * t)
  {
    var e, f := ScaledBy(ScaledBy(d, m, s), m, t), ScaledBy(d, m, s * t);
    forall i | 0 <= i < m
      ensures e[i] == f[i]
    {
      assert Times(Times(d[i], s), t) == Times(d[i], s * t);
    }
  }

  /** A symmetric square buffer stays symmetric when all of it is scaled. */
  lemma ScaledSymmetric(a: seq<real>, m: nat, s: real)
    requires |a| == m * m
    requires forall R: nat, C: nat | R < m && C < m :: a[At(m, R, C)] == a[At(m, C, R)]
    ensures forall R: nat, C: nat | R < m && C < m :: ScaledBy(a, m * m, s)[At(m, R, C)] == ScaledBy(a, m * m, s)[At(m, C, R)]
  {
  }

  /** (R, C) lies in the rows x cols block at (R0, C0), below its diagonal if lower. */
  predicate InBlock(R0: nat, C0: nat, rows: nat, cols: nat, lower: bool, R: nat, C: nat)
  {
    R0 <= R < R0 + rows && C0 <= C < C0 + cols && (lower ==> C - C0 <= R - R0)
  }

  /**
   * d is d0 with wt times the rows x cols block of s at (r0, c0) added to the
   * block at (R0, C0) (only on and below its diagonal when lower).
   */
  ghost predicate BlockAdded(d: seq<real>, d0: seq<real>, m1: nat, R0: nat, C0: nat,
                             s: seq<real>, m2: nat, r0: nat, c0: nat,
                             rows: nat, cols: nat, lower: bool, wt: real)
    requires |d| == |d0| == m1 * m1 && |s| == m2 * m2
    requires R0 + rows <= m1 && C0 + cols <= m1 && r0 + rows <= m2 && c0 + cols <= m2
  {
    forall R: nat, C: nat | R < m1 && C < m1 ::
      d[At(m1, R, C)] ==
        if InBlock(R0, C0, rows, cols, lower, R, C)
        then d0[At(m1, R, C)] + Times(wt, s[At(m2, r0 + (R - R0), c0 + (C - C0))])
        else d0[At(m1, R, C)]
  }

  /** d is d0 with wt times s[s0 .. s0 + len] added to d0[D0 .. D0 + len]. */
  ghost predicate VecAdded(d: seq<real>, d0: seq<real>, D0: nat, s: seq<real>, s0: nat, len: nat, wt: real)
    requires |d| == |d0| && D0 + len <= |d| && s0 + len <= |s|
  {
    forall R | 0 <= R < |d| ::
      d[R] == if D0 <= R < D0 + len then d0[R] + Times(wt, s[s0 + (R - D0)]) else d0[R]
  }

  /**
   * dst[(R, C0 + x2)] += wt * src[(r, c0 + x2)] for x2 < len, the other
   * entries of dst unchanged.
   */
  method AddRow(dst: array<real>, m1: nat, R: nat, C0: nat,
                src: array<real>, m2: nat, r: nat, c0: nat, len: nat, wt: real)
    requires dst != src
    requires dst.Length == m1 * m1 && src.Length == m2 * m2
    requires R < m1 && C0 + len <= m1 && r < m2 && c0 + len <= m2
    modifies dst
    ensures forall R': nat, C: nat | R' < m1 && C < m1 ::
      dst[At(m1, R', C)] ==
        if R' == R && C0 <= C < C0 + len
        then old(dst[At(m1, R', C)]) + Times(wt, src[At(m2, r, c0 + (C - C0))])
        else old(dst[At(m1, R', C)])
  {
    for x2 := 0 to len
      invariant forall R': nat, C: nat | R' < m1 && C < m1 ::
        dst[At(m1, R', C)] ==
          if R' == R && C0 <= C < C0 + x2
          then old(dst[At(m1, R', C)]) + Times(wt, src[At(m2, r, c0 + (C - C0))])
          else old(dst[At(m1, R', C)])
    {
      dst[At(m1, R, C0 + x2)] := dst[At(m1, R, C0 + x2)] + Times(wt, src[At(m2, r, c0 + x2)]);
    }
  }

  /**
   * dst[(R0 + x1, C0 + x2)] += wt * src[(r0 + x1, c0 + x2)] over a rows x cols
   * block (only x2 <= x1 when lower), the other entries of dst unchanged.
   */
  method AddBlock(dst: array<real>, m1: nat, R0: nat, C0: nat,
                  src: array<real>, m2: nat, r0: nat, c0: nat,
                  rows: nat, cols: nat, lower: bool, wt: real)
    requires dst != src
    requires dst.Length == m1 * m1 && src.Length == m2 * m2
    requires R0 + rows <= m1 && C0 + cols <= m1 && r0 + rows <= m2 && c0 + cols <= m2
    requires lower ==> cols == rows
    modifies dst
    ensures BlockAdded(dst[..], old(dst[..]), m1, R0, C0, src[..], m2, r0, c0, rows, cols, lower, wt)
  {
    for x1 := 0 to rows
      invariant forall R: nat, C: nat | R < m1 && C < m1 ::
        dst[At(m1, R, C)] ==
          if InBlock(R0, C0, rows, cols, lower, R, C) && R - R0 < x1
          then old(dst[At(m1, R, C)]) + Times(wt, src[At(m2, r0 + (R - R0), c0 + (C - C0))])
          else old(dst[At(m1, R, C)])
    {
      var width := if lower then x1 + 1 else cols;
      AddRow(dst, m1, R0 + x1, C0, src, m2, r0 + x1, c0, width, wt);
    }
  }

  /** dst[D0 + x] += wt * src[s0 + x] for x < len, the rest of dst unchanged. */
  method AddVec(dst: array<real>, D0: nat, src: array<real>, s0: nat, len: nat, wt: real)
    requires dst != src && D0 + len <= dst.Length && s0 + len <= src.Length
    modifies dst
    ensures VecAdded(dst[..], old(dst[..]), D0, src[..], s0, len, wt)
  {
    for x1 := 0 to len
      invariant forall R | 0 <= R < dst.Length ::
        dst[R] == if D0 <= R < D0 + x1 then old(dst[R]) + Times(wt, src[s0 + (R - D0)]) else old(dst[R])
    {
      dst[D0 + x1] := dst[D0 + x1] + Times(wt, src[s0 + x1]);
    }
  }

  /**
   * The fused intensity loop: adds the lower triangle of the q x q block of src
   * at (s0, s0) into dst at (D0, D0), unweighted, and src vector entries
   * s0.. into dst vector entries D0...
   */
  method AddIntensity(dst: array<real>, dstB: array<real>, m1: nat, D0: nat,
                      src: array<real>, srcB: array<real>, m2: nat, s0: nat, q: nat)
    requires dst != dstB && dst != src && dst != srcB && dstB != src && dstB != srcB
    requires dst.Length == m1 * m1 && src.Length == m2 * m2
    requires D0 + q <= m1 && s0 + q <= m2 && dstB.Length == m1 && srcB.Length == m2
    modifies dst, dstB
    ensures BlockAdded(dst[..], old(dst[..]), m1, D0, D0, src[..], m2, s0, s0, q, q, true, 1.0)
    ensures VecAdded(dstB[..], old(dstB[..]), D0, srcB[..], s0, q, 1.0)
  {
    for x1 := 0 to q
      invariant forall R: nat, C: nat | R < m1 && C < m1 ::
        dst[At(m1, R, C)] ==
          if InBlock(D0, D0, q, q, true, R, C) && R - D0 < x1
          then old(dst[At(m1, R, C)]) + Times(1.0, src[At(m2, s0 + (R - D0), s0 + (C - D0))])
          else old(dst[At(m1, R, C)])
      invariant forall R | 0 <= R < m1 ::
        dstB[R] == if D0 <= R < D0 + x1 then old(dstB[R]) + Times(1.0, srcB[s0 + (R - D0)]) else old(dstB[R])
    {
      AddRow(dst, m1, D0 + x1, D0, src, m2, s0 + x1, s0, x1 + 1, 1.0);
      dstB[D0 + x1] := dstB[D0 + x1] + srcB[s0 + x1];
    }
  }

  /** (R, C) lies strictly above the diagonal of the s x s block at (R0, C0). */
  predicate InUpper(R0: nat, C0: nat, s: nat, R: nat, C: nat)
  {
    R0 <= R && C0 <= C && R - R0 < C - C0 < s
  }

  /**
   * a1 is a with every entry above the diagonal of the s x s block at (R0, C0)
   * replaced by its transposed partner in the block.
   */
  ghost predicate Mirrored(a1: seq<real>, a: seq<real>, m: nat, R0: nat, C0: nat, s: nat)
    requires |a1| == |a| == m * m && R0 + s <= m && C0 + s <= m
  {
    forall R: nat, C: nat | R < m && C < m ::
      a1[At(m, R, C)] ==
        if InUpper(R0, C0, s, R, C) then a[At(m, R0 + (C - C0), C0 + (R - R0))]
        else a[At(m, R, C)]
  }

  /** One entry of a mirrored matrix. */
  lemma MirroredAt(a1: seq<real>, a: seq<real>, m: nat, R0: nat, C0: nat, s: nat, R: nat, C: nat)
    requires |a1| == |a| == m * m && R0 + s <= m && C0 + s <= m
    requires Mirrored(a1, a, m, R0, C0, s) && R < m && C < m
    ensures InUpper(R0, C0, s, R, C) ==> a1[At(m, R, C)] == a[At(m, R0 + (C - C0), C0 + (R - R0))]
    ensures !InUpper(R0, C0, s, R, C) ==> a1[At(m, R, C)] == a[At(m, R, C)]
  {
    assert a1[At(m, R, C)] ==
      if InUpper(R0, C0, s, R, C) then a[At(m, R0 + (C - C0), C0 + (R - R0))] else a[At(m, R, C)];
  }

  /**
   * Mirrors the s x s block at (R0, C0) across its diagonal: each entry above
   * it takes the value of its transposed partner below it.
   */
  method MirrorBlock(a: array<real>, m: nat, R0: nat, C0: nat, s: nat)
    requires a.Length == m * m && R0 + s <= m && C0 + s <= m
    modifies a
    ensures Mirrored(a[..], old(a[..]), m, R0, C0, s)
  {
    for x1 := 0 to s
      invariant forall R: nat, C: nat | R < m && C < m ::
        a[At(m, R, C)] ==
          if InUpper(R0, C0, s, R, C) && C - C0 < x1 then old(a[At(m, R0 + (C - C0), C0 + (R - R0))])
          else old(a[At(m, R, C)])
    {
      MirrorColumn(a, m, R0, C0, s, x1);
    }
  }

  /** The inner x2 loop: column C0 + x1 of the upper part takes the transposed entries of row R0 + x1. */
  method MirrorColumn(a: array<real>, m: nat, R0: nat, C0: nat, s: nat, x1: nat)
    requires a.Length == m * m && R0 + s <= m && C0 + s <= m && x1 < s
    modifies a
    ensures forall R: nat, C: nat | R < m && C < m ::
      a[At(m, R, C)] ==
        if InUpper(R0, C0, s, R, C) && C - C0 == x1 then old(a[At(m, R0 + (C - C0), C0 + (R - R0))])
        else old(a[At(m, R, C)])
  {
    for x2 := 0 to x1
      invariant forall R: nat, C: nat | R < m && C < m ::
        a[At(m, R, C)] ==
          if InUpper(R0, C0, s, R, C) && C - C0 == x1 && R - R0 < x2
          then old(a[At(m, R0 + (C - C0), C0 + (R - R0))])
          else old(a[At(m, R, C)])
    {
      a[At(m, R0 + x2, C0 + x1)] := a[At(m, R0 + x1, C0 + x2)];
    }
  }
}
