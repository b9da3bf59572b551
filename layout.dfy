/**
 * Parameter layout of one Kronecker lift stage.
 *
 * A stage carries a "narrow" parameter space of size 3*b + q (three spatial
 * blocks of b coefficients, one per displacement component, followed by q
 * intensity parameters) into a "wide" space of size 3*b*n + q, in which each
 * spatial block is split into n sub-blocks of b, one per basis function of the
 * new axis.  The y-stage has b = nx, n = ny; the z-stage has b = nx*ny, n = nz.
 * Wide spatial index of (component i, new-axis basis y, narrow offset x) is
 * b*(n*i + y) + x; wide intensity index k is 3*b*n + k.
 */
module Layout {
  import opened Arith

  /** First wide index of the sub-block for component i and new-axis basis y. */
  function WideBase(b: nat, n: nat, i: nat, y: nat): nat
  {
    b * (n * i + y)
  }

  /** First narrow index of the block for component i. */
  function NarrowBase(b: nat, i: nat): nat
  {
    b * i
  }

  /** Encodes a spatial wide index; its decoders give the coordinates back. */
  function Spatial(b: nat, n: nat, i: nat, y: nat, x: nat): (R: nat)
    requires i < 3 && y < n && x < b
    ensures R < 3 * b * n
    ensures Axis(b, n, R) == i && Basis(b, n, R) == y && Inner(b, n, R) == x
  {
    SpatialSplit(b, n, i, y, x);
    DivModUnique(b * (n * i + y) + x, b * n, i, b * y + x);
    DivModUnique(b * y + x, b, y, x);
    b * (n * i + y) + x
  }

  lemma SpatialSplit(b: nat, n: nat, i: nat, y: nat, x: nat)
    requires i < 3 && y < n && x < b
    ensures b * (n * i + y) + x == i * (b * n) + (b * y + x)
    ensures b * y + x < b * n
    ensures b * (n * i + y) + x < 3 * b * n
  {
    MulMono(b, y, x, n);
    MulMono(b * n, i, b * y + x, 3);
  }

  /** Displacement component (0, 1, 2) of a spatial wide index. */
  function Axis(b: nat, n: nat, R: nat): nat
    requires R < 3 * b * n
  {
    R / (b * n)
  }

  /** Basis function of the new axis of a spatial wide index. */
  function Basis(b: nat, n: nat, R: nat): nat
    requires R < 3 * b * n
  {
    (R % (b * n)) / b
  }

  /** Offset inside the narrow block of a spatial wide index. */
  function Inner(b: nat, n: nat, R: nat): nat
    requires R < 3 * b * n
  {
    (R % (b * n)) % b
  }

  /** Every spatial wide index is the encoding of its decoded coordinates. */
  lemma SpatialDecode(b: nat, n: nat, R: nat)
    requires R < 3 * b * n
    ensures Axis(b, n, R) < 3 && Basis(b, n, R) < n && Inner(b, n, R) < b
    ensures Spatial(b, n, Axis(b, n, R), Basis(b, n, R), Inner(b, n, R)) == R
  {
    var bn := b * n;
    var i, rem := R / bn, R % bn;
    var y, x := rem / b, rem % b;
    assert R == bn * i + rem;
    MulCancelLt(bn, i, 3);
    assert bn * 3 == 3 * b * n;
    assert b * y + x == rem;
    MulCancelLt(b, y, n);
    assert b * (n * i + y) + x == bn * i + (b * y + x);
  }

  /**
   * The rows of the wide space covered by the narrow block at (i, y) are
   * exactly the spatial indices that decode to component i and basis y.
   */
  lemma BlockOf(b: nat, n: nat, i: nat, y: nat, R: nat)
    requires i < 3 && y < n
    ensures (b * (n * i + y) <= R < b * (n * i + y) + b) <==>
            (R < 3 * b * n && Axis(b, n, R) == i && Basis(b, n, R) == y)
    ensures b * (n * i + y) <= R < b * (n * i + y) + b ==>
            Inner(b, n, R) == R - b * (n * i + y)
  {
    if b * (n * i + y) <= R < b * (n * i + y) + b {
      assert R == Spatial(b, n, i, y, R - b * (n * i + y));
    }
    if R < 3 * b * n {
      SpatialDecode(b, n, R);
    }
  }

  /** Narrow index that a wide index draws its value from. */
  function SrcIdx(b: nat, n: nat, q: nat, R: nat): (r: nat)
    requires R < 3 * b * n + q
    ensures r < 3 * b + q
    ensures R < 3 * b * n ==> r == b * Axis(b, n, R) + Inner(b, n, R)
    ensures R >= 3 * b * n ==> r == 3 * b + (R - 3 * b * n)
  {
    if R < 3 * b * n then
      SpatialDecode(b, n, R);
      MulMono(b, Axis(b, n, R), Inner(b, n, R), 3);
      b * Axis(b, n, R) + Inner(b, n, R)
    else
      3 * b + (R - 3 * b * n)
  }

  /**
   * Entries of a wide matrix that the lift computes: spatial-spatial entries
   * lower in component, basis and offset; every intensity-spatial entry; the
   * lower triangle of the intensity-intensity block.  No spatial-intensity.
   */
  predicate LiftPattern(b: nat, n: nat, q: nat, R: nat, C: nat)
    requires R < 3 * b * n + q && C < 3 * b * n + q
  {
    if R < 3 * b * n && C < 3 * b * n then
      Axis(b, n, C) <= Axis(b, n, R) && Basis(b, n, C) <= Basis(b, n, R)
      && Inner(b, n, C) <= Inner(b, n, R)
    else if R >= 3 * b * n && C < 3 * b * n then true
    else if R >= 3 * b * n && C >= 3 * b * n then C <= R
    else false
  }

  /** Weight that the new-axis basis gives the parameter at wide index R. */
  function Factor(b: nat, n: nat, q: nat, w: seq<real>, R: nat): real
    requires |w| == n && R < 3 * b * n + q
  {
    if R < 3 * b * n then (SpatialDecode(b, n, R); w[Basis(b, n, R)]) else 1.0
  }

  /**
   * The wide design row that a narrow one stands for at a row (or plane) with
   * new-axis basis values w: spatial entries are weighted by the basis value,
   * intensity entries are copied.
   */
  function LiftRow(row: seq<real>, w: seq<real>, b: nat, n: nat, q: nat): (wide: seq<real>)
    requires |row| == 3 * b + q && |w| == n
    ensures |wide| == 3 * b * n + q
    ensures forall R :: 0 <= R < 3 * b * n + q ==>
      wide[R] == Times(Factor(b, n, q, w, R), row[SrcIdx(b, n, q, R)])
  {
    seq(3 * b * n + q, R requires 0 <= R < 3 * b * n + q =>
      Times(Factor(b, n, q, w, R), row[SrcIdx(b, n, q, R)]))
  }
}
