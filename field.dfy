/**
 * The deformation field of mrqcof and its Jacobian, evaluated from their
 * separable form (spm_brainwarp.c:98-180).  Block i of the parameter vector T
 * holds the coefficients of displacement component i; coefficient (z, y, x)
 * of it sits at Index(i, z, y, x).  For each plane the coefficients are
 * contracted with the z basis values (Tz, Jz), for each row of the plane
 * with the y basis values (Ty, Jy), for each voxel of the row with the x
 * basis values (trans, J).  Jacobian row k uses the derivative of the basis
 * of axis k in place of that basis.
 */
module Field {
  import opened Arith
  import opened Coords
  import opened Sums

  /** The basis matrices of the three axes and their derivatives. */
  datatype BasisSet = BasisSet(
    nx: nat, BX: seq<real>, dBX: seq<real>,
    ny: nat, BY: seq<real>, dBY: seq<real>,
    nz: nat, BZ: seq<real>, dBZ: seq<real>)

  /**
   * Every basis matrix has one column per basis function and one row per
   * sample along its axis of the template (d0, d1, d2 samples).
   */
  predicate Fits(bs: BasisSet, d0: nat, d1: nat, d2: nat)
  {
    |bs.BX| == d0 * bs.nx && |bs.dBX| == d0 * bs.nx
    && |bs.BY| == d1 * bs.ny && |bs.dBY| == d1 * bs.ny
    && |bs.BZ| == d2 * bs.nz && |bs.dBZ| == d2 * bs.nz
  }

  /** Position of the value of basis function k at sample s (column-major storage). */
  function Sample(dim: nat, n: nat, k: nat, s: nat): (p: nat)
    requires s < dim && k < n
    ensures p < dim * n && p == dim * k + s
  {
    MulMono(dim, k, s, n);
    dim * k + s
  }

  /** The values of the n basis functions of B at sample s. */
  function Col(B: seq<real>, dim: nat, s: nat, n: nat): (c: seq<real>)
    requires s < dim && |B| == dim * n
    ensures |c| == n && forall k :: 0 <= k < n ==> c[k] == B[Sample(dim, n, k, s)]
  {
    seq(n, k requires 0 <= k < n => B[Sample(dim, n, k, s)])
  }

  /** The basis of an axis used by Jacobian row k: its derivative when k is that axis. */
  function Pick(k: nat, axis: nat, B: seq<real>, dB: seq<real>): (r: seq<real>)
    ensures r == (if k == axis then dB else B)
  {
    if k == axis then dB else B
  }

  /** In-plane offset of row y, column x. */
  function Offset(nx: nat, ny: nat, y: nat, x: nat): (u: nat)
    requires y < ny && x < nx
    ensures u < nx * ny && u == nx * y + x
  {
    InPlane(nx, ny, y, x);
    nx * y + x
  }

  /**
   * Position of entry u of row `row` in a buffer of `rows` rows of b entries;
   * distinct (row, u) never share a position.
   */
  function Slot(b: nat, rows: nat, row: nat, u: nat): (p: nat)
    requires row < rows && u < b
    ensures p < b * rows && p < rows * b && p == b * row + u
    ensures p / b == row && p % b == u
  {
    MulMono(b, row, u, rows);
    At(b, row, u)
  }

  /** Position in T of coefficient z of component i at in-plane offset u. */
  function ZCoeff(nx: nat, ny: nat, nz: nat, i: nat, u: nat, z: nat): (p: nat)
    requires i < 3 && u < nx * ny && z < nz
    ensures p < 3 * (nx * ny) * nz
  {
    MulMono(nx * ny, z, u, nz);
    ComponentFits(nx, ny, nz, i);
    Base(nx, ny, nz, i, 0, 0) + ((nx * ny) * z + u)
  }

  /** The coefficient read along z is coefficient (z, y, x) of the component. */
  lemma ZCoeffIndex(nx: nat, ny: nat, nz: nat, i: nat, z: nat, y: nat, x: nat)
    requires i < 3 && z < nz && y < ny && x < nx
    ensures ZCoeff(nx, ny, nz, i, Offset(nx, ny, y, x), z) == Index(nx, ny, nz, i, z, y, x)
  {
    IndexOffsets(nx, ny, nz, i, z, y, x);
  }

  /** The products summed for a Tz / Jz entry. */
  function ZTerms(t: seq<real>, nx: nat, ny: nat, nz: nat, wz: seq<real>, i: nat, u: nat): (r: seq<real>)
    requires |t| >= 3 * (nx * ny) * nz && |wz| == nz && i < 3 && u < nx * ny
    ensures |r| == nz
  {
    seq(nz, z requires 0 <= z < nz => Times(t[ZCoeff(nx, ny, nz, i, u, z)], wz[z]))
  }

  /**
   * Tz / Jz entry of component i at in-plane offset u: the coefficients at
   * that offset contracted with the z basis values wz.
   */
  function ZAt(t: seq<real>, nx: nat, ny: nat, nz: nat, wz: seq<real>, i: nat, u: nat): real
    requires |t| >= 3 * (nx * ny) * nz && |wz| == nz && i < 3 && u < nx * ny
  {
    Total(ZTerms(t, nx, ny, nz, wz, i, u))
  }

  /** The products summed for a Ty / Jy entry. */
  function YTerms(t: seq<real>, nx: nat, ny: nat, nz: nat, wz: seq<real>, wy: seq<real>, i: nat, x: nat): (r: seq<real>)
    requires |t| >= 3 * (nx * ny) * nz && |wz| == nz && |wy| == ny && i < 3 && x < nx
    ensures |r| == ny
  {
    seq(ny, y requires 0 <= y < ny => Times(ZAt(t, nx, ny, nz, wz, i, Offset(nx, ny, y, x)), wy[y]))
  }

  /** Ty / Jy entry of component i at x offset x: the z contractions along y, weighted by wy. */
  function YAt(t: seq<real>, nx: nat, ny: nat, nz: nat, wz: seq<real>, wy: seq<real>, i: nat, x: nat): real
    requires |t| >= 3 * (nx * ny) * nz && |wz| == nz && |wy| == ny && i < 3 && x < nx
  {
    Total(YTerms(t, nx, ny, nz, wz, wy, i, x))
  }

  /** The products summed for a field or Jacobian value. */
  function XTerms(t: seq<real>, nx: nat, ny: nat, nz: nat, wz: seq<real>, wy: seq<real>, wx: seq<real>, i: nat): (r: seq<real>)
    requires |t| >= 3 * (nx * ny) * nz && |wz| == nz && |wy| == ny && |wx| == nx && i < 3
    ensures |r| == nx
  {
    seq(nx, x requires 0 <= x < nx => Times(YAt(t, nx, ny, nz, wz, wy, i, x), wx[x]))
  }

  /** The separable sum for component i: the y contractions along x, weighted by wx. */
  function XAt(t: seq<real>, nx: nat, ny: nat, nz: nat, wz: seq<real>, wy: seq<real>, wx: seq<real>, i: nat): real
    requires |t| >= 3 * (nx * ny) * nz && |wz| == nz && |wy| == ny && |wx| == nx && i < 3
  {
    Total(XTerms(t, nx, ny, nz, wz, wy, wx, i))
  }

  /** One on the diagonal of the Jacobian, zero off it. */
  function Delta(k: nat, c: nat): (r: real)
    ensures r == if k == c then 1.0 else 0.0
  {
    if k == c then 1.0 else 0.0
  }

  /**
   * The coefficients fill three blocks of the basis product size, the bases
   * fit the template, and (sx, sy, sz) is a voxel of the template.
   */
  predicate OnGrid(t: seq<real>, bs: BasisSet, d0: nat, d1: nat, d2: nat, sx: nat, sy: nat, sz: nat)
  {
    Fits(bs, d0, d1, d2) && |t| >= 3 * (bs.nx * bs.ny) * bs.nz && sx < d0 && sy < d1 && sz < d2
  }

  /** Displacement component c at template voxel (sx, sy, sz). */
  function Disp(t: seq<real>, bs: BasisSet, d0: nat, d1: nat, d2: nat, sx: nat, sy: nat, sz: nat, c: nat): real
    requires OnGrid(t, bs, d0, d1, d2, sx, sy, sz) && c < 3
  {
    XAt(t, bs.nx, bs.ny, bs.nz, Col(bs.BZ, d2, sz, bs.nz), Col(bs.BY, d1, sy, bs.ny), Col(bs.BX, d0, sx, bs.nx), c)
  }

  /** Derivative of displacement component c along axis k at template voxel (sx, sy, sz). */
  function DispDeriv(t: seq<real>, bs: BasisSet, d0: nat, d1: nat, d2: nat, sx: nat, sy: nat, sz: nat,
                     k: nat, c: nat): real
    requires OnGrid(t, bs, d0, d1, d2, sx, sy, sz) && k < 3 && c < 3
  {
    XAt(t, bs.nx, bs.ny, bs.nz,
        Col(Pick(k, 2, bs.BZ, bs.dBZ), d2, sz, bs.nz),
        Col(Pick(k, 1, bs.BY, bs.dBY), d1, sy, bs.ny),
        Col(Pick(k, 0, bs.BX, bs.dBX), d0, sx, bs.nx), c)
  }

  /** The deformed position of a voxel: coordinate c plus one plus displacement component c. */
  function Trans(t: seq<real>, bs: BasisSet, d0: nat, d1: nat, d2: nat, sx: nat, sy: nat, sz: nat): (r: seq<real>)
    requires OnGrid(t, bs, d0, d1, d2, sx, sy, sz)
    ensures |r| == 3
  {
    [(1.0 + Disp(t, bs, d0, d1, d2, sx, sy, sz, 0)) + sx as real,
     (1.0 + Disp(t, bs, d0, d1, d2, sx, sy, sz, 1)) + sy as real,
     (1.0 + Disp(t, bs, d0, d1, d2, sx, sy, sz, 2)) + sz as real]
  }

  /** The Jacobian of the deformation: row k (axis), column c (component) at 3*k + c. */
  function Jacobian(t: seq<real>, bs: BasisSet, d0: nat, d1: nat, d2: nat, sx: nat, sy: nat, sz: nat): (r: seq<real>)
    requires OnGrid(t, bs, d0, d1, d2, sx, sy, sz)
    ensures |r| == 9
  {
    seq(9, e requires 0 <= e < 9 => Delta(e / 3, e % 3) + DispDeriv(t, bs, d0, d1, d2, sx, sy, sz, e / 3, e % 3))
  }

  // ---------------------------------------------------------------------
  // The separable sum is the sum over all coefficients of a component.
  // ---------------------------------------------------------------------

  /** The terms of the direct sum with y basis y and x basis x. */
  function DirectXY(t: seq<real>, nx: nat, ny: nat, nz: nat, wz: seq<real>, wy: seq<real>, wx: seq<real>,
                    c: nat, y: nat, x: nat): real
    requires |t| >= 3 * (nx * ny) * nz && |wz| == nz && |wy| == ny && |wx| == nx && c < 3 && y < ny && x < nx
  {
    Total(seq(nz, z requires 0 <= z < nz => Times(Times(Times(t[Index(nx, ny, nz, c, z, y, x)], wz[z]), wy[y]), wx[x])))
  }

  /** The terms of the direct sum with x basis x. */
  function DirectX(t: seq<real>, nx: nat, ny: nat, nz: nat, wz: seq<real>, wy: seq<real>, wx: seq<real>,
                   c: nat, x: nat): real
    requires |t| >= 3 * (nx * ny) * nz && |wz| == nz && |wy| == ny && |wx| == nx && c < 3 && x < nx
  {
    Total(seq(ny, y requires 0 <= y < ny => DirectXY(t, nx, ny, nz, wz, wy, wx, c, y, x)))
  }

  /**
   * The field written directly: the sum, over every coefficient (z, y, x) of
   * component c, of the coefficient times its three basis values.
   */
  function Direct(t: seq<real>, nx: nat, ny: nat, nz: nat, wz: seq<real>, wy: seq<real>, wx: seq<real>, c: nat): real
    requires |t| >= 3 * (nx * ny) * nz && |wz| == nz && |wy| == ny && |wx| == nx && c < 3
  {
    Total(seq(nx, x requires 0 <= x < nx => DirectX(t, nx, ny, nz, wz, wy, wx, c, x)))
  }

  function Scaled(s: seq<real>, a: real): (p: seq<real>)
    ensures |p| == |s| && forall k :: 0 <= k < |s| ==> p[k] == Times(s[k], a)
  {
    seq(|s|, k requires 0 <= k < |s| => Times(s[k], a))
  }

  /** Scaling a sum scales every term. */
  lemma {:induction false} TotalScale(s: seq<real>, a: real)
    ensures Times(Total(s), a) == Total(Scaled(s, a))
    decreases |s|
  {
    if |s| > 0 {
      var n := |s|;
      TotalScale(s[..n - 1], a);
      var p, p' := Scaled(s, a), Scaled(s[..n - 1], a);
      forall k | 0 <= k < n - 1 ensures p[k] == p'[k] {
        assert s[..n - 1][k] == s[k];
      }
      assert p[..n - 1] == p';
    }
  }

  /** A Tz entry scaled by the y and x basis values is the z part of the direct sum. */
  lemma ZTerm(t: seq<real>, nx: nat, ny: nat, nz: nat, wz: seq<real>, wy: seq<real>, wx: seq<real>,
              c: nat, y: nat, x: nat)
    requires |t| >= 3 * (nx * ny) * nz && |wz| == nz && |wy| == ny && |wx| == nx
    requires c < 3 && y < ny && x < nx
    ensures Times(Times(ZAt(t, nx, ny, nz, wz, c, Offset(nx, ny, y, x)), wy[y]), wx[x])
      == DirectXY(t, nx, ny, nz, wz, wy, wx, c, y, x)
  {
    var zs := ZTerms(t, nx, ny, nz, wz, c, Offset(nx, ny, y, x));
    TotalScale(zs, wy[y]);
    TotalScale(Scaled(zs, wy[y]), wx[x]);
    var lhs := Scaled(Scaled(zs, wy[y]), wx[x]);
    var terms := seq(nz, z requires 0 <= z < nz => Times(Times(Times(t[Index(nx, ny, nz, c, z, y, x)], wz[z]), wy[y]), wx[x]));
    forall z | 0 <= z < nz
      ensures lhs[z] == terms[z]
    {
      ZCoeffIndex(nx, ny, nz, c, z, y, x);
    }
    assert lhs == terms;
  }

  /** A Ty entry scaled by the x basis value is the y-z part of the direct sum. */
  lemma YTerm(t: seq<real>, nx: nat, ny: nat, nz: nat, wz: seq<real>, wy: seq<real>, wx: seq<real>,
              c: nat, x: nat)
    requires |t| >= 3 * (nx * ny) * nz && |wz| == nz && |wy| == ny && |wx| == nx
    requires c < 3 && x < nx
    ensures Times(YAt(t, nx, ny, nz, wz, wy, c, x), wx[x]) == DirectX(t, nx, ny, nz, wz, wy, wx, c, x)
  {
    var ys := YTerms(t, nx, ny, nz, wz, wy, c, x);
    TotalScale(ys, wx[x]);
    var lhs := Scaled(ys, wx[x]);
    var terms := seq(ny, y requires 0 <= y < ny => DirectXY(t, nx, ny, nz, wz, wy, wx, c, y, x));
    forall y | 0 <= y < ny
      ensures lhs[y] == terms[y]
    {
      ZTerm(t, nx, ny, nz, wz, wy, wx, c, y, x);
    }
    assert lhs == terms;
  }

  /**
   * Separability: contracting along z, then y, then x gives the sum over all
   * coefficients of the component, each times the product of its three basis
   * values.
   */
  lemma Separable(t: seq<real>, nx: nat, ny: nat, nz: nat, wz: seq<real>, wy: seq<real>, wx: seq<real>, c: nat)
    requires |t| >= 3 * (nx * ny) * nz && |wz| == nz && |wy| == ny && |wx| == nx && c < 3
    ensures XAt(t, nx, ny, nz, wz, wy, wx, c) == Direct(t, nx, ny, nz, wz, wy, wx, c)
  {
    var xs := XTerms(t, nx, ny, nz, wz, wy, wx, c);
    var terms := seq(nx, x requires 0 <= x < nx => DirectX(t, nx, ny, nz, wz, wy, wx, c, x));
    forall x | 0 <= x < nx
      ensures xs[x] == terms[x]
    {
      YTerm(t, nx, ny, nz, wz, wy, wx, c, x);
    }
    assert xs == terms;
  }

  lemma {:induction false} TotalZero(s: seq<real>)
    requires forall k :: 0 <= k < |s| ==> s[k] == 0.0
    ensures Total(s) == 0.0
    decreases |s|
  {
    if |s| > 0 {
      TotalZero(s[..|s| - 1]);
    }
  }

  /** Zero coefficients give a zero separable sum, whatever the basis values. */
  lemma ZeroSum(t: seq<real>, nx: nat, ny: nat, nz: nat, wz: seq<real>, wy: seq<real>, wx: seq<real>, c: nat)
    requires |t| >= 3 * (nx * ny) * nz && |wz| == nz && |wy| == ny && |wx| == nx && c < 3
    requires forall p :: 0 <= p < |t| ==> t[p] == 0.0
    ensures XAt(t, nx, ny, nz, wz, wy, wx, c) == 0.0
  {
    forall x | 0 <= x < nx
      ensures YAt(t, nx, ny, nz, wz, wy, c, x) == 0.0
    {
      forall y | 0 <= y < ny
        ensures ZAt(t, nx, ny, nz, wz, c, Offset(nx, ny, y, x)) == 0.0
      {
        TotalZero(ZTerms(t, nx, ny, nz, wz, c, Offset(nx, ny, y, x)));
      }
      TotalZero(YTerms(t, nx, ny, nz, wz, wy, c, x));
    }
    TotalZero(XTerms(t, nx, ny, nz, wz, wy, wx, c));
  }

  /** Coordinate c of a voxel. */
  function Coord(sx: nat, sy: nat, sz: nat, c: nat): nat
  {
    if c == 0 then sx else if c == 1 then sy else sz
  }

  /**
   * Coordinate c of the deformed position is the voxel's coordinate plus one
   * plus the sum, over every coefficient of component c, of the coefficient
   * times its x, y and z basis values at the voxel.
   */
  lemma TransDirect(t: seq<real>, bs: BasisSet, d0: nat, d1: nat, d2: nat, sx: nat, sy: nat, sz: nat, c: nat)
    requires OnGrid(t, bs, d0, d1, d2, sx, sy, sz) && c < 3
    ensures Trans(t, bs, d0, d1, d2, sx, sy, sz)[c] ==
      (1.0 + Direct(t, bs.nx, bs.ny, bs.nz, Col(bs.BZ, d2, sz, bs.nz), Col(bs.BY, d1, sy, bs.ny),
                    Col(bs.BX, d0, sx, bs.nx), c)) + Coord(sx, sy, sz, c) as real
  {
    Separable(t, bs.nx, bs.ny, bs.nz, Col(bs.BZ, d2, sz, bs.nz), Col(bs.BY, d1, sy, bs.ny), Col(bs.BX, d0, sx, bs.nx), c);
  }

  /**
   * Entry (k, c) of the Jacobian is Delta(k, c) plus the same direct sum
   * with the derivative basis in place of the basis of axis k only.
   */
  lemma JacobianDirect(t: seq<real>, bs: BasisSet, d0: nat, d1: nat, d2: nat, sx: nat, sy: nat, sz: nat,
                       k: nat, c: nat)
    requires OnGrid(t, bs, d0, d1, d2, sx, sy, sz) && k < 3 && c < 3
    ensures Jacobian(t, bs, d0, d1, d2, sx, sy, sz)[3 * k + c] ==
      Delta(k, c) + Direct(t, bs.nx, bs.ny, bs.nz,
                           Col(if k == 2 then bs.dBZ else bs.BZ, d2, sz, bs.nz),
                           Col(if k == 1 then bs.dBY else bs.BY, d1, sy, bs.ny),
                           Col(if k == 0 then bs.dBX else bs.BX, d0, sx, bs.nx), c)
  {
    assert (3 * k + c) / 3 == k && (3 * k + c) % 3 == c;
    Separable(t, bs.nx, bs.ny, bs.nz,
              Col(Pick(k, 2, bs.BZ, bs.dBZ), d2, sz, bs.nz),
              Col(Pick(k, 1, bs.BY, bs.dBY), d1, sy, bs.ny),
              Col(Pick(k, 0, bs.BX, bs.dBX), d0, sx, bs.nx), c);
  }

  /** Zero coefficients leave every voxel in place (shifted by one) with the identity Jacobian. */
  lemma ZeroField(t: seq<real>, bs: BasisSet, d0: nat, d1: nat, d2: nat, sx: nat, sy: nat, sz: nat)
    requires OnGrid(t, bs, d0, d1, d2, sx, sy, sz)
    requires forall p :: 0 <= p < |t| ==> t[p] == 0.0
    ensures Trans(t, bs, d0, d1, d2, sx, sy, sz) == [1.0 + sx as real, 1.0 + sy as real, 1.0 + sz as real]
    ensures forall e :: 0 <= e < 9 ==> Jacobian(t, bs, d0, d1, d2, sx, sy, sz)[e] == Delta(e / 3, e % 3)
  {
    forall c | 0 <= c < 3
      ensures Disp(t, bs, d0, d1, d2, sx, sy, sz, c) == 0.0
    {
      ZeroSum(t, bs.nx, bs.ny, bs.nz, Col(bs.BZ, d2, sz, bs.nz), Col(bs.BY, d1, sy, bs.ny), Col(bs.BX, d0, sx, bs.nx), c);
    }
    forall k, c | 0 <= k < 3 && 0 <= c < 3
      ensures DispDeriv(t, bs, d0, d1, d2, sx, sy, sz, k, c) == 0.0
    {
      ZeroSum(t, bs.nx, bs.ny, bs.nz,
              Col(Pick(k, 2, bs.BZ, bs.dBZ), d2, sz, bs.nz),
              Col(Pick(k, 1, bs.BY, bs.dBY), d1, sy, bs.ny),
              Col(Pick(k, 0, bs.BX, bs.dBX), d0, sx, bs.nx), c);
    }
  }

  // ---------------------------------------------------------------------
  // The loops of mrqcof that evaluate the separable form.
  // ---------------------------------------------------------------------

  /** One Tz / Jz entry: the sum over z of coefficient times basis value (lines 102-105, 110-113). */
  method ZLine(t: seq<real>, nx: nat, ny: nat, nz: nat, B: seq<real>, dim: nat, s: nat, i: nat, u: nat)
    returns (r: real)
    requires |t| >= 3 * (nx * ny) * nz && |B| == dim * nz && s < dim && i < 3 && u < nx * ny
    ensures r == ZAt(t, nx, ny, nz, Col(B, dim, s, nz), i, u)
  {
    ghost var terms := ZTerms(t, nx, ny, nz, Col(B, dim, s, nz), i, u);
    r := 0.0;
    for z := 0 to nz
      invariant r == Total(terms[..z])
    {
      TotalPrefix(terms, z);
      r := r + Times(t[ZCoeff(nx, ny, nz, i, u, z)], B[Sample(dim, nz, z, s)]);
    }
    assert terms[..nz] == terms;
  }

  /** The z-basis values of the plane, for the field (k = 3) or for Jacobian row k. */
  function WZ(bs: BasisSet, d2: nat, sz: nat, k: nat): (w: seq<real>)
    requires |bs.BZ| == d2 * bs.nz && |bs.dBZ| == d2 * bs.nz && sz < d2
    ensures |w| == bs.nz
  {
    Col(Pick(k, 2, bs.BZ, bs.dBZ), d2, sz, bs.nz)
  }

  /** The Tz entries of components before i1, and of component i1 at offsets before u1. */
  ghost predicate TzSoFar(tz: seq<real>, t: seq<real>, bs: BasisSet, d2: nat, sz: nat, i1: nat, u1: nat)
    requires |bs.BZ| == d2 * bs.nz && |bs.dBZ| == d2 * bs.nz && sz < d2
    requires |t| >= 3 * (bs.nx * bs.ny) * bs.nz && |tz| == 3 * (bs.nx * bs.ny)
  {
    forall i, u :: 0 <= i < 3 && 0 <= u < bs.nx * bs.ny && (i < i1 || (i == i1 && u < u1)) ==>
      tz[Slot(bs.nx * bs.ny, 3, i, u)] == ZAt(t, bs.nx, bs.ny, bs.nz, WZ(bs, d2, sz, 3), i, u)
  }

  /** The Jz entries before component i1 offset u1, and at that entry the rows of axes before k1. */
  ghost predicate JzSoFar(jz: seq<real>, t: seq<real>, bs: BasisSet, d2: nat, sz: nat, i1: nat, u1: nat, k1: nat)
    requires |bs.BZ| == d2 * bs.nz && |bs.dBZ| == d2 * bs.nz && sz < d2
    requires |t| >= 3 * (bs.nx * bs.ny) * bs.nz && |jz| == 9 * (bs.nx * bs.ny)
  {
    forall k, i, u ::
      (0 <= k < 3 && 0 <= i < 3 && 0 <= u < bs.nx * bs.ny
       && (i < i1 || (i == i1 && u < u1) || (i == i1 && u == u1 && k < k1))) ==>
      jz[Slot(bs.nx * bs.ny, 9, 3 * k + i, u)] == ZAt(t, bs.nx, bs.ny, bs.nz, WZ(bs, d2, sz, k), i, u)
  }

  /** Tz holds the field's z contractions and Jz the Jacobian's, Jz row 3*k + i for axis k. */
  ghost predicate PlaneReady(tz: seq<real>, jz: seq<real>, t: seq<real>, bs: BasisSet, d2: nat, sz: nat)
    requires |bs.BZ| == d2 * bs.nz && |bs.dBZ| == d2 * bs.nz && sz < d2
    requires |t| >= 3 * (bs.nx * bs.ny) * bs.nz
    requires |tz| == 3 * (bs.nx * bs.ny) && |jz| == 9 * (bs.nx * bs.ny)
  {
    TzSoFar(tz, t, bs, d2, sz, 3, 0) && JzSoFar(jz, t, bs, d2, sz, 3, 0, 0)
  }

  lemma TzStep(tz: seq<real>, t: seq<real>, bs: BasisSet, d2: nat, sz: nat, i1: nat, u1: nat, r: real)
    requires |bs.BZ| == d2 * bs.nz && |bs.dBZ| == d2 * bs.nz && sz < d2
    requires |t| >= 3 * (bs.nx * bs.ny) * bs.nz && |tz| == 3 * (bs.nx * bs.ny)
    requires i1 < 3 && u1 < bs.nx * bs.ny
    requires TzSoFar(tz, t, bs, d2, sz, i1, u1)
    requires r == ZAt(t, bs.nx, bs.ny, bs.nz, WZ(bs, d2, sz, 3), i1, u1)
    ensures TzSoFar(tz[Slot(bs.nx * bs.ny, 3, i1, u1) := r], t, bs, d2, sz, i1, u1 + 1)
  {
  }

  lemma JzStep(jz: seq<real>, t: seq<real>, bs: BasisSet, d2: nat, sz: nat, i1: nat, u1: nat, k1: nat, r: real)
    requires |bs.BZ| == d2 * bs.nz && |bs.dBZ| == d2 * bs.nz && sz < d2
    requires |t| >= 3 * (bs.nx * bs.ny) * bs.nz && |jz| == 9 * (bs.nx * bs.ny)
    requires i1 < 3 && u1 < bs.nx * bs.ny && k1 < 3
    requires JzSoFar(jz, t, bs, d2, sz, i1, u1, k1)
    requires r == ZAt(t, bs.nx, bs.ny, bs.nz, WZ(bs, d2, sz, k1), i1, u1)
    ensures JzSoFar(jz[Slot(bs.nx * bs.ny, 9, 3 * k1 + i1, u1) := r], t, bs, d2, sz, i1, u1, k1 + 1)
  {
  }

  /** Passing the last axis of an entry, or the last offset of a component, changes nothing. */
  lemma PlaneNext(tz: seq<real>, jz: seq<real>, t: seq<real>, bs: BasisSet, d2: nat, sz: nat, i1: nat, u1: nat)
    requires |bs.BZ| == d2 * bs.nz && |bs.dBZ| == d2 * bs.nz && sz < d2
    requires |t| >= 3 * (bs.nx * bs.ny) * bs.nz
    requires |tz| == 3 * (bs.nx * bs.ny) && |jz| == 9 * (bs.nx * bs.ny)
    ensures JzSoFar(jz, t, bs, d2, sz, i1, u1, 3) ==> JzSoFar(jz, t, bs, d2, sz, i1, u1 + 1, 0)
    ensures TzSoFar(tz, t, bs, d2, sz, i1, bs.nx * bs.ny) ==> TzSoFar(tz, t, bs, d2, sz, i1 + 1, 0)
    ensures JzSoFar(jz, t, bs, d2, sz, i1, bs.nx * bs.ny, 0) ==> JzSoFar(jz, t, bs, d2, sz, i1 + 1, 0, 0)
  {
  }

  /** The Tz / Jz entries of one component at one in-plane offset (lines 99-114, one x1). */
  method PlaneEntry(t: seq<real>, bs: BasisSet, d2: nat, sz: nat, tz: array<real>, jz: array<real>, i1: nat, u1: nat)
    requires |bs.BZ| == d2 * bs.nz && |bs.dBZ| == d2 * bs.nz && sz < d2
    requires |t| >= 3 * (bs.nx * bs.ny) * bs.nz
    requires tz.Length == 3 * (bs.nx * bs.ny) && jz.Length == 9 * (bs.nx * bs.ny) && tz != jz
    requires i1 < 3 && u1 < bs.nx * bs.ny
    requires TzSoFar(tz[..], t, bs, d2, sz, i1, u1) && JzSoFar(jz[..], t, bs, d2, sz, i1, u1, 0)
    modifies tz, jz
    ensures TzSoFar(tz[..], t, bs, d2, sz, i1, u1 + 1) && JzSoFar(jz[..], t, bs, d2, sz, i1, u1 + 1, 0)
  {
    var b := bs.nx * bs.ny;
    var r := ZLine(t, bs.nx, bs.ny, bs.nz, bs.BZ, d2, sz, i1, u1);
    TzStep(tz[..], t, bs, d2, sz, i1, u1, r);
    tz[Slot(b, 3, i1, u1)] := r;
    for k := 0 to 3
      invariant TzSoFar(tz[..], t, bs, d2, sz, i1, u1 + 1)
      invariant JzSoFar(jz[..], t, bs, d2, sz, i1, u1, k)
    {
      r := ZLine(t, bs.nx, bs.ny, bs.nz, Pick(k, 2, bs.BZ, bs.dBZ), d2, sz, i1, u1);
      JzStep(jz[..], t, bs, d2, sz, i1, u1, k, r);
      jz[Slot(b, 9, 3 * k + i1, u1)] := r;
    }
    PlaneNext(tz[..], jz[..], t, bs, d2, sz, i1, u1);
  }

  /**
   * The z contractions of one plane of the template, sample sz of the z axis
   * (spm_brainwarp.c:98-115): Tz for the field, Jz for the Jacobian.
   */
  method PlaneContract(t: seq<real>, bs: BasisSet, d2: nat, sz: nat, tz: array<real>, jz: array<real>)
    requires |bs.BZ| == d2 * bs.nz && |bs.dBZ| == d2 * bs.nz && sz < d2
    requires |t| >= 3 * (bs.nx * bs.ny) * bs.nz
    requires tz.Length == 3 * (bs.nx * bs.ny) && jz.Length == 9 * (bs.nx * bs.ny) && tz != jz
    modifies tz, jz
    ensures PlaneReady(tz[..], jz[..], t, bs, d2, sz)
  {
    var b := bs.nx * bs.ny;
    for i1 := 0 to 3
      invariant TzSoFar(tz[..], t, bs, d2, sz, i1, 0) && JzSoFar(jz[..], t, bs, d2, sz, i1, 0, 0)
    {
      for u1 := 0 to b
        invariant TzSoFar(tz[..], t, bs, d2, sz, i1, u1) && JzSoFar(jz[..], t, bs, d2, sz, i1, u1, 0)
      {
        PlaneEntry(t, bs, d2, sz, tz, jz, i1, u1);
      }
      PlaneNext(tz[..], jz[..], t, bs, d2, sz, i1, b);
    }
  }

  /** The y-basis values of the row, for the field (k = 3) or for Jacobian row k. */
  function WY(bs: BasisSet, d1: nat, sy: nat, k: nat): (w: seq<real>)
    requires |bs.BY| == d1 * bs.ny && |bs.dBY| == d1 * bs.ny && sy < d1
    ensures |w| == bs.ny
  {
    Col(Pick(k, 1, bs.BY, bs.dBY), d1, sy, bs.ny)
  }

  /** The x-basis values of the voxel, for the field (k = 3) or for Jacobian row k. */
  function WX(bs: BasisSet, d0: nat, sx: nat, k: nat): (w: seq<real>)
    requires |bs.BX| == d0 * bs.nx && |bs.dBX| == d0 * bs.nx && sx < d0
    ensures |w| == bs.nx
  {
    Col(Pick(k, 0, bs.BX, bs.dBX), d0, sx, bs.nx)
  }

  /**
   * One Ty / Jy entry: the sum over y of a plane entry times a y-basis value
   * (lines 134-137, 142-145).  Row `row` of the plane buffer holds the z
   * contractions of component i with z-basis values wz.
   */
  method YLine(ghost t: seq<real>, nx: nat, ny: nat, ghost nz: nat, ghost wz: seq<real>, ghost i: nat,
               plane: seq<real>, rows: nat, row: nat, B: seq<real>, dim: nat, s: nat, x: nat)
    returns (r: real)
    requires |t| >= 3 * (nx * ny) * nz && |wz| == nz && i < 3
    requires |plane| == rows * (nx * ny) && row < rows
    requires |B| == dim * ny && s < dim && x < nx
    requires forall u :: 0 <= u < nx * ny ==> plane[Slot(nx * ny, rows, row, u)] == ZAt(t, nx, ny, nz, wz, i, u)
    ensures r == YAt(t, nx, ny, nz, wz, Col(B, dim, s, ny), i, x)
  {
    ghost var terms := YTerms(t, nx, ny, nz, wz, Col(B, dim, s, ny), i, x);
    r := 0.0;
    for y := 0 to ny
      invariant r == Total(terms[..y])
    {
      TotalPrefix(terms, y);
      r := r + Times(plane[Slot(nx * ny, rows, row, Offset(nx, ny, y, x))], B[Sample(dim, ny, y, s)]);
    }
    assert terms[..ny] == terms;
  }

  /** Ty holds the field's y contractions and Jy the Jacobian's, Jy row 3*k + i for axis k. */
  ghost predicate RowReady(ty: seq<real>, jy: seq<real>, t: seq<real>, bs: BasisSet, d1: nat, d2: nat, sy: nat, sz: nat)
    requires |bs.BY| == d1 * bs.ny && |bs.dBY| == d1 * bs.ny && sy < d1
    requires |bs.BZ| == d2 * bs.nz && |bs.dBZ| == d2 * bs.nz && sz < d2
    requires |t| >= 3 * (bs.nx * bs.ny) * bs.nz
    requires |ty| == 3 * bs.nx && |jy| == 9 * bs.nx
  {
    TySoFar(ty, t, bs, d1, d2, sy, sz, 3, 0) && JySoFar(jy, t, bs, d1, d2, sy, sz, 3, 0, 0)
  }

  /** The Ty entries of components before i1, and of component i1 at offsets before x1. */
  ghost predicate TySoFar(ty: seq<real>, t: seq<real>, bs: BasisSet, d1: nat, d2: nat, sy: nat, sz: nat, i1: nat, x1: nat)
    requires |bs.BY| == d1 * bs.ny && |bs.dBY| == d1 * bs.ny && sy < d1
    requires |bs.BZ| == d2 * bs.nz && |bs.dBZ| == d2 * bs.nz && sz < d2
    requires |t| >= 3 * (bs.nx * bs.ny) * bs.nz && |ty| == 3 * bs.nx
  {
    forall i, x :: 0 <= i < 3 && 0 <= x < bs.nx && (i < i1 || (i == i1 && x < x1)) ==>
      ty[Slot(bs.nx, 3, i, x)] == YAt(t, bs.nx, bs.ny, bs.nz, WZ(bs, d2, sz, 3), WY(bs, d1, sy, 3), i, x)
  }

  /** The Jy entries before component i1 offset x1, and at that entry the rows of axes before k1. */
  ghost predicate JySoFar(jy: seq<real>, t: seq<real>, bs: BasisSet, d1: nat, d2: nat, sy: nat, sz: nat,
                          i1: nat, x1: nat, k1: nat)
    requires |bs.BY| == d1 * bs.ny && |bs.dBY| == d1 * bs.ny && sy < d1
    requires |bs.BZ| == d2 * bs.nz && |bs.dBZ| == d2 * bs.nz && sz < d2
    requires |t| >= 3 * (bs.nx * bs.ny) * bs.nz && |jy| == 9 * bs.nx
  {
    forall k, i, x ::
      (0 <= k < 3 && 0 <= i < 3 && 0 <= x < bs.nx
       && (i < i1 || (i == i1 && x < x1) || (i == i1 && x == x1 && k < k1))) ==>
      jy[Slot(bs.nx, 9, 3 * k + i, x)] == YAt(t, bs.nx, bs.ny, bs.nz, WZ(bs, d2, sz, k), WY(bs, d1, sy, k), i, x)
  }

  lemma TyStep(ty: seq<real>, t: seq<real>, bs: BasisSet, d1: nat, d2: nat, sy: nat, sz: nat, i1: nat, x1: nat, r: real)
    requires |bs.BY| == d1 * bs.ny && |bs.dBY| == d1 * bs.ny && sy < d1
    requires |bs.BZ| == d2 * bs.nz && |bs.dBZ| == d2 * bs.nz && sz < d2
    requires |t| >= 3 * (bs.nx * bs.ny) * bs.nz && |ty| == 3 * bs.nx
    requires i1 < 3 && x1 < bs.nx
    requires TySoFar(ty, t, bs, d1, d2, sy, sz, i1, x1)
    requires r == YAt(t, bs.nx, bs.ny, bs.nz, WZ(bs, d2, sz, 3), WY(bs, d1, sy, 3), i1, x1)
    ensures TySoFar(ty[Slot(bs.nx, 3, i1, x1) := r], t, bs, d1, d2, sy, sz, i1, x1 + 1)
  {
  }

  lemma JyStep(jy: seq<real>, t: seq<real>, bs: BasisSet, d1: nat, d2: nat, sy: nat, sz: nat,
               i1: nat, x1: nat, k1: nat, r: real)
    requires |bs.BY| == d1 * bs.ny && |bs.dBY| == d1 * bs.ny && sy < d1
    requires |bs.BZ| == d2 * bs.nz && |bs.dBZ| == d2 * bs.nz && sz < d2
    requires |t| >= 3 * (bs.nx * bs.ny) * bs.nz && |jy| == 9 * bs.nx
    requires i1 < 3 && x1 < bs.nx && k1 < 3
    requires JySoFar(jy, t, bs, d1, d2, sy, sz, i1, x1, k1)
    requires r == YAt(t, bs.nx, bs.ny, bs.nz, WZ(bs, d2, sz, k1), WY(bs, d1, sy, k1), i1, x1)
    ensures JySoFar(jy[Slot(bs.nx, 9, 3 * k1 + i1, x1) := r], t, bs, d1, d2, sy, sz, i1, x1, k1 + 1)
  {
  }

  /** Passing the last axis of an entry, or the last offset of a component, changes nothing. */
  lemma RowNext(ty: seq<real>, jy: seq<real>, t: seq<real>, bs: BasisSet, d1: nat, d2: nat, sy: nat, sz: nat,
                i1: nat, x1: nat)
    requires |bs.BY| == d1 * bs.ny && |bs.dBY| == d1 * bs.ny && sy < d1
    requires |bs.BZ| == d2 * bs.nz && |bs.dBZ| == d2 * bs.nz && sz < d2
    requires |t| >= 3 * (bs.nx * bs.ny) * bs.nz && |ty| == 3 * bs.nx && |jy| == 9 * bs.nx
    ensures JySoFar(jy, t, bs, d1, d2, sy, sz, i1, x1, 3) ==> JySoFar(jy, t, bs, d1, d2, sy, sz, i1, x1 + 1, 0)
    ensures TySoFar(ty, t, bs, d1, d2, sy, sz, i1, bs.nx) ==> TySoFar(ty, t, bs, d1, d2, sy, sz, i1 + 1, 0)
    ensures JySoFar(jy, t, bs, d1, d2, sy, sz, i1, bs.nx, 0) ==> JySoFar(jy, t, bs, d1, d2, sy, sz, i1 + 1, 0, 0)
  {
  }

  /** The Ty / Jy entries of one component at one x offset (lines 131-147, one x1). */
  method RowEntry(t: seq<real>, bs: BasisSet, d1: nat, d2: nat, sy: nat, sz: nat,
                  tz: seq<real>, jz: seq<real>, ty: array<real>, jy: array<real>, i1: nat, x1: nat)
    requires |bs.BY| == d1 * bs.ny && |bs.dBY| == d1 * bs.ny && sy < d1
    requires |bs.BZ| == d2 * bs.nz && |bs.dBZ| == d2 * bs.nz && sz < d2
    requires |t| >= 3 * (bs.nx * bs.ny) * bs.nz
    requires |tz| == 3 * (bs.nx * bs.ny) && |jz| == 9 * (bs.nx * bs.ny) && PlaneReady(tz, jz, t, bs, d2, sz)
    requires ty.Length == 3 * bs.nx && jy.Length == 9 * bs.nx && ty != jy
    requires i1 < 3 && x1 < bs.nx
    requires TySoFar(ty[..], t, bs, d1, d2, sy, sz, i1, x1) && JySoFar(jy[..], t, bs, d1, d2, sy, sz, i1, x1, 0)
    modifies ty, jy
    ensures TySoFar(ty[..], t, bs, d1, d2, sy, sz, i1, x1 + 1) && JySoFar(jy[..], t, bs, d1, d2, sy, sz, i1, x1 + 1, 0)
  {
    var r := YLine(t, bs.nx, bs.ny, bs.nz, WZ(bs, d2, sz, 3), i1, tz, 3, i1, bs.BY, d1, sy, x1);
    TyStep(ty[..], t, bs, d1, d2, sy, sz, i1, x1, r);
    ty[Slot(bs.nx, 3, i1, x1)] := r;
    for k := 0 to 3
      invariant TySoFar(ty[..], t, bs, d1, d2, sy, sz, i1, x1 + 1)
      invariant JySoFar(jy[..], t, bs, d1, d2, sy, sz, i1, x1, k)
    {
      r := YLine(t, bs.nx, bs.ny, bs.nz, WZ(bs, d2, sz, k), i1, jz, 9, 3 * k + i1, Pick(k, 1, bs.BY, bs.dBY), d1, sy, x1);
      JyStep(jy[..], t, bs, d1, d2, sy, sz, i1, x1, k, r);
      jy[Slot(bs.nx, 9, 3 * k + i1, x1)] := r;
    }
    RowNext(ty[..], jy[..], t, bs, d1, d2, sy, sz, i1, x1);
  }

  /**
   * The y contractions of one row of a plane, sample sy of the y axis
   * (spm_brainwarp.c:129-148): Ty for the field, Jy for the Jacobian.
   */
  method RowContract(t: seq<real>, bs: BasisSet, d1: nat, d2: nat, sy: nat, sz: nat,
                     tz: seq<real>, jz: seq<real>, ty: array<real>, jy: array<real>)
    requires |bs.BY| == d1 * bs.ny && |bs.dBY| == d1 * bs.ny && sy < d1
    requires |bs.BZ| == d2 * bs.nz && |bs.dBZ| == d2 * bs.nz && sz < d2
    requires |t| >= 3 * (bs.nx * bs.ny) * bs.nz
    requires |tz| == 3 * (bs.nx * bs.ny) && |jz| == 9 * (bs.nx * bs.ny) && PlaneReady(tz, jz, t, bs, d2, sz)
    requires ty.Length == 3 * bs.nx && jy.Length == 9 * bs.nx && ty != jy
    modifies ty, jy
    ensures RowReady(ty[..], jy[..], t, bs, d1, d2, sy, sz)
  {
    for i1 := 0 to 3
      invariant TySoFar(ty[..], t, bs, d1, d2, sy, sz, i1, 0) && JySoFar(jy[..], t, bs, d1, d2, sy, sz, i1, 0, 0)
    {
      for x1 := 0 to bs.nx
        invariant TySoFar(ty[..], t, bs, d1, d2, sy, sz, i1, x1) && JySoFar(jy[..], t, bs, d1, d2, sy, sz, i1, x1, 0)
      {
        RowEntry(t, bs, d1, d2, sy, sz, tz, jz, ty, jy, i1, x1);
      }
      RowNext(ty[..], jy[..], t, bs, d1, d2, sy, sz, i1, bs.nx);
    }
  }

  /**
   * A field value or Jacobian entry at one voxel: start plus the sum over x
   * of a row entry times an x-basis value (lines 167-170, 175-178).
   */
  method XLine(ghost t: seq<real>, nx: nat, ghost ny: nat, ghost nz: nat, ghost wz: seq<real>, ghost wy: seq<real>,
               ghost i: nat, rowbuf: seq<real>, rows: nat, row: nat, B: seq<real>, dim: nat, s: nat, start: real)
    returns (r: real)
    requires |t| >= 3 * (nx * ny) * nz && |wz| == nz && |wy| == ny && i < 3
    requires |rowbuf| == rows * nx && row < rows
    requires |B| == dim * nx && s < dim
    requires forall x :: 0 <= x < nx ==> rowbuf[Slot(nx, rows, row, x)] == YAt(t, nx, ny, nz, wz, wy, i, x)
    ensures r == start + XAt(t, nx, ny, nz, wz, wy, Col(B, dim, s, nx), i)
  {
    ghost var terms := XTerms(t, nx, ny, nz, wz, wy, Col(B, dim, s, nx), i);
    r := start;
    for x := 0 to nx
      invariant r == start + Total(terms[..x])
    {
      TotalPrefix(terms, x);
      r := r + Times(rowbuf[Slot(nx, rows, row, x)], B[Sample(dim, nx, x, s)]);
    }
    assert terms[..nx] == terms;
  }

  /** A vector with the field's value in every component is the deformed position. */
  lemma TransFrom(tr: seq<real>, t: seq<real>, bs: BasisSet, d0: nat, d1: nat, d2: nat, sx: nat, sy: nat, sz: nat)
    requires OnGrid(t, bs, d0, d1, d2, sx, sy, sz) && |tr| == 3
    requires forall c :: 0 <= c < 3 ==> tr[c] == (1.0 + Disp(t, bs, d0, d1, d2, sx, sy, sz, c)) + [sx, sy, sz][c] as real
    ensures tr == Trans(t, bs, d0, d1, d2, sx, sy, sz)
  {
    assert tr[0] == Trans(t, bs, d0, d1, d2, sx, sy, sz)[0];
    assert tr[1] == Trans(t, bs, d0, d1, d2, sx, sy, sz)[1];
    assert tr[2] == Trans(t, bs, d0, d1, d2, sx, sy, sz)[2];
  }

  /** A 3x3 matrix with the Jacobian's value at every (k, c) is the Jacobian. */
  lemma JacobianFrom(jac: seq<real>, t: seq<real>, bs: BasisSet, d0: nat, d1: nat, d2: nat, sx: nat, sy: nat, sz: nat)
    requires OnGrid(t, bs, d0, d1, d2, sx, sy, sz) && |jac| == 9
    requires forall k, c :: 0 <= k < 3 && 0 <= c < 3 ==>
      jac[Slot(3, 3, k, c)] == Delta(k, c) + DispDeriv(t, bs, d0, d1, d2, sx, sy, sz, k, c)
    ensures jac == Jacobian(t, bs, d0, d1, d2, sx, sy, sz)
  {
    var J := Jacobian(t, bs, d0, d1, d2, sx, sy, sz);
    forall e | 0 <= e < 9
      ensures jac[e] == J[e]
    {
      assert e == Slot(3, 3, e / 3, e % 3);
    }
  }

  /** The basis values the field itself uses are the undifferentiated ones. */
  lemma FieldBases(bs: BasisSet, d0: nat, d1: nat, d2: nat, sx: nat, sy: nat, sz: nat)
    requires Fits(bs, d0, d1, d2) && sx < d0 && sy < d1 && sz < d2
    ensures WZ(bs, d2, sz, 3) == Col(bs.BZ, d2, sz, bs.nz)
    ensures WY(bs, d1, sy, 3) == Col(bs.BY, d1, sy, bs.ny)
    ensures WX(bs, d0, sx, 3) == Col(bs.BX, d0, sx, bs.nx)
  {
  }

  /** trans and J hold their final values in the columns of the components before n. */
  ghost predicate ColumnsDone(tr: seq<real>, J: seq<real>, t: seq<real>, bs: BasisSet, d0: nat, d1: nat, d2: nat,
                              sx: nat, sy: nat, sz: nat, n: nat)
    requires OnGrid(t, bs, d0, d1, d2, sx, sy, sz) && |tr| == 3 && |J| == 9
  {
    (forall c :: 0 <= c < n && c < 3 ==> tr[c] == (1.0 + Disp(t, bs, d0, d1, d2, sx, sy, sz, c)) + [sx, sy, sz][c] as real)
    && (forall k, c :: 0 <= k < 3 && 0 <= c < n && c < 3 ==>
          J[Slot(3, 3, k, c)] == Delta(k, c) + DispDeriv(t, bs, d0, d1, d2, sx, sy, sz, k, c))
  }

  /** Filling column i1 of trans and J, and nothing else, extends ColumnsDone by one column. */
  lemma ColumnStep(tr0: seq<real>, J0: seq<real>, tr1: seq<real>, J1: seq<real>, t: seq<real>, bs: BasisSet,
                   d0: nat, d1: nat, d2: nat, sx: nat, sy: nat, sz: nat, i1: nat)
    requires OnGrid(t, bs, d0, d1, d2, sx, sy, sz) && i1 < 3
    requires |tr0| == |tr1| == 3 && |J0| == |J1| == 9
    requires ColumnsDone(tr0, J0, t, bs, d0, d1, d2, sx, sy, sz, i1)
    requires tr1[i1] == (1.0 + Disp(t, bs, d0, d1, d2, sx, sy, sz, i1)) + [sx, sy, sz][i1] as real
    requires forall c :: 0 <= c < 3 && c != i1 ==> tr1[c] == tr0[c]
    requires forall e :: 0 <= e < 9 && e % 3 != i1 ==> J1[e] == J0[e]
    requires forall k :: 0 <= k < 3 ==> J1[Slot(3, 3, k, i1)] == Delta(k, i1) + DispDeriv(t, bs, d0, d1, d2, sx, sy, sz, k, i1)
    ensures ColumnsDone(tr1, J1, t, bs, d0, d1, d2, sx, sy, sz, i1 + 1)
  {
  }

  /** Column i1 of the deformation at one voxel: trans[i1] and J[k][i1] for every axis k (lines 164-180). */
  method PointComponent(t: seq<real>, bs: BasisSet, d0: nat, d1: nat, d2: nat, sx: nat, sy: nat, sz: nat,
                        ty: seq<real>, jy: seq<real>, tr: array<real>, J: array<real>, i1: nat)
    requires OnGrid(t, bs, d0, d1, d2, sx, sy, sz) && i1 < 3
    requires |ty| == 3 * bs.nx && |jy| == 9 * bs.nx && RowReady(ty, jy, t, bs, d1, d2, sy, sz)
    requires tr.Length == 3 && J.Length == 9 && tr != J
    modifies tr, J
    ensures tr[i1] == (1.0 + Disp(t, bs, d0, d1, d2, sx, sy, sz, i1)) + [sx, sy, sz][i1] as real
    ensures forall c :: 0 <= c < 3 && c != i1 ==> tr[c] == old(tr[c])
    ensures forall e :: 0 <= e < 9 && e % 3 != i1 ==> J[e] == old(J[e])
    ensures forall k :: 0 <= k < 3 ==> J[Slot(3, 3, k, i1)] == Delta(k, i1) + DispDeriv(t, bs, d0, d1, d2, sx, sy, sz, k, i1)
  {
    var s0 := [sx, sy, sz];
    var r := XLine(t, bs.nx, bs.ny, bs.nz, WZ(bs, d2, sz, 3), WY(bs, d1, sy, 3), i1, ty, 3, i1, bs.BX, d0, sx, 1.0);
    FieldBases(bs, d0, d1, d2, sx, sy, sz);
    assert r == 1.0 + Disp(t, bs, d0, d1, d2, sx, sy, sz, i1);
    tr[i1] := r + s0[i1] as real;
    for i2 := 0 to 3
      modifies J
      invariant forall e :: 0 <= e < 9 && e % 3 != i1 ==> J[e] == old(J[e])
      invariant forall k :: 0 <= k < i2 ==> J[Slot(3, 3, k, i1)] == Delta(k, i1) + DispDeriv(t, bs, d0, d1, d2, sx, sy, sz, k, i1)
    {
      r := XLine(t, bs.nx, bs.ny, bs.nz, WZ(bs, d2, sz, i2), WY(bs, d1, sy, i2), i1, jy, 9, 3 * i2 + i1,
                 Pick(i2, 0, bs.BX, bs.dBX), d0, sx, Delta(i2, i1));
      J[Slot(3, 3, i2, i1)] := r;
    }
  }

  /** One pass of the component loop: column i1 of trans and J, in the terms of ColumnsDone. */
  method ColumnVisit(t: seq<real>, bs: BasisSet, d0: nat, d1: nat, d2: nat, sx: nat, sy: nat, sz: nat,
                     ty: seq<real>, jy: seq<real>, tr: array<real>, J: array<real>, i1: nat)
    requires OnGrid(t, bs, d0, d1, d2, sx, sy, sz) && i1 < 3
    requires |ty| == 3 * bs.nx && |jy| == 9 * bs.nx && RowReady(ty, jy, t, bs, d1, d2, sy, sz)
    requires tr.Length == 3 && J.Length == 9 && tr != J
    requires ColumnsDone(tr[..], J[..], t, bs, d0, d1, d2, sx, sy, sz, i1)
    modifies tr, J
    ensures ColumnsDone(tr[..], J[..], t, bs, d0, d1, d2, sx, sy, sz, i1 + 1)
  {
    ghost var tr0, J0 := tr[..], J[..];
    PointComponent(t, bs, d0, d1, d2, sx, sy, sz, ty, jy, tr, J, i1);
    ColumnStep(tr0, J0, tr[..], J[..], t, bs, d0, d1, d2, sx, sy, sz, i1);
  }

  /**
   * The deformed position (trans) and the Jacobian (J) at voxel (sx, sy, sz)
   * of a row whose Ty and Jy are ready (spm_brainwarp.c:164-180).
   */
  method PointField(t: seq<real>, bs: BasisSet, d0: nat, d1: nat, d2: nat, sx: nat, sy: nat, sz: nat,
                    ty: seq<real>, jy: seq<real>)
    returns (trans: seq<real>, jac: seq<real>)
    requires OnGrid(t, bs, d0, d1, d2, sx, sy, sz)
    requires |ty| == 3 * bs.nx && |jy| == 9 * bs.nx && RowReady(ty, jy, t, bs, d1, d2, sy, sz)
    ensures trans == Trans(t, bs, d0, d1, d2, sx, sy, sz)
    ensures jac == Jacobian(t, bs, d0, d1, d2, sx, sy, sz)
  {
    var tr := new real[3];
    var J := new real[9];
    for i1 := 0 to 3
      invariant ColumnsDone(tr[..], J[..], t, bs, d0, d1, d2, sx, sy, sz, i1)
    {
      ColumnVisit(t, bs, d0, d1, d2, sx, sy, sz, ty, jy, tr, J, i1);
    }
    trans := tr[..];
    jac := J[..];
    TransFrom(trans, t, bs, d0, d1, d2, sx, sy, sz);
    JacobianFrom(jac, t, bs, d0, d1, d2, sx, sy, sz);
  }
}
