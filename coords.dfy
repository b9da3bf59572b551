/**
 * Coordinates of the final parameter space: 3*N spatial parameters, N =
 * nx*ny*nz per displacement component, then q intensity parameters.  The
 * spatial parameter for component i and basis functions (z, y, x) sits at
 * N*i + nx*ny*z + nx*y + x, which is the z-stage lift index of component i,
 * basis z and narrow offset nx*y + x.
 */
module Coords {
  import opened Arith
  import opened Layout

  function CompI(nx: nat, ny: nat, nz: nat, R: nat): nat
    requires R < 3 * (nx * ny) * nz
  {
    Axis(nx * ny, nz, R)
  }

  function CompZ(nx: nat, ny: nat, nz: nat, R: nat): nat
    requires R < 3 * (nx * ny) * nz
  {
    Basis(nx * ny, nz, R)
  }

  function CompY(nx: nat, ny: nat, nz: nat, R: nat): nat
    requires R < 3 * (nx * ny) * nz
  {
    Inner(nx * ny, nz, R) / nx
  }

  function CompX(nx: nat, ny: nat, nz: nat, R: nat): nat
    requires R < 3 * (nx * ny) * nz
  {
    Inner(nx * ny, nz, R) % nx
  }

  lemma InPlane(nx: nat, ny: nat, y: nat, x: nat)
    requires y < ny && x < nx
    ensures nx * y + x < nx * ny
    ensures (nx * y + x) / nx == y && (nx * y + x) % nx == x
  {
    MulMono(nx, y, x, ny);
    DivModUnique(nx * y + x, nx, y, x);
  }

  /** Spatial parameter index of component i and basis functions (z, y, x). */
  function Index(nx: nat, ny: nat, nz: nat, i: nat, z: nat, y: nat, x: nat): (R: nat)
    requires i < 3 && z < nz && y < ny && x < nx
    ensures R < 3 * (nx * ny) * nz
    ensures CompI(nx, ny, nz, R) == i && CompZ(nx, ny, nz, R) == z
    ensures CompY(nx, ny, nz, R) == y && CompX(nx, ny, nz, R) == x
  {
    InPlane(nx, ny, y, x);
    Spatial(nx * ny, nz, i, z, nx * y + x)
  }

  /** Every spatial index is the Index of its coordinates. */
  lemma IndexDecode(nx: nat, ny: nat, nz: nat, R: nat)
    requires R < 3 * (nx * ny) * nz
    ensures CompI(nx, ny, nz, R) < 3 && CompZ(nx, ny, nz, R) < nz
    ensures CompY(nx, ny, nz, R) < ny && CompX(nx, ny, nz, R) < nx
    ensures Index(nx, ny, nz, CompI(nx, ny, nz, R), CompZ(nx, ny, nz, R),
                  CompY(nx, ny, nz, R), CompX(nx, ny, nz, R)) == R
  {
    SpatialDecode(nx * ny, nz, R);
    var u := Inner(nx * ny, nz, R);
    assert u == nx * (u / nx) + u % nx;
    MulCancelLt(nx, u / nx, ny);
  }

  /**
   * First index of the block at component i, basis z and basis y (the C
   * pointer offset N*i + nx*ny*z + nx*y).
   */
  function Base(nx: nat, ny: nat, nz: nat, i: nat, z: nat, y: nat): nat
  {
    (nx * ny) * nz * i + (nx * ny) * z + nx * y
  }

  /** Index is linear in x, in (y, x) and in (z, y, x) within a block. */
  lemma IndexOffsets(nx: nat, ny: nat, nz: nat, i: nat, z: nat, y: nat, x: nat)
    requires i < 3 && z < nz && y < ny && x < nx
    ensures Index(nx, ny, nz, i, z, y, x) == Base(nx, ny, nz, i, z, y) + x
    ensures Index(nx, ny, nz, i, z, y, x) == Base(nx, ny, nz, i, z, 0) + (nx * y + x)
    ensures Index(nx, ny, nz, i, z, y, x) == Base(nx, ny, nz, i, 0, 0) + ((nx * ny) * z + (nx * y + x))
  {
    var b := nx * ny;
    assert b * (nz * i + z) == b * nz * i + b * z;
  }

  /** The nx-wide block of x offsets at (i, z, y). */
  lemma XBlockOf(nx: nat, ny: nat, nz: nat, i: nat, z: nat, y: nat, R: nat)
    requires i < 3 && z < nz && y < ny
    ensures var R0 := Base(nx, ny, nz, i, z, y);
      (R0 <= R < R0 + nx) <==>
      (R < 3 * (nx * ny) * nz && CompI(nx, ny, nz, R) == i && CompZ(nx, ny, nz, R) == z
       && CompY(nx, ny, nz, R) == y)
    ensures var R0 := Base(nx, ny, nz, i, z, y);
      R0 <= R < R0 + nx ==> CompX(nx, ny, nz, R) == R - R0
  {
    var R0 := Base(nx, ny, nz, i, z, y);
    if R0 <= R < R0 + nx {
      IndexOffsets(nx, ny, nz, i, z, y, R - R0);
    }
    if R < 3 * (nx * ny) * nz {
      IndexDecode(nx, ny, nz, R);
      IndexOffsets(nx, ny, nz, CompI(nx, ny, nz, R), CompZ(nx, ny, nz, R), CompY(nx, ny, nz, R), CompX(nx, ny, nz, R));
    }
  }

  /** The nx*ny-wide block of (y, x) offsets at (i, z). */
  lemma YBlockOf(nx: nat, ny: nat, nz: nat, i: nat, z: nat, R: nat)
    requires i < 3 && z < nz
    ensures var R0 := Base(nx, ny, nz, i, z, 0);
      (R0 <= R < R0 + nx * ny) <==>
      (R < 3 * (nx * ny) * nz && CompI(nx, ny, nz, R) == i && CompZ(nx, ny, nz, R) == z)
    ensures var R0 := Base(nx, ny, nz, i, z, 0);
      R0 <= R < R0 + nx * ny ==>
        nx * CompY(nx, ny, nz, R) + CompX(nx, ny, nz, R) == R - R0
  {
    var b, R0 := nx * ny, Base(nx, ny, nz, i, z, 0);
    assert R0 == b * (nz * i + z) by {
      assert b * (nz * i + z) == b * nz * i + b * z;
    }
    BlockOf(b, nz, i, z, R);
    if R0 <= R < R0 + b {
      IndexDecode(nx, ny, nz, R);
      IndexOffsets(nx, ny, nz, i, z, CompY(nx, ny, nz, R), CompX(nx, ny, nz, R));
    }
  }

  /** The N-wide block of (z, y, x) offsets of component i. */
  lemma ZBlockOf(nx: nat, ny: nat, nz: nat, i: nat, R: nat)
    requires i < 3
    ensures var R0 := Base(nx, ny, nz, i, 0, 0);
      (R0 <= R < R0 + (nx * ny) * nz) <==>
      (R < 3 * (nx * ny) * nz && CompI(nx, ny, nz, R) == i)
    ensures var R0 := Base(nx, ny, nz, i, 0, 0);
      R0 <= R < R0 + (nx * ny) * nz ==>
        (nx * ny) * CompZ(nx, ny, nz, R) + (nx * CompY(nx, ny, nz, R) + CompX(nx, ny, nz, R)) == R - R0
  {
    var N := (nx * ny) * nz;
    var R0 := Base(nx, ny, nz, i, 0, 0);
    assert R0 == N * i;
    if R0 <= R < R0 + N {
      DivModUnique(R, N, i, R - R0);
      MulMono(N, i, R - R0, 3);
      assert R / N == i;
    }
    if R < 3 * N {
      ZBlockDecode(nx, ny, nz, R);
    }
  }

  lemma ZBlockDecode(nx: nat, ny: nat, nz: nat, R: nat)
    requires R < 3 * (nx * ny) * nz
    ensures var R0 := Base(nx, ny, nz, CompI(nx, ny, nz, R), 0, 0);
      R0 <= R < R0 + (nx * ny) * nz
      && (nx * ny) * CompZ(nx, ny, nz, R) + (nx * CompY(nx, ny, nz, R) + CompX(nx, ny, nz, R)) == R - R0
  {
    IndexDecode(nx, ny, nz, R);
    var i, z, y, x := CompI(nx, ny, nz, R), CompZ(nx, ny, nz, R), CompY(nx, ny, nz, R), CompX(nx, ny, nz, R);
    IndexOffsets(nx, ny, nz, i, z, y, x);
    InPlane(nx, ny, y, x);
    MulMono(nx * ny, z, nx * y + x, nz);
  }

  /** Blocks at every level fit in the spatial range. */
  lemma BaseFits(nx: nat, ny: nat, nz: nat, i: nat, z: nat, y: nat)
    requires i < 3 && z < nz && y < ny
    ensures Base(nx, ny, nz, i, z, y) + nx <= 3 * (nx * ny) * nz
    ensures Base(nx, ny, nz, i, z, 0) + nx * ny <= 3 * (nx * ny) * nz
    ensures Base(nx, ny, nz, i, 0, 0) + (nx * ny) * nz <= 3 * (nx * ny) * nz
  {
    if nx > 0 {
      IndexOffsets(nx, ny, nz, i, z, y, nx - 1);
      YBaseFits(nx, ny, nz, i, z);
      ZBaseFits(nx, ny, nz, i);
    }
  }

  lemma YBaseFits(nx: nat, ny: nat, nz: nat, i: nat, z: nat)
    requires i < 3 && z < nz && 0 < ny && 0 < nx
    ensures Base(nx, ny, nz, i, z, 0) + nx * ny <= 3 * (nx * ny) * nz
  {
    IndexOffsets(nx, ny, nz, i, z, ny - 1, nx - 1);
    assert nx * (ny - 1) + (nx - 1) == nx * ny - 1;
  }

  lemma ZBaseFits(nx: nat, ny: nat, nz: nat, i: nat)
    requires i < 3 && 0 < nz && 0 < ny && 0 < nx
    ensures Base(nx, ny, nz, i, 0, 0) + (nx * ny) * nz <= 3 * (nx * ny) * nz
  {
    var b := nx * ny;
    MulNonNeg(nx, ny - 1);
    assert b > 0 by { assert b == nx + nx * (ny - 1); }
    IndexOffsets(nx, ny, nz, i, nz - 1, ny - 1, nx - 1);
    assert nx * (ny - 1) + (nx - 1) == b - 1;
    assert b * (nz - 1) + (b - 1) == b * nz - 1;
  }

  /** Lexicographic order of a block-major index s*a + r with r < s. */
  lemma BlockOrder(s: nat, a1: nat, r1: nat, a2: nat, r2: nat)
    requires r1 < s && r2 < s
    ensures s * a1 + r1 < s * a2 + r2 <==> (a1 < a2 || (a1 == a2 && r1 < r2))
  {
    if a1 < a2 {
      MulMono(s, a1, r1, a2);
    } else if a2 < a1 {
      MulMono(s, a2, r2, a1);
    }
  }

  /** The component block fits, whatever the basis sizes. */
  lemma ComponentFits(nx: nat, ny: nat, nz: nat, i: nat)
    requires i < 3
    ensures Base(nx, ny, nz, i, 0, 0) + (nx * ny) * nz <= 3 * (nx * ny) * nz
  {
    if 0 < nx && 0 < ny && 0 < nz {
      ZBaseFits(nx, ny, nz, i);
    } else {
      assert (nx * ny) * nz == 0;
    }
  }

  /**
   * The index at the same (z, y, x) offset as C but in component i1 is the
   * Index of C's offsets in component i1.
   */
  lemma ZPartner(nx: nat, ny: nat, nz: nat, i1: nat, C: nat)
    requires i1 < 3 && C < 3 * (nx * ny) * nz
    ensures Base(nx, ny, nz, CompI(nx, ny, nz, C), 0, 0) <= C
    ensures CompZ(nx, ny, nz, C) < nz && CompY(nx, ny, nz, C) < ny && CompX(nx, ny, nz, C) < nx
    ensures Base(nx, ny, nz, i1, 0, 0) + (C - Base(nx, ny, nz, CompI(nx, ny, nz, C), 0, 0))
         == Index(nx, ny, nz, i1, CompZ(nx, ny, nz, C), CompY(nx, ny, nz, C), CompX(nx, ny, nz, C))
  {
    ZBlockDecode(nx, ny, nz, C);
    IndexDecode(nx, ny, nz, C);
    IndexOffsets(nx, ny, nz, i1, CompZ(nx, ny, nz, C), CompY(nx, ny, nz, C), CompX(nx, ny, nz, C));
  }

  /** The (y, x) block of a plane fits, whatever the in-plane basis sizes. */
  lemma PlaneFits(nx: nat, ny: nat, nz: nat, i: nat, z: nat)
    requires i < 3 && z < nz
    ensures Base(nx, ny, nz, i, z, 0) + nx * ny <= 3 * (nx * ny) * nz
  {
    if 0 < nx && 0 < ny {
      YBaseFits(nx, ny, nz, i, z);
    } else {
      assert nx * ny == 0;
    }
  }
}
