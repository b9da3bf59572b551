/**
 * Why the symmetriser may copy: a full design row is a product of one factor
 * per coordinate (component gradient times x, y and z basis values), so the
 * product of its entries at R and C does not change when R and C exchange any
 * of their coordinates.  In particular it equals the product at the
 * canonical (accumulated) entry, and the Gram matrix entry (R, C) equals the
 * one the lifts computed.
 */
module Canon {
  import opened Arith
  import opened Layout
  import opened Sums
  import opened Coords
  import opened Symmetrise
  import opened Normal

  /** Product identity of a narrow row (component, x offset) under coordinate exchange. */
  ghost predicate NarrowCanon(d: seq<real>, nx: nat)
    requires |d| >= 3 * nx
  {
    forall i1: nat, x1: nat, i2: nat, x2: nat | i1 < 3 && x1 < nx && i2 < 3 && x2 < nx ::
      MulMono(nx, i1, x1, 3); MulMono(nx, i2, x2, 3);
      MulMono(nx, Max(i1, i2), Max(x1, x2), 3); MulMono(nx, Min(i1, i2), Min(x1, x2), 3);
      Times(d[At(nx, i1, x1)], d[At(nx, i2, x2)])
      == Times(d[At(nx, Max(i1, i2), Max(x1, x2))], d[At(nx, Min(i1, i2), Min(x1, x2))])
  }

  /** The same identity for a plane row (component, y basis, x offset). */
  ghost predicate PlaneCanon(m: seq<real>, nx: nat, ny: nat)
  {
    |m| >= 3 * nx * ny
    && forall i1: nat, y1: nat, x1: nat, i2: nat, y2: nat, x2: nat
      | i1 < 3 && y1 < ny && x1 < nx && i2 < 3 && y2 < ny && x2 < nx ::
      Times(m[Spatial(nx, ny, i1, y1, x1)], m[Spatial(nx, ny, i2, y2, x2)])
      == Times(m[Spatial(nx, ny, Max(i1, i2), Max(y1, y2), Max(x1, x2))],
               m[Spatial(nx, ny, Min(i1, i2), Min(y1, y2), Min(x1, x2))])
  }

  /** Every entry product of a full row equals the product at its canonical entry. */
  ghost predicate FullCanon(f: seq<real>, nx: nat, ny: nat, nz: nat, q: nat)
    requires |f| == 3 * (nx * ny) * nz + q
  {
    var P := 3 * (nx * ny) * nz + q;
    forall R: nat, C: nat | R < P && C < P ::
      Times(f[R], f[C]) == Times(f[CanonRow(nx, ny, nz, q, R, C)], f[CanonCol(nx, ny, nz, q, R, C)])
  }

  lemma Regroup(a: real, p: real, b: real, r: real)
    ensures Times(Times(a, p), Times(b, r)) == Times(Times(a, b), Times(p, r))
  {
  }

  /** Exchanging a pair of factors leaves the product of the pair alone. */
  lemma MaxMinProduct(w: seq<real>, y1: nat, y2: nat)
    requires y1 < |w| && y2 < |w|
    ensures Times(w[Max(y1, y2)], w[Min(y1, y2)]) == Times(w[y1], w[y2])
  {
  }

  /**
   * A narrow row whose spatial entries are -g[i] * w[x] (one gradient
   * component times one x basis value) has the narrow product identity.
   */
  lemma RankOneCanon(d: seq<real>, g: seq<real>, w: seq<real>, nx: nat)
    requires |g| == 3 && |w| == nx && |d| >= 3 * nx
    requires forall i: nat, x: nat | i < 3 && x < nx :: At(nx, i, x) < |d| && d[At(nx, i, x)] == Times(-g[i], w[x])
    ensures NarrowCanon(d, nx)
  {
    forall i1: nat, x1: nat, i2: nat, x2: nat | i1 < 3 && x1 < nx && i2 < 3 && x2 < nx
      ensures Times(d[At(nx, i1, x1)], d[At(nx, i2, x2)])
           == Times(d[At(nx, Max(i1, i2), Max(x1, x2))], d[At(nx, Min(i1, i2), Min(x1, x2))])
    {
      var a, b := -g[i1], -g[i2];
      Regroup(a, w[x1], b, w[x2]);
      Regroup(-g[Max(i1, i2)], w[Max(x1, x2)], -g[Min(i1, i2)], w[Min(x1, x2)]);
      NegProduct(g, i1, i2);
      MaxMinProduct(w, x1, x2);
    }
  }

  lemma NegProduct(g: seq<real>, i1: nat, i2: nat)
    requires i1 < |g| && i2 < |g|
    ensures Times(-g[Max(i1, i2)], -g[Min(i1, i2)]) == Times(-g[i1], -g[i2])
  {
  }

  /** Entry (i, y, x) of a y-lifted row is the y basis value times narrow entry (i, x). */
  lemma YLiftEntry(d: seq<real>, w: seq<real>, nx: nat, ny: nat, q: nat, i: nat, y: nat, x: nat)
    requires |d| == 3 * nx + q && |w| == ny && i < 3 && y < ny && x < nx
    ensures At(nx, i, x) < 3 * nx
    ensures LiftRow(d, w, nx, ny, q)[Spatial(nx, ny, i, y, x)] == Times(w[y], d[At(nx, i, x)])
  {
    MulMono(nx, i, x, 3);
  }

  /** The y-lift turns the narrow identity into the plane identity. */
  lemma YLiftCanon(d: seq<real>, w: seq<real>, nx: nat, ny: nat, q: nat)
    requires |d| == 3 * nx + q && |w| == ny && NarrowCanon(d, nx)
    ensures PlaneCanon(LiftRow(d, w, nx, ny, q), nx, ny)
  {
    var m := LiftRow(d, w, nx, ny, q);
    forall i1: nat, y1: nat, x1: nat, i2: nat, y2: nat, x2: nat
      | i1 < 3 && y1 < ny && x1 < nx && i2 < 3 && y2 < ny && x2 < nx
      ensures Times(m[Spatial(nx, ny, i1, y1, x1)], m[Spatial(nx, ny, i2, y2, x2)])
           == Times(m[Spatial(nx, ny, Max(i1, i2), Max(y1, y2), Max(x1, x2))],
                    m[Spatial(nx, ny, Min(i1, i2), Min(y1, y2), Min(x1, x2))])
    {
      var iM, yM, xM, im, ym, xm := Max(i1, i2), Max(y1, y2), Max(x1, x2), Min(i1, i2), Min(y1, y2), Min(x1, x2);
      YLiftEntry(d, w, nx, ny, q, i1, y1, x1);
      YLiftEntry(d, w, nx, ny, q, i2, y2, x2);
      YLiftEntry(d, w, nx, ny, q, iM, yM, xM);
      YLiftEntry(d, w, nx, ny, q, im, ym, xm);
      assert Times(d[At(nx, i1, x1)], d[At(nx, i2, x2)]) == Times(d[At(nx, iM, xM)], d[At(nx, im, xm)]);
      Regroup(w[y1], d[At(nx, i1, x1)], w[y2], d[At(nx, i2, x2)]);
      Regroup(w[yM], d[At(nx, iM, xM)], w[ym], d[At(nx, im, xm)]);
      MaxMinProduct(w, y1, y2);
    }
  }

  /** Entry R of a z-lifted plane row is the z basis value times the plane entry of its (i, y, x). */
  lemma ZLiftEntry(m: seq<real>, w: seq<real>, nx: nat, ny: nat, nz: nat, q: nat, R: nat)
    requires |m| == 3 * (nx * ny) + q && |w| == nz && R < 3 * (nx * ny) * nz
    ensures CompI(nx, ny, nz, R) < 3 && CompZ(nx, ny, nz, R) < nz
    ensures CompY(nx, ny, nz, R) < ny && CompX(nx, ny, nz, R) < nx
    ensures Spatial(nx, ny, CompI(nx, ny, nz, R), CompY(nx, ny, nz, R), CompX(nx, ny, nz, R)) < |m|
    ensures LiftRow(m, w, nx * ny, nz, q)[R] ==
      Times(w[CompZ(nx, ny, nz, R)], m[Spatial(nx, ny, CompI(nx, ny, nz, R), CompY(nx, ny, nz, R), CompX(nx, ny, nz, R))])
  {
    Assoc3(nx, ny);
    IndexDecode(nx, ny, nz, R);
    ZSource(nx, ny, nz, q, R);
  }

  /** The z-lift turns the plane identity into the full one. */
  lemma ZLiftCanon(m: seq<real>, w: seq<real>, nx: nat, ny: nat, nz: nat, q: nat)
    requires |m| == 3 * (nx * ny) + q && |w| == nz && PlaneCanon(m, nx, ny)
    ensures FullCanon(LiftRow(m, w, nx * ny, nz, q), nx, ny, nz, q)
  {
    var f := LiftRow(m, w, nx * ny, nz, q);
    var N3 := 3 * (nx * ny) * nz;
    forall R: nat, C: nat | R < N3 + q && C < N3 + q
      ensures Times(f[R], f[C]) == Times(f[CanonRow(nx, ny, nz, q, R, C)], f[CanonCol(nx, ny, nz, q, R, C)])
    {
      if R < N3 && C < N3 {
        SpatialCanon(m, w, nx, ny, nz, q, R, C);
      }
    }
  }

  lemma SpatialCanon(m: seq<real>, w: seq<real>, nx: nat, ny: nat, nz: nat, q: nat, R: nat, C: nat)
    requires |m| == 3 * (nx * ny) + q && |w| == nz && PlaneCanon(m, nx, ny)
    requires R < 3 * (nx * ny) * nz && C < 3 * (nx * ny) * nz
    ensures var f := LiftRow(m, w, nx * ny, nz, q);
      Times(f[R], f[C]) == Times(f[CanonRow(nx, ny, nz, q, R, C)], f[CanonCol(nx, ny, nz, q, R, C)])
  {
    var f := LiftRow(m, w, nx * ny, nz, q);
    var R', C' := CanonRow(nx, ny, nz, q, R, C), CanonCol(nx, ny, nz, q, R, C);
    Assoc3(nx, ny);
    IndexDecode(nx, ny, nz, R);
    IndexDecode(nx, ny, nz, C);
    var iR, zR, yR, xR := CompI(nx, ny, nz, R), CompZ(nx, ny, nz, R), CompY(nx, ny, nz, R), CompX(nx, ny, nz, R);
    var iC, zC, yC, xC := CompI(nx, ny, nz, C), CompZ(nx, ny, nz, C), CompY(nx, ny, nz, C), CompX(nx, ny, nz, C);
    assert R' == Index(nx, ny, nz, Max(iR, iC), Max(zR, zC), Max(yR, yC), Max(xR, xC));
    assert C' == Index(nx, ny, nz, Min(iR, iC), Min(zR, zC), Min(yR, yC), Min(xR, xC));
    ZLiftEntry(m, w, nx, ny, nz, q, R);
    ZLiftEntry(m, w, nx, ny, nz, q, C);
    ZLiftEntry(m, w, nx, ny, nz, q, R');
    ZLiftEntry(m, w, nx, ny, nz, q, C');
    var pR, pC := m[Spatial(nx, ny, iR, yR, xR)], m[Spatial(nx, ny, iC, yC, xC)];
    var pM := m[Spatial(nx, ny, Max(iR, iC), Max(yR, yC), Max(xR, xC))];
    var pm := m[Spatial(nx, ny, Min(iR, iC), Min(yR, yC), Min(xR, xC))];
    assert Times(pR, pC) == Times(pM, pm);
    Regroup(w[zR], pR, w[zC], pC);
    Regroup(w[Max(zR, zC)], pM, w[Min(zR, zC)], pm);
    MaxMinProduct(w, zR, zC);
  }

  /** An accumulated entry lies in the lower triangle. */
  lemma AccumulatedLower(nx: nat, ny: nat, nz: nat, q: nat, R: nat, C: nat)
    requires R < 3 * (nx * ny) * nz + q && C < 3 * (nx * ny) * nz + q
    requires Accumulated(nx, ny, nz, q, R, C)
    ensures C <= R
  {
    if R < 3 * (nx * ny) * nz && C < 3 * (nx * ny) * nz {
      IndexDecode(nx, ny, nz, R);
      IndexDecode(nx, ny, nz, C);
      IndexMono(nx, ny, nz, CompI(nx, ny, nz, C), CompZ(nx, ny, nz, C), CompY(nx, ny, nz, C), CompX(nx, ny, nz, C),
                CompI(nx, ny, nz, R), CompZ(nx, ny, nz, R), CompY(nx, ny, nz, R), CompX(nx, ny, nz, R));
    }
  }

  /** Index grows with every coordinate. */
  lemma IndexMono(nx: nat, ny: nat, nz: nat, i1: nat, z1: nat, y1: nat, x1: nat, i2: nat, z2: nat, y2: nat, x2: nat)
    requires i1 <= i2 < 3 && z1 <= z2 < nz && y1 <= y2 < ny && x1 <= x2 < nx
    ensures Index(nx, ny, nz, i1, z1, y1, x1) <= Index(nx, ny, nz, i2, z2, y2, x2)
  {
    InnerMono(nx, y1, x1, y2, x2);
    InnerMono(nz, i1, z1, i2, z2);
    InnerMono(nx * ny, nz * i1 + z1, nx * y1 + x1, nz * i2 + z2, nx * y2 + x2);
    assert Index(nx, ny, nz, i1, z1, y1, x1) == (nx * ny) * (nz * i1 + z1) + (nx * y1 + x1);
    assert Index(nx, ny, nz, i2, z2, y2, x2) == (nx * ny) * (nz * i2 + z2) + (nx * y2 + x2);
  }

  /**
   * After the symmetriser, every entry of alpha, in both triangles, is the
   * Gram matrix entry of the full design rows.
   */
  lemma SymmetrisedGram(a1: seq<real>, a0: seq<real>, nx: nat, ny: nat, nz: nat, q: nat, rows: seq<seq<real>>)
    requires |a1| == |a0| == (3 * (nx * ny) * nz + q) * (3 * (nx * ny) * nz + q)
    requires Uniform(rows, 3 * (nx * ny) * nz + q)
    requires forall k :: 0 <= k < |rows| ==> FullCanon(rows[k], nx, ny, nz, q)
    requires AccumulatedGram(a0, nx, ny, nz, q, rows) && Symmetrised(a1, a0, nx, ny, nz, q)
    ensures FullGram(a1, 3 * (nx * ny) * nz + q, rows)
  {
    var P := 3 * (nx * ny) * nz + q;
    forall R: nat, C: nat | R < P && C < P
      ensures a1[At(P, R, C)] == GramAt(rows, P, R, C)
    {
      var R', C' := CanonRow(nx, ny, nz, q, R, C), CanonCol(nx, ny, nz, q, R, C);
      CanonAccumulated(nx, ny, nz, q, R, C);
      AccumulatedLower(nx, ny, nz, q, R', C');
      assert a0[At(P, R', C')] == GramAt(rows, P, R', C');
      GramSameProducts(rows, P, R, C, R', C');
    }
  }
}
