/**
 * The final pass of mrqcof that fills in the symmetric half of alpha
 * (spm_brainwarp.c:376-409).  The lifts leave alpha correct only on the
 * "accumulated" entries, where the row's component and basis indices are all
 * at least the column's; the pass mirrors blocks at four levels (x offsets,
 * (y, x) offsets, (z, y, x) offsets, the whole matrix), and every entry ends
 * up holding the accumulated entry whose row coordinates are the componentwise
 * maxima and whose column coordinates are the componentwise minima of its own.
 */
module Symmetrise {
  import opened Arith
  import opened Layout
  import opened Coords
  import opened Buffers

  function Max(a: nat, b: nat): nat { if a < b then b else a }
  function Min(a: nat, b: nat): nat { if a < b then a else b }

  /** Row of the accumulated entry that the symmetriser copies into (R, C). */
  function CanonRow(nx: nat, ny: nat, nz: nat, q: nat, R: nat, C: nat): (r: nat)
    requires R < 3 * (nx * ny) * nz + q && C < 3 * (nx * ny) * nz + q
    ensures r < 3 * (nx * ny) * nz + q
  {
    if R < 3 * (nx * ny) * nz && C < 3 * (nx * ny) * nz then
      IndexDecode(nx, ny, nz, R); IndexDecode(nx, ny, nz, C);
      Index(nx, ny, nz, Max(CompI(nx, ny, nz, R), CompI(nx, ny, nz, C)),
            Max(CompZ(nx, ny, nz, R), CompZ(nx, ny, nz, C)),
            Max(CompY(nx, ny, nz, R), CompY(nx, ny, nz, C)),
            Max(CompX(nx, ny, nz, R), CompX(nx, ny, nz, C)))
    else Max(R, C)
  }

  /** Column of the accumulated entry that the symmetriser copies into (R, C). */
  function CanonCol(nx: nat, ny: nat, nz: nat, q: nat, R: nat, C: nat): (c: nat)
    requires R < 3 * (nx * ny) * nz + q && C < 3 * (nx * ny) * nz + q
    ensures c < 3 * (nx * ny) * nz + q
  {
    if R < 3 * (nx * ny) * nz && C < 3 * (nx * ny) * nz then
      IndexDecode(nx, ny, nz, R); IndexDecode(nx, ny, nz, C);
      Index(nx, ny, nz, Min(CompI(nx, ny, nz, R), CompI(nx, ny, nz, C)),
            Min(CompZ(nx, ny, nz, R), CompZ(nx, ny, nz, C)),
            Min(CompY(nx, ny, nz, R), CompY(nx, ny, nz, C)),
            Min(CompX(nx, ny, nz, R), CompX(nx, ny, nz, C)))
    else Min(R, C)
  }

  /**
   * Entries that the two lifts compute: spatial-spatial entries whose row
   * coordinates are all at least the column's, every intensity-spatial
   * entry, and the lower triangle of the intensity-intensity block.
   */
  predicate Accumulated(nx: nat, ny: nat, nz: nat, q: nat, R: nat, C: nat)
    requires R < 3 * (nx * ny) * nz + q && C < 3 * (nx * ny) * nz + q
  {
    var N3 := 3 * (nx * ny) * nz;
    if R < N3 && C < N3 then
      CompI(nx, ny, nz, C) <= CompI(nx, ny, nz, R) && CompZ(nx, ny, nz, C) <= CompZ(nx, ny, nz, R)
      && CompY(nx, ny, nz, C) <= CompY(nx, ny, nz, R) && CompX(nx, ny, nz, C) <= CompX(nx, ny, nz, R)
    else if R >= N3 && C < N3 then true
    else if R >= N3 && C >= N3 then C <= R
    else false
  }

  /** The canonical source of an entry is accumulated. */
  lemma CanonAccumulated(nx: nat, ny: nat, nz: nat, q: nat, R: nat, C: nat)
    requires R < 3 * (nx * ny) * nz + q && C < 3 * (nx * ny) * nz + q
    ensures Accumulated(nx, ny, nz, q, CanonRow(nx, ny, nz, q, R, C), CanonCol(nx, ny, nz, q, R, C))
  {
    if R < 3 * (nx * ny) * nz && C < 3 * (nx * ny) * nz {
      IndexDecode(nx, ny, nz, R);
      IndexDecode(nx, ny, nz, C);
    }
  }

  /** An accumulated entry is its own canonical source. */
  lemma CanonOfAccumulated(nx: nat, ny: nat, nz: nat, q: nat, R: nat, C: nat)
    requires R < 3 * (nx * ny) * nz + q && C < 3 * (nx * ny) * nz + q
    requires Accumulated(nx, ny, nz, q, R, C)
    ensures CanonRow(nx, ny, nz, q, R, C) == R && CanonCol(nx, ny, nz, q, R, C) == C
  {
    if R < 3 * (nx * ny) * nz && C < 3 * (nx * ny) * nz {
      IndexDecode(nx, ny, nz, R);
      IndexDecode(nx, ny, nz, C);
    }
  }

  /** (R, C) and (C, R) have the same canonical source. */
  lemma CanonTranspose(nx: nat, ny: nat, nz: nat, q: nat, R: nat, C: nat)
    requires R < 3 * (nx * ny) * nz + q && C < 3 * (nx * ny) * nz + q
    ensures CanonRow(nx, ny, nz, q, R, C) == CanonRow(nx, ny, nz, q, C, R)
    ensures CanonCol(nx, ny, nz, q, R, C) == CanonCol(nx, ny, nz, q, C, R)
  {
  }

  /** Two spatial entries whose componentwise maxima and minima agree have the same canonical source. */
  lemma CanonSame(nx: nat, ny: nat, nz: nat, q: nat, R: nat, C: nat, R': nat, C': nat)
    requires R < 3 * (nx * ny) * nz && C < 3 * (nx * ny) * nz
    requires R' < 3 * (nx * ny) * nz && C' < 3 * (nx * ny) * nz
    requires Max(CompI(nx, ny, nz, R'), CompI(nx, ny, nz, C')) == Max(CompI(nx, ny, nz, R), CompI(nx, ny, nz, C))
    requires Min(CompI(nx, ny, nz, R'), CompI(nx, ny, nz, C')) == Min(CompI(nx, ny, nz, R), CompI(nx, ny, nz, C))
    requires Max(CompZ(nx, ny, nz, R'), CompZ(nx, ny, nz, C')) == Max(CompZ(nx, ny, nz, R), CompZ(nx, ny, nz, C))
    requires Min(CompZ(nx, ny, nz, R'), CompZ(nx, ny, nz, C')) == Min(CompZ(nx, ny, nz, R), CompZ(nx, ny, nz, C))
    requires Max(CompY(nx, ny, nz, R'), CompY(nx, ny, nz, C')) == Max(CompY(nx, ny, nz, R), CompY(nx, ny, nz, C))
    requires Min(CompY(nx, ny, nz, R'), CompY(nx, ny, nz, C')) == Min(CompY(nx, ny, nz, R), CompY(nx, ny, nz, C))
    requires Max(CompX(nx, ny, nz, R'), CompX(nx, ny, nz, C')) == Max(CompX(nx, ny, nz, R), CompX(nx, ny, nz, C))
    requires Min(CompX(nx, ny, nz, R'), CompX(nx, ny, nz, C')) == Min(CompX(nx, ny, nz, R), CompX(nx, ny, nz, C))
    ensures CanonRow(nx, ny, nz, q, R', C') == CanonRow(nx, ny, nz, q, R, C)
    ensures CanonCol(nx, ny, nz, q, R', C') == CanonCol(nx, ny, nz, q, R, C)
  {
  }

  /** Loop counters of the symmetriser, outermost first. */
  datatype Stage = Stage(i1: nat, i2: nat, z1: nat, z2: nat, y1: nat, y2: nat)

  predicate LexLess(a1: nat, b1: nat, a2: nat, b2: nat)
  {
    a1 < a2 || (a1 == a2 && b1 < b2)
  }

  /**
   * Entries that hold their canonical value once the loops have reached st:
   * the accumulated ones and those in the blocks mirrored so far.
   */
  predicate Fixed(nx: nat, ny: nat, nz: nat, q: nat, st: Stage, R: nat, C: nat)
    requires R < 3 * (nx * ny) * nz + q && C < 3 * (nx * ny) * nz + q
  {
    Accumulated(nx, ny, nz, q, R, C)
    || (R < 3 * (nx * ny) * nz && C < 3 * (nx * ny) * nz
        && var iR, iC := CompI(nx, ny, nz, R), CompI(nx, ny, nz, C);
           var zR, zC := CompZ(nx, ny, nz, R), CompZ(nx, ny, nz, C);
           var yR, yC := CompY(nx, ny, nz, R), CompY(nx, ny, nz, C);
           iC <= iR
           && (LexLess(iR, iC, st.i1, st.i2)
               || (iR == st.i1 && iC == st.i2 && zC <= zR
                   && (LexLess(zR, zC, st.z1, st.z2)
                       || (zR == st.z1 && zC == st.z2 && yC <= yR && LexLess(yR, yC, st.y1, st.y2))))))
  }

  /** a holds, at every entry fixed by stage st, the canonical entry of a0. */
  ghost predicate SymSoFar(a: seq<real>, a0: seq<real>, nx: nat, ny: nat, nz: nat, q: nat, st: Stage)
    requires |a| == |a0| == (3 * (nx * ny) * nz + q) * (3 * (nx * ny) * nz + q)
  {
    var P := 3 * (nx * ny) * nz + q;
    forall R: nat, C: nat | R < P && C < P && Fixed(nx, ny, nz, q, st, R, C) ::
      a[At(P, R, C)] == a0[At(P, CanonRow(nx, ny, nz, q, R, C), CanonCol(nx, ny, nz, q, R, C))]
  }

  /** a1 holds the canonical entry of a0 everywhere. */
  ghost predicate Symmetrised(a1: seq<real>, a0: seq<real>, nx: nat, ny: nat, nz: nat, q: nat)
    requires |a1| == |a0| == (3 * (nx * ny) * nz + q) * (3 * (nx * ny) * nz + q)
  {
    var P := 3 * (nx * ny) * nz + q;
    forall R: nat, C: nat | R < P && C < P ::
      a1[At(P, R, C)] == a0[At(P, CanonRow(nx, ny, nz, q, R, C), CanonCol(nx, ny, nz, q, R, C))]
  }

  /** The x-level mirror of the block at stage st fixes exactly its upper part. */
  lemma XStep(nx: nat, ny: nat, nz: nat, q: nat, st: Stage, R: nat, C: nat)
    requires st.i2 <= st.i1 < 3 && st.z2 <= st.z1 < nz && st.y2 <= st.y1 < ny
    requires R < 3 * (nx * ny) * nz + q && C < 3 * (nx * ny) * nz + q
    ensures var R0, C0 := Base(nx, ny, nz, st.i1, st.z1, st.y1), Base(nx, ny, nz, st.i2, st.z2, st.y2);
      InUpper(R0, C0, nx, R, C) ==>
        R0 + (C - C0) < 3 * (nx * ny) * nz && C0 + (R - R0) < 3 * (nx * ny) * nz
        && Fixed(nx, ny, nz, q, st.(y2 := st.y2 + 1), R, C)
        && Fixed(nx, ny, nz, q, st, R0 + (C - C0), C0 + (R - R0))
        && CanonRow(nx, ny, nz, q, R0 + (C - C0), C0 + (R - R0)) == CanonRow(nx, ny, nz, q, R, C)
        && CanonCol(nx, ny, nz, q, R0 + (C - C0), C0 + (R - R0)) == CanonCol(nx, ny, nz, q, R, C)
    ensures var R0, C0 := Base(nx, ny, nz, st.i1, st.z1, st.y1), Base(nx, ny, nz, st.i2, st.z2, st.y2);
      !InUpper(R0, C0, nx, R, C) ==>
        (Fixed(nx, ny, nz, q, st.(y2 := st.y2 + 1), R, C) ==> Fixed(nx, ny, nz, q, st, R, C))
  {
    var R0, C0 := Base(nx, ny, nz, st.i1, st.z1, st.y1), Base(nx, ny, nz, st.i2, st.z2, st.y2);
    if InUpper(R0, C0, nx, R, C) {
      XUpper(nx, ny, nz, q, st, R, C, R0, C0, R0 + (C - C0), C0 + (R - R0));
    } else {
      XOutside(nx, ny, nz, q, st, R, C);
    }
  }

  /** XStep for an entry above the diagonal of the x block: it and its mirror partner. */
  lemma XUpper(nx: nat, ny: nat, nz: nat, q: nat, st: Stage, R: nat, C: nat, R0: nat, C0: nat, R': nat, C': nat)
    requires st.i2 <= st.i1 < 3 && st.z2 <= st.z1 < nz && st.y2 <= st.y1 < ny
    requires R < 3 * (nx * ny) * nz + q && C < 3 * (nx * ny) * nz + q
    requires R0 == Base(nx, ny, nz, st.i1, st.z1, st.y1) && C0 == Base(nx, ny, nz, st.i2, st.z2, st.y2)
    requires InUpper(R0, C0, nx, R, C) && R' == R0 + (C - C0) && C' == C0 + (R - R0)
    ensures R' < 3 * (nx * ny) * nz && C' < 3 * (nx * ny) * nz
    ensures Fixed(nx, ny, nz, q, st.(y2 := st.y2 + 1), R, C)
    ensures Fixed(nx, ny, nz, q, st, R', C')
    ensures CanonRow(nx, ny, nz, q, R', C') == CanonRow(nx, ny, nz, q, R, C)
    ensures CanonCol(nx, ny, nz, q, R', C') == CanonCol(nx, ny, nz, q, R, C)
  {
    XBlockOf(nx, ny, nz, st.i1, st.z1, st.y1, R);
    XBlockOf(nx, ny, nz, st.i2, st.z2, st.y2, C);
    XBlockOf(nx, ny, nz, st.i1, st.z1, st.y1, R');
    XBlockOf(nx, ny, nz, st.i2, st.z2, st.y2, C');
    IndexDecode(nx, ny, nz, R);
    IndexDecode(nx, ny, nz, C);
    IndexDecode(nx, ny, nz, R');
    IndexDecode(nx, ny, nz, C');
    CanonSame(nx, ny, nz, q, R, C, R', C');
  }

  /** XStep for an entry that the x mirror leaves alone. */
  lemma XOutside(nx: nat, ny: nat, nz: nat, q: nat, st: Stage, R: nat, C: nat)
    requires st.i2 <= st.i1 < 3 && st.z2 <= st.z1 < nz && st.y2 <= st.y1 < ny
    requires R < 3 * (nx * ny) * nz + q && C < 3 * (nx * ny) * nz + q
    requires !InUpper(Base(nx, ny, nz, st.i1, st.z1, st.y1), Base(nx, ny, nz, st.i2, st.z2, st.y2), nx, R, C)
    ensures Fixed(nx, ny, nz, q, st.(y2 := st.y2 + 1), R, C) ==> Fixed(nx, ny, nz, q, st, R, C)
  {
    XBlockOf(nx, ny, nz, st.i1, st.z1, st.y1, R);
    XBlockOf(nx, ny, nz, st.i2, st.z2, st.y2, C);
    if R < 3 * (nx * ny) * nz && C < 3 * (nx * ny) * nz {
      IndexDecode(nx, ny, nz, R);
      IndexDecode(nx, ny, nz, C);
    }
  }


  /** The (y, x)-level mirror at (i1, i2, z1, z2), once its x-blocks are done. */
  lemma YStep(nx: nat, ny: nat, nz: nat, q: nat, i1: nat, i2: nat, z1: nat, z2: nat, R: nat, C: nat)
    requires i2 <= i1 < 3 && z2 <= z1 < nz
    requires R < 3 * (nx * ny) * nz + q && C < 3 * (nx * ny) * nz + q
    ensures var R0, C0 := Base(nx, ny, nz, i1, z1, 0), Base(nx, ny, nz, i2, z2, 0);
      InUpper(R0, C0, nx * ny, R, C) ==>
        R0 + (C - C0) < 3 * (nx * ny) * nz && C0 + (R - R0) < 3 * (nx * ny) * nz
        && Fixed(nx, ny, nz, q, Stage(i1, i2, z1, z2 + 1, 0, 0), R, C)
        && Fixed(nx, ny, nz, q, Stage(i1, i2, z1, z2, ny, 0), R0 + (C - C0), C0 + (R - R0))
        && CanonRow(nx, ny, nz, q, R0 + (C - C0), C0 + (R - R0)) == CanonRow(nx, ny, nz, q, R, C)
        && CanonCol(nx, ny, nz, q, R0 + (C - C0), C0 + (R - R0)) == CanonCol(nx, ny, nz, q, R, C)
    ensures var R0, C0 := Base(nx, ny, nz, i1, z1, 0), Base(nx, ny, nz, i2, z2, 0);
      !InUpper(R0, C0, nx * ny, R, C) ==>
        (Fixed(nx, ny, nz, q, Stage(i1, i2, z1, z2 + 1, 0, 0), R, C) ==>
         Fixed(nx, ny, nz, q, Stage(i1, i2, z1, z2, ny, 0), R, C))
  {
    var R0, C0 := Base(nx, ny, nz, i1, z1, 0), Base(nx, ny, nz, i2, z2, 0);
    if InUpper(R0, C0, nx * ny, R, C) {
      YUpper(nx, ny, nz, q, i1, i2, z1, z2, R, C, R0, C0, R0 + (C - C0), C0 + (R - R0));
    } else {
      YOutside(nx, ny, nz, q, i1, i2, z1, z2, R, C);
    }
  }

  /** YStep for an entry above the diagonal of the (y, x) block: it and its mirror partner. */
  lemma YUpper(nx: nat, ny: nat, nz: nat, q: nat, i1: nat, i2: nat, z1: nat, z2: nat, R: nat, C: nat,
               R0: nat, C0: nat, R': nat, C': nat)
    requires i2 <= i1 < 3 && z2 <= z1 < nz
    requires R < 3 * (nx * ny) * nz + q && C < 3 * (nx * ny) * nz + q
    requires R0 == Base(nx, ny, nz, i1, z1, 0) && C0 == Base(nx, ny, nz, i2, z2, 0)
    requires InUpper(R0, C0, nx * ny, R, C) && R' == R0 + (C - C0) && C' == C0 + (R - R0)
    ensures R' < 3 * (nx * ny) * nz && C' < 3 * (nx * ny) * nz
    ensures Fixed(nx, ny, nz, q, Stage(i1, i2, z1, z2 + 1, 0, 0), R, C)
    ensures Fixed(nx, ny, nz, q, Stage(i1, i2, z1, z2, ny, 0), R', C')
    ensures CanonRow(nx, ny, nz, q, R', C') == CanonRow(nx, ny, nz, q, R, C)
    ensures CanonCol(nx, ny, nz, q, R', C') == CanonCol(nx, ny, nz, q, R, C)
  {
    YBlockOf(nx, ny, nz, i1, z1, R);
    YBlockOf(nx, ny, nz, i2, z2, C);
    YBlockOf(nx, ny, nz, i1, z1, R');
    YBlockOf(nx, ny, nz, i2, z2, C');
    IndexDecode(nx, ny, nz, R);
    IndexDecode(nx, ny, nz, C);
    IndexDecode(nx, ny, nz, R');
    IndexDecode(nx, ny, nz, C');
    BlockOrder(nx, CompY(nx, ny, nz, R), CompX(nx, ny, nz, R), CompY(nx, ny, nz, C), CompX(nx, ny, nz, C));
    BlockOrder(nx, CompY(nx, ny, nz, R'), CompX(nx, ny, nz, R'), CompY(nx, ny, nz, C), CompX(nx, ny, nz, C));
    BlockOrder(nx, CompY(nx, ny, nz, C), CompX(nx, ny, nz, C), CompY(nx, ny, nz, R'), CompX(nx, ny, nz, R'));
    BlockOrder(nx, CompY(nx, ny, nz, C'), CompX(nx, ny, nz, C'), CompY(nx, ny, nz, R), CompX(nx, ny, nz, R));
    BlockOrder(nx, CompY(nx, ny, nz, R), CompX(nx, ny, nz, R), CompY(nx, ny, nz, C'), CompX(nx, ny, nz, C'));
    CanonSame(nx, ny, nz, q, R, C, R', C');
  }

  /** YStep for an entry that the (y, x) mirror leaves alone. */
  lemma YOutside(nx: nat, ny: nat, nz: nat, q: nat, i1: nat, i2: nat, z1: nat, z2: nat, R: nat, C: nat)
    requires i2 <= i1 < 3 && z2 <= z1 < nz
    requires R < 3 * (nx * ny) * nz + q && C < 3 * (nx * ny) * nz + q
    requires !InUpper(Base(nx, ny, nz, i1, z1, 0), Base(nx, ny, nz, i2, z2, 0), nx * ny, R, C)
    ensures Fixed(nx, ny, nz, q, Stage(i1, i2, z1, z2 + 1, 0, 0), R, C) ==>
            Fixed(nx, ny, nz, q, Stage(i1, i2, z1, z2, ny, 0), R, C)
  {
    YBlockOf(nx, ny, nz, i1, z1, R);
    YBlockOf(nx, ny, nz, i2, z2, C);
    if R < 3 * (nx * ny) * nz && C < 3 * (nx * ny) * nz {
      IndexDecode(nx, ny, nz, R);
      IndexDecode(nx, ny, nz, C);
      BlockOrder(nx, CompY(nx, ny, nz, R), CompX(nx, ny, nz, R), CompY(nx, ny, nz, C), CompX(nx, ny, nz, C));
      BlockOrder(nx, CompY(nx, ny, nz, C), CompX(nx, ny, nz, C), CompY(nx, ny, nz, R), CompX(nx, ny, nz, R));
    }
  }


  /**
   * The component-level mirror at (i1, i2), once its (y, x)-blocks are done:
   * an entry above the block's diagonal is fixed afterwards, and its
   * partner is already fixed and has the same canonical source.
   */
  lemma ZUpper(nx: nat, ny: nat, nz: nat, q: nat, i1: nat, i2: nat, R: nat, C: nat)
    requires i2 <= i1 < 3
    requires R < 3 * (nx * ny) * nz + q && C < 3 * (nx * ny) * nz + q
    requires InUpper(Base(nx, ny, nz, i1, 0, 0), Base(nx, ny, nz, i2, 0, 0), (nx * ny) * nz, R, C)
    ensures var R0, C0 := Base(nx, ny, nz, i1, 0, 0), Base(nx, ny, nz, i2, 0, 0);
      R0 + (C - C0) < 3 * (nx * ny) * nz && C0 + (R - R0) < 3 * (nx * ny) * nz
      && Fixed(nx, ny, nz, q, Stage(i1, i2 + 1, 0, 0, 0, 0), R, C)
      && Fixed(nx, ny, nz, q, Stage(i1, i2, nz, 0, 0, 0), R0 + (C - C0), C0 + (R - R0))
      && CanonRow(nx, ny, nz, q, R0 + (C - C0), C0 + (R - R0)) == CanonRow(nx, ny, nz, q, R, C)
      && CanonCol(nx, ny, nz, q, R0 + (C - C0), C0 + (R - R0)) == CanonCol(nx, ny, nz, q, R, C)
  {
    var R0, C0 := Base(nx, ny, nz, i1, 0, 0), Base(nx, ny, nz, i2, 0, 0);
    ZBlockOf(nx, ny, nz, i1, R);
    ZBlockOf(nx, ny, nz, i2, C);
    ComponentFits(nx, ny, nz, i1);
    ComponentFits(nx, ny, nz, i2);
    PlaneOrder(nx, ny, nz, R, C);
    ZPartner(nx, ny, nz, i1, C);
    ZPartner(nx, ny, nz, i2, R);
  }

  /** Outside the upper part of the component block, nothing new is fixed. */
  lemma ZLower(nx: nat, ny: nat, nz: nat, q: nat, i1: nat, i2: nat, R: nat, C: nat)
    requires i2 <= i1 < 3
    requires R < 3 * (nx * ny) * nz + q && C < 3 * (nx * ny) * nz + q
    requires !InUpper(Base(nx, ny, nz, i1, 0, 0), Base(nx, ny, nz, i2, 0, 0), (nx * ny) * nz, R, C)
    requires Fixed(nx, ny, nz, q, Stage(i1, i2 + 1, 0, 0, 0, 0), R, C)
    ensures Fixed(nx, ny, nz, q, Stage(i1, i2, nz, 0, 0, 0), R, C)
  {
    if R < 3 * (nx * ny) * nz && C < 3 * (nx * ny) * nz
       && CompI(nx, ny, nz, R) == i1 && CompI(nx, ny, nz, C) == i2 {
      var R0, C0 := Base(nx, ny, nz, i1, 0, 0), Base(nx, ny, nz, i2, 0, 0);
      ZBlockOf(nx, ny, nz, i1, R);
      ZBlockOf(nx, ny, nz, i2, C);
      PlaneOrder(nx, ny, nz, C, R);
    }
  }

  /** Order of the (z, y, x) offsets of two spatial indices within their components. */
  lemma PlaneOrder(nx: nat, ny: nat, nz: nat, R: nat, C: nat)
    requires R < 3 * (nx * ny) * nz && C < 3 * (nx * ny) * nz
    ensures CompI(nx, ny, nz, R) < 3 && CompZ(nx, ny, nz, R) < nz
    ensures CompY(nx, ny, nz, R) < ny && CompX(nx, ny, nz, R) < nx
    ensures CompI(nx, ny, nz, C) < 3 && CompZ(nx, ny, nz, C) < nz
    ensures CompY(nx, ny, nz, C) < ny && CompX(nx, ny, nz, C) < nx
    ensures var vR := (nx * ny) * CompZ(nx, ny, nz, R) + (nx * CompY(nx, ny, nz, R) + CompX(nx, ny, nz, R));
            var vC := (nx * ny) * CompZ(nx, ny, nz, C) + (nx * CompY(nx, ny, nz, C) + CompX(nx, ny, nz, C));
      vC < vR <==>
        (CompZ(nx, ny, nz, C) < CompZ(nx, ny, nz, R)
         || (CompZ(nx, ny, nz, C) == CompZ(nx, ny, nz, R)
             && (CompY(nx, ny, nz, C) < CompY(nx, ny, nz, R)
                 || (CompY(nx, ny, nz, C) == CompY(nx, ny, nz, R) && CompX(nx, ny, nz, C) < CompX(nx, ny, nz, R)))))
  {
    IndexDecode(nx, ny, nz, R);
    IndexDecode(nx, ny, nz, C);
    var zR, yR, xR := CompZ(nx, ny, nz, R), CompY(nx, ny, nz, R), CompX(nx, ny, nz, R);
    var zC, yC, xC := CompZ(nx, ny, nz, C), CompY(nx, ny, nz, C), CompX(nx, ny, nz, C);
    InPlane(nx, ny, yR, xR);
    InPlane(nx, ny, yC, xC);
    BlockOrder(nx, yC, xC, yR, xR);
    BlockOrder(nx * ny, zC, nx * yC + xC, zR, nx * yR + xR);
  }

  /** Spatial indices are ordered first by component. */
  lemma ComponentOrder(nx: nat, ny: nat, nz: nat, R: nat, C: nat)
    requires R < 3 * (nx * ny) * nz && C < 3 * (nx * ny) * nz && C <= R
    ensures CompI(nx, ny, nz, C) <= CompI(nx, ny, nz, R) < 3
  {
    var N := (nx * ny) * nz;
    ZBlockDecode(nx, ny, nz, R);
    ZBlockDecode(nx, ny, nz, C);
    IndexDecode(nx, ny, nz, R);
    var iR, iC := CompI(nx, ny, nz, R), CompI(nx, ny, nz, C);
    assert Base(nx, ny, nz, iR, 0, 0) == N * iR;
    assert Base(nx, ny, nz, iC, 0, 0) == N * iC;
    if iR < iC {
      MulMono(N, iR, R - N * iR, iC);
    }
  }

  /** After the whole-matrix mirror, an entry above the diagonal has a fixed partner. */
  lemma GlobalUpper(nx: nat, ny: nat, nz: nat, q: nat, R: nat, C: nat)
    requires R < C < 3 * (nx * ny) * nz + q
    ensures Fixed(nx, ny, nz, q, Stage(3, 0, 0, 0, 0, 0), C, R)
  {
    if C < 3 * (nx * ny) * nz {
      ComponentOrder(nx, ny, nz, C, R);
    }
  }

  /** Every entry on or below the diagonal is fixed once all components are done. */
  lemma GlobalLower(nx: nat, ny: nat, nz: nat, q: nat, R: nat, C: nat)
    requires C <= R < 3 * (nx * ny) * nz + q
    ensures Fixed(nx, ny, nz, q, Stage(3, 0, 0, 0, 0, 0), R, C)
  {
    if R < 3 * (nx * ny) * nz {
      ComponentOrder(nx, ny, nz, R, C);
    }
  }

  /** Before the pass, exactly the accumulated entries are fixed, and they are their own sources. */
  lemma Start(a0: seq<real>, nx: nat, ny: nat, nz: nat, q: nat)
    requires |a0| == (3 * (nx * ny) * nz + q) * (3 * (nx * ny) * nz + q)
    ensures SymSoFar(a0, a0, nx, ny, nz, q, Stage(0, 0, 0, 0, 0, 0))
  {
    var P := 3 * (nx * ny) * nz + q;
    forall R: nat, C: nat | R < P && C < P && Fixed(nx, ny, nz, q, Stage(0, 0, 0, 0, 0, 0), R, C)
      ensures a0[At(P, R, C)] == a0[At(P, CanonRow(nx, ny, nz, q, R, C), CanonCol(nx, ny, nz, q, R, C))]
    {
      CanonOfAccumulated(nx, ny, nz, q, R, C);
    }
  }

  /** Stage (.., y1, y1 + 1) of the inner loop fixes what stage (.., y1 + 1, 0) does. */
  lemma NextY(a: seq<real>, a0: seq<real>, nx: nat, ny: nat, nz: nat, q: nat,
              i1: nat, i2: nat, z1: nat, z2: nat, y1: nat)
    requires |a| == |a0| == (3 * (nx * ny) * nz + q) * (3 * (nx * ny) * nz + q)
    requires SymSoFar(a, a0, nx, ny, nz, q, Stage(i1, i2, z1, z2, y1, y1 + 1))
    ensures SymSoFar(a, a0, nx, ny, nz, q, Stage(i1, i2, z1, z2, y1 + 1, 0))
  {
    var P := 3 * (nx * ny) * nz + q;
    forall R: nat, C: nat | R < P && C < P && Fixed(nx, ny, nz, q, Stage(i1, i2, z1, z2, y1 + 1, 0), R, C)
      ensures a[At(P, R, C)] == a0[At(P, CanonRow(nx, ny, nz, q, R, C), CanonCol(nx, ny, nz, q, R, C))]
    {
      assert Fixed(nx, ny, nz, q, Stage(i1, i2, z1, z2, y1, y1 + 1), R, C);
    }
  }

  /** Stage (.., z1, z1 + 1, 0, 0) fixes what stage (.., z1 + 1, 0, 0, 0) does. */
  lemma NextZ(a: seq<real>, a0: seq<real>, nx: nat, ny: nat, nz: nat, q: nat, i1: nat, i2: nat, z1: nat)
    requires |a| == |a0| == (3 * (nx * ny) * nz + q) * (3 * (nx * ny) * nz + q)
    requires SymSoFar(a, a0, nx, ny, nz, q, Stage(i1, i2, z1, z1 + 1, 0, 0))
    ensures SymSoFar(a, a0, nx, ny, nz, q, Stage(i1, i2, z1 + 1, 0, 0, 0))
  {
    var P := 3 * (nx * ny) * nz + q;
    forall R: nat, C: nat | R < P && C < P && Fixed(nx, ny, nz, q, Stage(i1, i2, z1 + 1, 0, 0, 0), R, C)
      ensures a[At(P, R, C)] == a0[At(P, CanonRow(nx, ny, nz, q, R, C), CanonCol(nx, ny, nz, q, R, C))]
    {
      assert Fixed(nx, ny, nz, q, Stage(i1, i2, z1, z1 + 1, 0, 0), R, C);
    }
  }

  /** Stage (i1, i1 + 1, ..) fixes what stage (i1 + 1, 0, ..) does. */
  lemma NextI(a: seq<real>, a0: seq<real>, nx: nat, ny: nat, nz: nat, q: nat, i1: nat)
    requires |a| == |a0| == (3 * (nx * ny) * nz + q) * (3 * (nx * ny) * nz + q)
    requires SymSoFar(a, a0, nx, ny, nz, q, Stage(i1, i1 + 1, 0, 0, 0, 0))
    ensures SymSoFar(a, a0, nx, ny, nz, q, Stage(i1 + 1, 0, 0, 0, 0, 0))
  {
    var P := 3 * (nx * ny) * nz + q;
    forall R: nat, C: nat | R < P && C < P && Fixed(nx, ny, nz, q, Stage(i1 + 1, 0, 0, 0, 0, 0), R, C)
      ensures a[At(P, R, C)] == a0[At(P, CanonRow(nx, ny, nz, q, R, C), CanonCol(nx, ny, nz, q, R, C))]
    {
      assert Fixed(nx, ny, nz, q, Stage(i1, i1 + 1, 0, 0, 0, 0), R, C);
    }
  }

  /** One entry of the x-level mirror step. */
  lemma XPoint(a: seq<real>, a1: seq<real>, a0: seq<real>, nx: nat, ny: nat, nz: nat, q: nat,
      st: Stage, R: nat, C: nat)
    requires st.i2 <= st.i1 < 3 && st.z2 <= st.z1 < nz && st.y2 <= st.y1 < ny
    requires |a| == |a1| == |a0| == (3 * (nx * ny) * nz + q) * (3 * (nx * ny) * nz + q)
    requires Base(nx, ny, nz, st.i1, st.z1, st.y1) + nx <= 3 * (nx * ny) * nz + q
    requires Base(nx, ny, nz, st.i2, st.z2, st.y2) + nx <= 3 * (nx * ny) * nz + q
    requires SymSoFar(a, a0, nx, ny, nz, q, st)
    requires Mirrored(a1, a, 3 * (nx * ny) * nz + q,
                      Base(nx, ny, nz, st.i1, st.z1, st.y1), Base(nx, ny, nz, st.i2, st.z2, st.y2), nx)
    requires R < 3 * (nx * ny) * nz + q && C < 3 * (nx * ny) * nz + q
    requires Fixed(nx, ny, nz, q, st.(y2 := st.y2 + 1), R, C)
    ensures var P := 3 * (nx * ny) * nz + q;
      a1[At(P, R, C)] == a0[At(P, CanonRow(nx, ny, nz, q, R, C), CanonCol(nx, ny, nz, q, R, C))]
  {
    var P := 3 * (nx * ny) * nz + q;
    var R0, C0 := Base(nx, ny, nz, st.i1, st.z1, st.y1), Base(nx, ny, nz, st.i2, st.z2, st.y2);
    MirroredAt(a1, a, P, R0, C0, nx, R, C);
    if InUpper(R0, C0, nx, R, C) {
      XStep(nx, ny, nz, q, st, R, C);
    } else {
      XStep(nx, ny, nz, q, st, R, C);
    }
  }

  /** One entry of the (y, x)-level mirror step. */
  lemma YPoint(a: seq<real>, a1: seq<real>, a0: seq<real>, nx: nat, ny: nat, nz: nat, q: nat,
      i1: nat, i2: nat, z1: nat, z2: nat, R: nat, C: nat)
    requires i2 <= i1 < 3 && z2 <= z1 < nz
    requires |a| == |a1| == |a0| == (3 * (nx * ny) * nz + q) * (3 * (nx * ny) * nz + q)
    requires Base(nx, ny, nz, i1, z1, 0) + nx * ny <= 3 * (nx * ny) * nz + q
    requires Base(nx, ny, nz, i2, z2, 0) + nx * ny <= 3 * (nx * ny) * nz + q
    requires SymSoFar(a, a0, nx, ny, nz, q, Stage(i1, i2, z1, z2, ny, 0))
    requires Mirrored(a1, a, 3 * (nx * ny) * nz + q,
                      Base(nx, ny, nz, i1, z1, 0), Base(nx, ny, nz, i2, z2, 0), nx * ny)
    requires R < 3 * (nx * ny) * nz + q && C < 3 * (nx * ny) * nz + q
    requires Fixed(nx, ny, nz, q, Stage(i1, i2, z1, z2 + 1, 0, 0), R, C)
    ensures var P := 3 * (nx * ny) * nz + q;
      a1[At(P, R, C)] == a0[At(P, CanonRow(nx, ny, nz, q, R, C), CanonCol(nx, ny, nz, q, R, C))]
  {
    var P := 3 * (nx * ny) * nz + q;
    var R0, C0 := Base(nx, ny, nz, i1, z1, 0), Base(nx, ny, nz, i2, z2, 0);
    MirroredAt(a1, a, P, R0, C0, nx * ny, R, C);
    if InUpper(R0, C0, nx * ny, R, C) {
      YStep(nx, ny, nz, q, i1, i2, z1, z2, R, C);
    } else {
      YStep(nx, ny, nz, q, i1, i2, z1, z2, R, C);
    }
  }

  /** One entry of the component-level mirror step. */
  lemma ZPoint(a: seq<real>, a1: seq<real>, a0: seq<real>, nx: nat, ny: nat, nz: nat, q: nat,
      i1: nat, i2: nat, R: nat, C: nat)
    requires i2 <= i1 < 3
    requires |a| == |a1| == |a0| == (3 * (nx * ny) * nz + q) * (3 * (nx * ny) * nz + q)
    requires Base(nx, ny, nz, i1, 0, 0) + (nx * ny) * nz <= 3 * (nx * ny) * nz + q
    requires Base(nx, ny, nz, i2, 0, 0) + (nx * ny) * nz <= 3 * (nx * ny) * nz + q
    requires SymSoFar(a, a0, nx, ny, nz, q, Stage(i1, i2, nz, 0, 0, 0))
    requires Mirrored(a1, a, 3 * (nx * ny) * nz + q,
                      Base(nx, ny, nz, i1, 0, 0), Base(nx, ny, nz, i2, 0, 0), (nx * ny) * nz)
    requires R < 3 * (nx * ny) * nz + q && C < 3 * (nx * ny) * nz + q
    requires Fixed(nx, ny, nz, q, Stage(i1, i2 + 1, 0, 0, 0, 0), R, C)
    ensures var P := 3 * (nx * ny) * nz + q;
      a1[At(P, R, C)] == a0[At(P, CanonRow(nx, ny, nz, q, R, C), CanonCol(nx, ny, nz, q, R, C))]
  {
    var P := 3 * (nx * ny) * nz + q;
    var R0, C0 := Base(nx, ny, nz, i1, 0, 0), Base(nx, ny, nz, i2, 0, 0);
    MirroredAt(a1, a, P, R0, C0, (nx * ny) * nz, R, C);
    if InUpper(R0, C0, (nx * ny) * nz, R, C) {
      ZUpper(nx, ny, nz, q, i1, i2, R, C);
    } else {
      ZLower(nx, ny, nz, q, i1, i2, R, C);
    }
  }

  /** Mirroring the x-block of stage st advances the invariant past it. */
  lemma XMirrored(a: seq<real>, a1: seq<real>, a0: seq<real>, nx: nat, ny: nat, nz: nat, q: nat, st: Stage)
    requires st.i2 <= st.i1 < 3 && st.z2 <= st.z1 < nz && st.y2 <= st.y1 < ny
    requires |a| == |a1| == |a0| == (3 * (nx * ny) * nz + q) * (3 * (nx * ny) * nz + q)
    requires Base(nx, ny, nz, st.i1, st.z1, st.y1) + nx <= 3 * (nx * ny) * nz + q
    requires Base(nx, ny, nz, st.i2, st.z2, st.y2) + nx <= 3 * (nx * ny) * nz + q
    requires SymSoFar(a, a0, nx, ny, nz, q, st)
    requires Mirrored(a1, a, 3 * (nx * ny) * nz + q,
                      Base(nx, ny, nz, st.i1, st.z1, st.y1), Base(nx, ny, nz, st.i2, st.z2, st.y2), nx)
    ensures SymSoFar(a1, a0, nx, ny, nz, q, st.(y2 := st.y2 + 1))
  {
    var P := 3 * (nx * ny) * nz + q;
    forall R: nat, C: nat | R < P && C < P && Fixed(nx, ny, nz, q, st.(y2 := st.y2 + 1), R, C)
      ensures a1[At(P, R, C)] == a0[At(P, CanonRow(nx, ny, nz, q, R, C), CanonCol(nx, ny, nz, q, R, C))]
    {
      XPoint(a, a1, a0, nx, ny, nz, q, st, R, C);
    }
  }

  /** Mirroring the (y, x)-block at (i1, i2, z1, z2) advances the invariant past it. */
  lemma YMirrored(a: seq<real>, a1: seq<real>, a0: seq<real>, nx: nat, ny: nat, nz: nat, q: nat,
                  i1: nat, i2: nat, z1: nat, z2: nat)
    requires i2 <= i1 < 3 && z2 <= z1 < nz
    requires |a| == |a1| == |a0| == (3 * (nx * ny) * nz + q) * (3 * (nx * ny) * nz + q)
    requires Base(nx, ny, nz, i1, z1, 0) + nx * ny <= 3 * (nx * ny) * nz + q
    requires Base(nx, ny, nz, i2, z2, 0) + nx * ny <= 3 * (nx * ny) * nz + q
    requires SymSoFar(a, a0, nx, ny, nz, q, Stage(i1, i2, z1, z2, ny, 0))
    requires Mirrored(a1, a, 3 * (nx * ny) * nz + q,
                      Base(nx, ny, nz, i1, z1, 0), Base(nx, ny, nz, i2, z2, 0), nx * ny)
    ensures SymSoFar(a1, a0, nx, ny, nz, q, Stage(i1, i2, z1, z2 + 1, 0, 0))
  {
    var P := 3 * (nx * ny) * nz + q;
    forall R: nat, C: nat | R < P && C < P && Fixed(nx, ny, nz, q, Stage(i1, i2, z1, z2 + 1, 0, 0), R, C)
      ensures a1[At(P, R, C)] == a0[At(P, CanonRow(nx, ny, nz, q, R, C), CanonCol(nx, ny, nz, q, R, C))]
    {
      YPoint(a, a1, a0, nx, ny, nz, q, i1, i2, z1, z2, R, C);
    }
  }

  /** Mirroring the component block at (i1, i2) advances the invariant past it. */
  lemma ZMirrored(a: seq<real>, a1: seq<real>, a0: seq<real>, nx: nat, ny: nat, nz: nat, q: nat,
                  i1: nat, i2: nat)
    requires i2 <= i1 < 3
    requires |a| == |a1| == |a0| == (3 * (nx * ny) * nz + q) * (3 * (nx * ny) * nz + q)
    requires Base(nx, ny, nz, i1, 0, 0) + (nx * ny) * nz <= 3 * (nx * ny) * nz + q
    requires Base(nx, ny, nz, i2, 0, 0) + (nx * ny) * nz <= 3 * (nx * ny) * nz + q
    requires SymSoFar(a, a0, nx, ny, nz, q, Stage(i1, i2, nz, 0, 0, 0))
    requires Mirrored(a1, a, 3 * (nx * ny) * nz + q,
                      Base(nx, ny, nz, i1, 0, 0), Base(nx, ny, nz, i2, 0, 0), (nx * ny) * nz)
    ensures SymSoFar(a1, a0, nx, ny, nz, q, Stage(i1, i2 + 1, 0, 0, 0, 0))
  {
    var P := 3 * (nx * ny) * nz + q;
    forall R: nat, C: nat | R < P && C < P && Fixed(nx, ny, nz, q, Stage(i1, i2 + 1, 0, 0, 0, 0), R, C)
      ensures a1[At(P, R, C)] == a0[At(P, CanonRow(nx, ny, nz, q, R, C), CanonCol(nx, ny, nz, q, R, C))]
    {
      ZPoint(a, a1, a0, nx, ny, nz, q, i1, i2, R, C);
    }
  }

  /** The whole-matrix mirror completes the pass. */
  lemma GlobalMirrored(a: seq<real>, a1: seq<real>, a0: seq<real>, nx: nat, ny: nat, nz: nat, q: nat)
    requires |a| == |a1| == |a0| == (3 * (nx * ny) * nz + q) * (3 * (nx * ny) * nz + q)
    requires SymSoFar(a, a0, nx, ny, nz, q, Stage(3, 0, 0, 0, 0, 0))
    requires Mirrored(a1, a, 3 * (nx * ny) * nz + q, 0, 0, 3 * (nx * ny) * nz + q)
    ensures Symmetrised(a1, a0, nx, ny, nz, q)
  {
    var P := 3 * (nx * ny) * nz + q;
    forall R: nat, C: nat | R < P && C < P
      ensures a1[At(P, R, C)] == a0[At(P, CanonRow(nx, ny, nz, q, R, C), CanonCol(nx, ny, nz, q, R, C))]
    {
      GlobalPoint(a, a1, a0, nx, ny, nz, q, R, C);
    }
  }

  /** GlobalMirrored at one entry (R, C). */
  lemma GlobalPoint(a: seq<real>, a1: seq<real>, a0: seq<real>, nx: nat, ny: nat, nz: nat, q: nat, R: nat, C: nat)
    requires |a| == |a1| == |a0| == (3 * (nx * ny) * nz + q) * (3 * (nx * ny) * nz + q)
    requires SymSoFar(a, a0, nx, ny, nz, q, Stage(3, 0, 0, 0, 0, 0))
    requires Mirrored(a1, a, 3 * (nx * ny) * nz + q, 0, 0, 3 * (nx * ny) * nz + q)
    requires R < 3 * (nx * ny) * nz + q && C < 3 * (nx * ny) * nz + q
    ensures var P := 3 * (nx * ny) * nz + q;
      a1[At(P, R, C)] == a0[At(P, CanonRow(nx, ny, nz, q, R, C), CanonCol(nx, ny, nz, q, R, C))]
  {
    var P := 3 * (nx * ny) * nz + q;
    MirroredAt(a1, a, P, 0, 0, P, R, C);
    if R < C {
      GlobalUpper(nx, ny, nz, q, R, C);
      CanonTranspose(nx, ny, nz, q, R, C);
      assert a1[At(P, R, C)] == a[At(P, C, R)];
    } else {
      GlobalLower(nx, ny, nz, q, R, C);
      assert a1[At(P, R, C)] == a[At(P, R, C)];
    }
  }

  /**
   * For one pair of components and one pair of z bases: mirrors the nx x nx
   * block of every pair of y bases y2 <= y1, then the (nx*ny)-wide block.
   */
  method MirrorPlanePair(a: array<real>, nx: nat, ny: nat, nz: nat, q: nat,
                         i1: nat, i2: nat, z1: nat, z2: nat, ghost a0: seq<real>)
    requires i2 <= i1 < 3 && z2 <= z1 < nz
    requires a.Length == |a0| == (3 * (nx * ny) * nz + q) * (3 * (nx * ny) * nz + q)
    requires SymSoFar(a[..], a0, nx, ny, nz, q, Stage(i1, i2, z1, z2, 0, 0))
    modifies a
    ensures SymSoFar(a[..], a0, nx, ny, nz, q, Stage(i1, i2, z1, z2 + 1, 0, 0))
  {
    var P := 3 * (nx * ny) * nz + q;
    for y1 := 0 to ny
      invariant SymSoFar(a[..], a0, nx, ny, nz, q, Stage(i1, i2, z1, z2, y1, 0))
    {
      for y2 := 0 to y1 + 1
        invariant SymSoFar(a[..], a0, nx, ny, nz, q, Stage(i1, i2, z1, z2, y1, y2))
      {
        BaseFits(nx, ny, nz, i1, z1, y1);
        BaseFits(nx, ny, nz, i2, z2, y2);
        ghost var before := a[..];
        MirrorBlock(a, P, Base(nx, ny, nz, i1, z1, y1), Base(nx, ny, nz, i2, z2, y2), nx);
        XMirrored(before, a[..], a0, nx, ny, nz, q, Stage(i1, i2, z1, z2, y1, y2));
      }
      NextY(a[..], a0, nx, ny, nz, q, i1, i2, z1, z2, y1);
    }
    PlaneFits(nx, ny, nz, i1, z1);
    PlaneFits(nx, ny, nz, i2, z2);
    ghost var before := a[..];
    MirrorBlock(a, P, Base(nx, ny, nz, i1, z1, 0), Base(nx, ny, nz, i2, z2, 0), nx * ny);
    YMirrored(before, a[..], a0, nx, ny, nz, q, i1, i2, z1, z2);
  }

  /**
   * For one pair of components i2 <= i1: the plane pairs of every z2 <= z1,
   * then the component block.
   */
  method MirrorComponentPair(a: array<real>, nx: nat, ny: nat, nz: nat, q: nat,
                             i1: nat, i2: nat, ghost a0: seq<real>)
    requires i2 <= i1 < 3
    requires a.Length == |a0| == (3 * (nx * ny) * nz + q) * (3 * (nx * ny) * nz + q)
    requires SymSoFar(a[..], a0, nx, ny, nz, q, Stage(i1, i2, 0, 0, 0, 0))
    modifies a
    ensures SymSoFar(a[..], a0, nx, ny, nz, q, Stage(i1, i2 + 1, 0, 0, 0, 0))
  {
    var P := 3 * (nx * ny) * nz + q;
    for z1 := 0 to nz
      invariant SymSoFar(a[..], a0, nx, ny, nz, q, Stage(i1, i2, z1, 0, 0, 0))
    {
      for z2 := 0 to z1 + 1
        invariant SymSoFar(a[..], a0, nx, ny, nz, q, Stage(i1, i2, z1, z2, 0, 0))
      {
        MirrorPlanePair(a, nx, ny, nz, q, i1, i2, z1, z2, a0);
      }
      NextZ(a[..], a0, nx, ny, nz, q, i1, i2, z1);
    }
    ComponentFits(nx, ny, nz, i1);
    ComponentFits(nx, ny, nz, i2);
    ghost var before := a[..];
    MirrorBlock(a, P, Base(nx, ny, nz, i1, 0, 0), Base(nx, ny, nz, i2, 0, 0), (nx * ny) * nz);
    ZMirrored(before, a[..], a0, nx, ny, nz, q, i1, i2);
  }

  /**
   * The symmetriser of mrqcof: the component pairs of every i2 <= i1, then
   * the whole matrix.  Every entry ends up holding the canonical (accumulated)
   * entry of the input.
   */
  method Symmetrise(a: array<real>, nx: nat, ny: nat, nz: nat, q: nat)
    requires a.Length == (3 * (nx * ny) * nz + q) * (3 * (nx * ny) * nz + q)
    modifies a
    ensures Symmetrised(a[..], old(a[..]), nx, ny, nz, q)
  {
    var P := 3 * (nx * ny) * nz + q;
    ghost var a0 := a[..];
    Start(a0, nx, ny, nz, q);
    for i1 := 0 to 3
      invariant SymSoFar(a[..], a0, nx, ny, nz, q, Stage(i1, 0, 0, 0, 0, 0))
    {
      for i2 := 0 to i1 + 1
        invariant SymSoFar(a[..], a0, nx, ny, nz, q, Stage(i1, i2, 0, 0, 0, 0))
      {
        MirrorComponentPair(a, nx, ny, nz, q, i1, i2, a0);
      }
      NextI(a[..], a0, nx, ny, nz, q, i1);
    }
    ghost var before := a[..];
    MirrorBlock(a, P, 0, 0, P);
    GlobalMirrored(before, a[..], a0, nx, ny, nz, q);
  }
}
