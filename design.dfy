/**
 * One voxel of mrqcof (spm_brainwarp.c:183-240): the deformed position is
 * mapped by the affine matrix into the object image; when it lands inside the
 * margins the object is sampled there, its gradient is pulled back through the
 * affine part and the Jacobian of the deformation, and the voxel's row of the
 * design matrix (dvdt) and its residual (dv) are formed.
 */
module Design {
  import opened Arith
  import opened Sums
  import opened Field

  datatype Option<T> = None | Some(value: T)

  /** Value and gradient that the interpolator returns at a point. */
  datatype Reading = Reading(v: real, gx: real, gy: real, gz: real)

  /**
   * An image volume: its dimensions and its sampler, which stands for
   * resample_d with one point, hold 1 and background 0.
   */
  datatype Volume = Volume(dx: nat, dy: nat, dz: nat, resample: (real, real, real) -> Reading)

  /**
   * The inputs of mrqcof: the current parameters T, the template-space bases,
   * the 4x4 affine matrix M (column-major), the object image, the templates,
   * the sampling strides and the edge margins.
   */
  datatype Problem = Problem(t: seq<real>, bs: BasisSet, M: seq<real>, obj: Volume,
                             templates: seq<Volume>, samp: seq<nat>, edgeskip: seq<nat>)

  /** A voxel that passed the range test: its design row, residual and nonlinear gradient dvds0. */
  datatype Voxel = Voxel(d: seq<real>, dv: real, gx: real, gy: real, gz: real)

  /** Template dimensions: those of the first template (dim1 = vols1[0].dim). */
  function D0(p: Problem): nat requires |p.templates| >= 1 { p.templates[0].dx }
  function D1(p: Problem): nat requires |p.templates| >= 1 { p.templates[0].dy }
  function D2(p: Problem): nat requires |p.templates| >= 1 { p.templates[0].dz }

  /** Number of spatial parameters, 3*nx*ny*nz. */
  function Spatials(p: Problem): nat { 3 * (p.bs.nx * p.bs.ny) * p.bs.nz }

  /** Length of a voxel's design row, 3*nx + 4*ni. */
  function Width(p: Problem): nat { 3 * p.bs.nx + 4 * |p.templates| }

  /** What mrqcof relies on: the sizes mexFunction checks and strides of at least 1. */
  predicate Valid(p: Problem)
  {
    |p.templates| >= 1 && Fits(p.bs, D0(p), D1(p), D2(p))
    && |p.t| == Spatials(p) + 4 * |p.templates| && |p.M| == 16
    && |p.samp| == 3 && |p.edgeskip| == 3
    && p.samp[0] >= 1 && p.samp[1] >= 1 && p.samp[2] >= 1
  }

  /** (sx, sy, sz) is a template voxel of a valid problem. */
  predicate InGrid(p: Problem, sx: nat, sy: nat, sz: nat)
  {
    Valid(p) && sx < D0(p) && sy < D1(p) && sz < D2(p)
  }

  /** The intensity parameters: the 4*ni entries of T after the spatial ones (scale1a). */
  function Intensity(p: Problem): (sc: seq<real>)
    requires Valid(p)
    ensures |sc| == 4 * |p.templates|
  {
    p.t[Spatials(p)..]
  }

  /** s2 = M * (trans, 1): the deformed position in object voxel coordinates. */
  function Affine(M: seq<real>, tr: seq<real>): (s2: seq<real>)
    requires |M| == 16 && |tr| == 3
    ensures |s2| == 3
  {
    seq(3, r requires 0 <= r < 3 => Times(M[r], tr[0]) + Times(M[r + 4], tr[1]) + Times(M[r + 8], tr[2]) + M[r + 12])
  }

  /** The margins test: 1 + e[k] <= s2[k] < dim[k] - e[k] on every axis. */
  predicate InRange(s2: seq<real>, obj: Volume, e: seq<nat>)
    requires |s2| == 3 && |e| == 3
  {
    s2[0] >= (1 + e[0]) as real && s2[0] < (obj.dx as int - e[0]) as real &&
    s2[1] >= (1 + e[1]) as real && s2[1] < (obj.dy as int - e[1]) as real &&
    s2[2] >= (1 + e[2]) as real && s2[2] < (obj.dz as int - e[2]) as real
  }

  /** dvds1: the object gradient g pulled back through the linear part of M. */
  function Pull(M: seq<real>, g: seq<real>): (r: seq<real>)
    requires |M| == 16 && |g| == 3
    ensures |r| == 3
  {
    seq(3, c requires 0 <= c < 3 => Times(M[4 * c], g[0]) + Times(M[1 + 4 * c], g[1]) + Times(M[2 + 4 * c], g[2]))
  }

  /** dvds0 before the intensity corrections: J applied to dvds1, J[k][c] at 3*k + c. */
  function Push(J: seq<real>, g1: seq<real>): (r: seq<real>)
    requires |J| == 9 && |g1| == 3
    ensures |r| == 3
  {
    seq(3, k requires 0 <= k < 3 => Times(J[3 * k], g1[0]) + Times(J[3 * k + 1], g1[1]) + Times(J[3 * k + 2], g1[2]))
  }

  /** Spatial part of the design row: entry c*nx + x is -dvds1[c] * BX[x] at the voxel. */
  function SpatialRow(g1: seq<real>, wx: seq<real>, nx: nat): (d: seq<real>)
    requires |g1| == 3 && |wx| == nx
    ensures |d| == 3 * nx
  {
    seq(3 * nx, e requires 0 <= e < 3 * nx => Times(-g1[e / nx], wx[e % nx]))
  }

  /** The template i sampled at the template voxel itself. */
  function TemplateReading(p: Problem, i: nat, sx: nat, sy: nat, sz: nat): Reading
    requires i < |p.templates|
  {
    p.templates[i].resample(sx as real, sy as real, sz as real)
  }

  /** Entry j < 4 of a template's block: its value, then its value times each coordinate of s2. */
  function IntensityEntry(v: real, s2: seq<real>, j: nat): real
    requires |s2| == 3 && j < 4
  {
    if j == 0 then v else Times(v, s2[j - 1])
  }

  /** Intensity part of the design row: 4 entries per template. */
  function IntensityRow(p: Problem, s2: seq<real>, sx: nat, sy: nat, sz: nat): (d: seq<real>)
    requires |s2| == 3
    ensures |d| == 4 * |p.templates|
  {
    seq(4 * |p.templates|, k requires 0 <= k < 4 * |p.templates| =>
      IntensityEntry(TemplateReading(p, k / 4, sx, sy, sz).v, s2, k % 4))
  }

  /** Products of the intensity entries of a row with the intensity parameters. */
  function Fitted(row: seq<real>, sc: seq<real>, off: nat): (f: seq<real>)
    requires off + |sc| <= |row|
    ensures |f| == |sc|
  {
    seq(|sc|, k requires 0 <= k < |sc| => Times(row[off + k], sc[k]))
  }

  /** The intensity model of template i at s2: sc[4i] + s2 . sc[4i+1 .. 4i+3] (tmp2). */
  function Modulation(sc: seq<real>, s2: seq<real>, i: nat): real
    requires |s2| == 3 && 4 * i + 3 < |sc|
  {
    sc[4 * i] + Times(s2[0], sc[4 * i + 1]) + Times(s2[1], sc[4 * i + 2]) + Times(s2[2], sc[4 * i + 3])
  }

  /** Component k of a sample's gradient. */
  function Grad(s: Reading, k: nat): real
    requires k < 3
  {
    if k == 0 then s.gx else if k == 1 then s.gy else s.gz
  }

  /** Terms that the templates subtract from component k of dvds0. */
  function Corrections(p: Problem, sc: seq<real>, s2: seq<real>, sx: nat, sy: nat, sz: nat, k: nat): (c: seq<real>)
    requires |sc| == 4 * |p.templates| && |s2| == 3 && k < 3
    ensures |c| == |p.templates|
  {
    seq(|p.templates|, i requires 0 <= i < |p.templates| =>
      Times(Grad(TemplateReading(p, i, sx, sy, sz), k), Modulation(sc, s2, i)))
  }

  /**
   * The voxel at template position (sx, sy, sz) once it is known to be in
   * range at the object position s2, with Jacobian J: its design row, its
   * residual and its corrected gradient.
   */
  function Assemble(p: Problem, sx: nat, sy: nat, sz: nat, s2: seq<real>, J: seq<real>): (r: Voxel)
    requires InGrid(p, sx, sy, sz) && |s2| == 3 && |J| == 9
    ensures |r.d| == Width(p)
  {
    var smp := p.obj.resample(s2[0], s2[1], s2[2]);
    var g1 := Pull(p.M, [smp.gx, smp.gy, smp.gz]);
    var g0 := Push(J, g1);
    var d := VoxelRow(p, sx, sy, sz, s2, g1);
    Voxel(d, Residual(smp.v, d, Intensity(p), 3 * p.bs.nx),
          Corrected(p, Intensity(p), s2, sx, sy, sz, g0, 0),
          Corrected(p, Intensity(p), s2, sx, sy, sz, g0, 1),
          Corrected(p, Intensity(p), s2, sx, sy, sz, g0, 2))
  }

  /** The design row of a voxel: its spatial part for dvds1 = g1, then its intensity part. */
  function VoxelRow(p: Problem, sx: nat, sy: nat, sz: nat, s2: seq<real>, g1: seq<real>): (d: seq<real>)
    requires InGrid(p, sx, sy, sz) && |s2| == 3 && |g1| == 3
    ensures |d| == Width(p)
  {
    SpatialRow(g1, Col(p.bs.BX, D0(p), sx, p.bs.nx), p.bs.nx) + IntensityRow(p, s2, sx, sy, sz)
  }

  /** dv: the object value v less the intensity fit of the row's entries from off on. */
  function Residual(v: real, row: seq<real>, sc: seq<real>, off: nat): real
    requires off + |sc| <= |row|
  {
    v - Total(Fitted(row, sc, off))
  }

  /** Component k of dvds0 after the template corrections, from its value g0 before them. */
  function Corrected(p: Problem, sc: seq<real>, s2: seq<real>, sx: nat, sy: nat, sz: nat, g0: seq<real>, k: nat): real
    requires |sc| == 4 * |p.templates| && |s2| == 3 && |g0| == 3 && k < 3
  {
    g0[k] - Total(Corrections(p, sc, s2, sx, sy, sz, k))
  }

  /**
   * The voxel at template position (sx, sy, sz): None when its deformed
   * position falls outside the margins of the object image, otherwise its
   * design row, residual and corrected gradient.
   */
  function VoxelAt(p: Problem, sx: nat, sy: nat, sz: nat): (r: Option<Voxel>)
    requires InGrid(p, sx, sy, sz)
    ensures r.Some? <==>
      InRange(Affine(p.M, Trans(p.t, p.bs, D0(p), D1(p), D2(p), sx, sy, sz)), p.obj, p.edgeskip)
    ensures r.Some? ==> |r.value.d| == Width(p)
  {
    var s2 := Affine(p.M, Trans(p.t, p.bs, D0(p), D1(p), D2(p), sx, sy, sz));
    if !InRange(s2, p.obj, p.edgeskip) then None
    else Some(Assemble(p, sx, sy, sz, s2, Jacobian(p.t, p.bs, D0(p), D1(p), D2(p), sx, sy, sz)))
  }

  /** Writes -g1c * BX[x1] at entries i1*nx + x1 of dvdt, one component of the spatial fill. */
  method FillComponent(dvdt: array<real>, g1c: real, bs: BasisSet, d0: nat, sx: nat, i1: nat)
    requires |bs.BX| == d0 * bs.nx && sx < d0 && bs.nx * i1 + bs.nx <= dvdt.Length
    modifies dvdt
    ensures forall e :: 0 <= e < dvdt.Length ==>
      dvdt[e] == if bs.nx * i1 <= e < bs.nx * i1 + bs.nx
                 then Times(-g1c, Col(bs.BX, d0, sx, bs.nx)[e - bs.nx * i1]) else old(dvdt[e])
  {
    var nx := bs.nx;
    ghost var wx := Col(bs.BX, d0, sx, nx);
    for x1 := 0 to nx
      invariant forall e :: 0 <= e < dvdt.Length ==>
        dvdt[e] == if nx * i1 <= e < nx * i1 + x1 then Times(-g1c, wx[e - nx * i1]) else old(dvdt[e])
    {
      dvdt[nx * i1 + x1] := Times(-g1c, bs.BX[Sample(d0, nx, x1, sx)]);
    }
  }

  /**
   * Fills the spatial part of dvdt with -dvds1[i1] * BX[x1] at the voxel
   * (spm_brainwarp.c:209-213), leaving the intensity part as it was.
   */
  method FillSpatial(dvdt: array<real>, g1: seq<real>, bs: BasisSet, d0: nat, sx: nat)
    requires |g1| == 3 && |bs.BX| == d0 * bs.nx && sx < d0 && 3 * bs.nx <= dvdt.Length
    modifies dvdt
    ensures dvdt[..3 * bs.nx] == SpatialRow(g1, Col(bs.BX, d0, sx, bs.nx), bs.nx)
    ensures dvdt[3 * bs.nx..] == old(dvdt[3 * bs.nx..])
  {
    var nx := bs.nx;
    ghost var wx := Col(bs.BX, d0, sx, nx);
    ghost var sr := SpatialRow(g1, wx, nx);
    for i1 := 0 to 3
      invariant forall e :: 0 <= e < nx * i1 ==> dvdt[e] == sr[e]
      invariant forall e :: 3 * nx <= e < dvdt.Length ==> dvdt[e] == old(dvdt[e])
    {
      assert nx * i1 + nx <= 3 * nx by {
        MulNonNeg(nx, 2 - i1);
        assert 3 * nx == nx * i1 + nx + nx * (2 - i1);
      }
      FillComponent(dvdt, g1[i1], bs, d0, sx, i1);
      forall e | nx * i1 <= e < nx * i1 + nx
        ensures sr[e] == Times(-g1[i1], wx[e - nx * i1])
      {
        DivModUnique(e, nx, i1, e - nx * i1);
      }
      assert nx * (i1 + 1) == nx * i1 + nx;
    }
    assert nx * 3 == 3 * nx;
  }

  /** Products of the intensity row with the intensity parameters sc. */
  function FitTerms(p: Problem, sc: seq<real>, s2: seq<real>, sx: nat, sy: nat, sz: nat): (f: seq<real>)
    requires |sc| == 4 * |p.templates| && |s2| == 3
    ensures |f| == 4 * |p.templates|
  {
    var ir := IntensityRow(p, s2, sx, sy, sz);
    seq(4 * |p.templates|, k requires 0 <= k < 4 * |p.templates| => Times(ir[k], sc[k]))
  }

  /** The intensity entries of templates 0 .. i1 - 1 are written after the spatial part base. */
  ghost predicate RowDone(row: seq<real>, p: Problem, nx: nat, sx: nat, sy: nat, sz: nat, s2: seq<real>,
                          base: seq<real>, i1: nat)
    requires |s2| == 3 && |row| == 3 * nx + 4 * |p.templates| && i1 <= |p.templates|
  {
    row[..3 * nx] == base
    && forall k :: 0 <= k < 4 * i1 ==> row[3 * nx + k] == IntensityRow(p, s2, sx, sy, sz)[k]
  }

  /** dv has lost the fitted intensity of templates 0 .. i1 - 1. */
  ghost predicate FitDone(dv: real, p: Problem, sc: seq<real>, sx: nat, sy: nat, sz: nat, s2: seq<real>,
                          v: real, i1: nat)
    requires |sc| == 4 * |p.templates| && |s2| == 3 && i1 <= |p.templates|
  {
    dv == v - Total(FitTerms(p, sc, s2, sx, sy, sz)[..4 * i1])
  }

  /** g has lost the gradient corrections of templates 0 .. i1 - 1. */
  ghost predicate GradDone(g: seq<real>, p: Problem, sc: seq<real>, sx: nat, sy: nat, sz: nat, s2: seq<real>,
                           g0: seq<real>, i1: nat)
    requires |sc| == 4 * |p.templates| && |s2| == 3 && |g0| == 3 && i1 <= |p.templates|
  {
    |g| == 3 && forall k :: 0 <= k < 3 ==> g[k] == g0[k] - Total(Corrections(p, sc, s2, sx, sy, sz, k)[..i1])
  }

  /** row with one template's block written at b: its value, then its value times each coordinate of s2. */
  function WithBlock(row: seq<real>, b: nat, w: real, s2: seq<real>): seq<real>
    requires |s2| == 3 && b + 4 <= |row|
  {
    row[b := w][b + 1 := Times(w, s2[0])][b + 2 := Times(w, s2[1])][b + 3 := Times(w, s2[2])]
  }

  /** dv less one template's four fitted terms (spm_brainwarp.c:230-233). */
  function LessFit(dv: real, w: real, sc: seq<real>, s2: seq<real>, i1: nat): real
    requires |s2| == 3 && 4 * i1 + 3 < |sc|
  {
    dv - Times(w, sc[4 * i1]) - Times(Times(w, s2[0]), sc[4 * i1 + 1])
       - Times(Times(w, s2[1]), sc[4 * i1 + 2]) - Times(Times(w, s2[2]), sc[4 * i1 + 3])
  }

  /** g less one template's gradient times its modulation m (spm_brainwarp.c:235-239). */
  function LessGrad(g: seq<real>, smp: Reading, m: real): seq<real>
    requires |g| == 3
  {
    [g[0] - Times(smp.gx, m), g[1] - Times(smp.gy, m), g[2] - Times(smp.gz, m)]
  }

  /** Writing template i1's four entries extends RowDone by one template. */
  lemma RowStep(row: seq<real>, p: Problem, nx: nat, sx: nat, sy: nat, sz: nat, s2: seq<real>,
                base: seq<real>, i1: nat, w: real, row': seq<real>)
    requires |s2| == 3 && |row| == 3 * nx + 4 * |p.templates| && i1 < |p.templates|
    requires RowDone(row, p, nx, sx, sy, sz, s2, base, i1)
    requires w == TemplateReading(p, i1, sx, sy, sz).v
    requires row' == WithBlock(row, 3 * nx + 4 * i1, w, s2)
    ensures RowDone(row', p, nx, sx, sy, sz, s2, base, i1 + 1)
  {
    var b := 3 * nx + 4 * i1;
    var ir := IntensityRow(p, s2, sx, sy, sz);
    assert row'[..3 * nx] == row[..3 * nx];
    forall k | 0 <= k < 4 * i1 + 4
      ensures row'[3 * nx + k] == ir[k]
    {
      if k >= 4 * i1 {
        IntensityAt(p, sx, sy, sz, s2, i1, k - 4 * i1);
      }
    }
  }

  /** Subtracting template i1's four fitted terms extends FitDone by one template. */
  lemma FitStep(dv: real, p: Problem, sc: seq<real>, sx: nat, sy: nat, sz: nat, s2: seq<real>,
                v: real, i1: nat, w: real)
    requires |sc| == 4 * |p.templates| && |s2| == 3 && i1 < |p.templates|
    requires FitDone(dv, p, sc, sx, sy, sz, s2, v, i1)
    requires w == TemplateReading(p, i1, sx, sy, sz).v
    ensures FitDone(LessFit(dv, w, sc, s2, i1), p, sc, sx, sy, sz, s2, v, i1 + 1)
  {
    var fit := FitTerms(p, sc, s2, sx, sy, sz);
    var n := 4 * i1;
    IntensityAt(p, sx, sy, sz, s2, i1, 0);
    IntensityAt(p, sx, sy, sz, s2, i1, 1);
    IntensityAt(p, sx, sy, sz, s2, i1, 2);
    IntensityAt(p, sx, sy, sz, s2, i1, 3);
    assert fit[n] == Times(w, sc[n]);
    assert fit[n + 1] == Times(Times(w, s2[0]), sc[n + 1]);
    assert fit[n + 2] == Times(Times(w, s2[1]), sc[n + 2]);
    assert fit[n + 3] == Times(Times(w, s2[2]), sc[n + 3]);
    TotalPrefix(fit, n);
    TotalPrefix(fit, n + 1);
    TotalPrefix(fit, n + 2);
    TotalPrefix(fit, n + 3);
  }

  /** Subtracting template i1's gradient times its modulation extends GradDone by one template. */
  lemma GradStep(g: seq<real>, p: Problem, sc: seq<real>, sx: nat, sy: nat, sz: nat, s2: seq<real>,
                 g0: seq<real>, i1: nat, smp: Reading)
    requires |sc| == 4 * |p.templates| && |s2| == 3 && |g0| == 3 && i1 < |p.templates|
    requires GradDone(g, p, sc, sx, sy, sz, s2, g0, i1)
    requires smp == TemplateReading(p, i1, sx, sy, sz)
    requires |g| == 3
    ensures GradDone(LessGrad(g, smp, Modulation(sc, s2, i1)), p, sc, sx, sy, sz, s2, g0, i1 + 1)
  {
    TotalPrefix(Corrections(p, sc, s2, sx, sy, sz, 0), i1);
    TotalPrefix(Corrections(p, sc, s2, sx, sy, sz, 1), i1);
    TotalPrefix(Corrections(p, sc, s2, sx, sy, sz, 2), i1);
  }

  /**
   * The template loop (spm_brainwarp.c:215-240): writes each template's four
   * intensity entries of dvdt after the 3*nx spatial ones, subtracts the
   * fitted intensity (parameters sc, the scale1a block of T) from dv = v and
   * the template gradients times their modulation from dvds0 = g0.
   */
  method FillIntensity(p: Problem, nx: nat, sc: seq<real>, sx: nat, sy: nat, sz: nat, s2: seq<real>,
                       v: real, g0: seq<real>, dvdt: array<real>)
    returns (dv: real, g: seq<real>)
    requires |sc| == 4 * |p.templates| && |s2| == 3 && |g0| == 3 && dvdt.Length == 3 * nx + 4 * |p.templates|
    modifies dvdt
    ensures dvdt[..3 * nx] == old(dvdt[..3 * nx])
    ensures RowDone(dvdt[..], p, nx, sx, sy, sz, s2, old(dvdt[..3 * nx]), |p.templates|)
    ensures FitDone(dv, p, sc, sx, sy, sz, s2, v, |p.templates|)
    ensures GradDone(g, p, sc, sx, sy, sz, s2, g0, |p.templates|)
  {
    ghost var base := dvdt[..3 * nx];
    dv, g := v, g0;
    for i1 := 0 to |p.templates|
      invariant RowDone(dvdt[..], p, nx, sx, sy, sz, s2, base, i1)
      invariant FitDone(dv, p, sc, sx, sy, sz, s2, v, i1)
      invariant GradDone(g, p, sc, sx, sy, sz, s2, g0, i1)
    {
      dv, g := FillTemplate(p, nx, sc, sx, sy, sz, s2, v, g0, dvdt, base, i1, dv, g);
    }
  }

  /** One pass of the template loop: template i1's entries, fitted terms and gradient correction. */
  method FillTemplate(p: Problem, nx: nat, sc: seq<real>, sx: nat, sy: nat, sz: nat, s2: seq<real>,
                      v: real, g0: seq<real>, dvdt: array<real>, ghost base: seq<real>, i1: nat,
                      dv: real, g: seq<real>)
    returns (dv': real, g': seq<real>)
    requires |sc| == 4 * |p.templates| && |s2| == 3 && |g0| == 3 && dvdt.Length == 3 * nx + 4 * |p.templates|
    requires i1 < |p.templates|
    requires RowDone(dvdt[..], p, nx, sx, sy, sz, s2, base, i1)
    requires FitDone(dv, p, sc, sx, sy, sz, s2, v, i1)
    requires GradDone(g, p, sc, sx, sy, sz, s2, g0, i1)
    modifies dvdt
    ensures RowDone(dvdt[..], p, nx, sx, sy, sz, s2, base, i1 + 1)
    ensures FitDone(dv', p, sc, sx, sy, sz, s2, v, i1 + 1)
    ensures GradDone(g', p, sc, sx, sy, sz, s2, g0, i1 + 1)
  {
    var smp := p.templates[i1].resample(sx as real, sy as real, sz as real);
    ghost var row := dvdt[..];
    WriteBlock(dvdt, 3 * nx + 4 * i1, smp.v, s2);
    RowStep(row, p, nx, sx, sy, sz, s2, base, i1, smp.v, dvdt[..]);
    FitStep(dv, p, sc, sx, sy, sz, s2, v, i1, smp.v);
    GradStep(g, p, sc, sx, sy, sz, s2, g0, i1, smp);
    dv' := LessFit(dv, smp.v, sc, s2, i1);
    g' := LessGrad(g, smp, Modulation(sc, s2, i1));
  }

  /** Writes one template's block of dvdt at b: its value, then its value times each coordinate of s2. */
  method WriteBlock(dvdt: array<real>, b: nat, w: real, s2: seq<real>)
    requires |s2| == 3 && b + 4 <= dvdt.Length
    modifies dvdt
    ensures dvdt[..] == WithBlock(old(dvdt[..]), b, w, s2)
  {
    ghost var row := dvdt[..];
    Put(dvdt, b, w);
    assert dvdt[..] == row[b := w];
    Put(dvdt, b + 1, Times(w, s2[0]));
    assert dvdt[..] == row[b := w][b + 1 := Times(w, s2[0])];
    Put(dvdt, b + 2, Times(w, s2[1]));
    Put(dvdt, b + 3, Times(w, s2[2]));
  }

  /** Stores x at entry i of a; the contents become the old ones updated at i. */
  method Put(a: array<real>, i: nat, x: real)
    requires i < a.Length
    modifies a
    ensures a[..] == old(a[..])[i := x]
  {
    a[i] := x;
  }

  /** After the loop the row is the spatial part followed by the intensity row. */
  lemma RowFinished(row: seq<real>, p: Problem, nx: nat, sx: nat, sy: nat, sz: nat, s2: seq<real>, base: seq<real>)
    requires |s2| == 3 && |row| == 3 * nx + 4 * |p.templates|
    requires RowDone(row, p, nx, sx, sy, sz, s2, base, |p.templates|)
    ensures row == base + IntensityRow(p, s2, sx, sy, sz)
  {
    assert row[3 * nx..] == IntensityRow(p, s2, sx, sy, sz);
    assert row == row[..3 * nx] + row[3 * nx..];
  }

  /** After the loop dv is v less the fitted intensity of the whole row. */
  lemma FitFinished(row: seq<real>, dv: real, p: Problem, nx: nat, sc: seq<real>, sx: nat, sy: nat, sz: nat,
                    s2: seq<real>, v: real, base: seq<real>)
    requires |sc| == 4 * |p.templates| && |s2| == 3 && |row| == 3 * nx + 4 * |p.templates|
    requires RowDone(row, p, nx, sx, sy, sz, s2, base, |p.templates|)
    requires FitDone(dv, p, sc, sx, sy, sz, s2, v, |p.templates|)
    ensures dv == Residual(v, row, sc, 3 * nx)
  {
    var fit := FitTerms(p, sc, s2, sx, sy, sz);
    assert fit[..4 * |p.templates|] == fit;
    assert fit == Fitted(row, sc, 3 * nx);
  }

  /** After the loop each gradient component has lost every template's correction. */
  lemma GradFinished(g: seq<real>, p: Problem, sc: seq<real>, sx: nat, sy: nat, sz: nat, s2: seq<real>, g0: seq<real>)
    requires |sc| == 4 * |p.templates| && |s2| == 3 && |g0| == 3
    requires GradDone(g, p, sc, sx, sy, sz, s2, g0, |p.templates|)
    ensures |g| == 3 && forall k :: 0 <= k < 3 ==> g[k] == Corrected(p, sc, s2, sx, sy, sz, g0, k)
  {
    forall k | 0 <= k < 3
      ensures g[k] == Corrected(p, sc, s2, sx, sy, sz, g0, k)
    {
      var c := Corrections(p, sc, s2, sx, sy, sz, k);
      assert c[..|p.templates|] == c;
    }
  }

  /**
   * The body of the pixel loop after trans and J are known
   * (spm_brainwarp.c:183-240): the affine map, the margins test and, for an
   * accepted voxel, the design row.  It computes exactly VoxelAt; a rejected
   * voxel leaves dvdt alone.
   */
  method DesignRow(p: Problem, sx: nat, sy: nat, sz: nat, trans: seq<real>, J: seq<real>, dvdt: array<real>)
    returns (accepted: bool, dv: real, g: seq<real>)
    requires InGrid(p, sx, sy, sz)
    requires trans == Trans(p.t, p.bs, D0(p), D1(p), D2(p), sx, sy, sz)
    requires J == Jacobian(p.t, p.bs, D0(p), D1(p), D2(p), sx, sy, sz)
    requires dvdt.Length == Width(p)
    modifies dvdt
    ensures accepted == VoxelAt(p, sx, sy, sz).Some?
    ensures accepted ==> |g| == 3 && VoxelAt(p, sx, sy, sz).value == Voxel(dvdt[..], dv, g[0], g[1], g[2])
    ensures !accepted ==> dvdt[..] == old(dvdt[..])
  {
    var s2 := Affine(p.M, trans);
    accepted := InRange(s2, p.obj, p.edgeskip);
    dv, g := 0.0, [];
    if accepted {
      dv, g := BuildVoxel(p, sx, sy, sz, s2, J, dvdt);
    }
  }

  /**
   * An accepted voxel (spm_brainwarp.c:193-240): samples the object at s2,
   * pulls its gradient back through M and J, and fills dvdt; the row, dv and
   * dvds0 make up Assemble.
   */
  method BuildVoxel(p: Problem, sx: nat, sy: nat, sz: nat, s2: seq<real>, J: seq<real>, dvdt: array<real>)
    returns (dv: real, g: seq<real>)
    requires InGrid(p, sx, sy, sz) && |s2| == 3 && |J| == 9
    requires dvdt.Length == Width(p)
    modifies dvdt
    ensures |g| == 3 && Assemble(p, sx, sy, sz, s2, J) == Voxel(dvdt[..], dv, g[0], g[1], g[2])
  {
    var nx := p.bs.nx;
    var smp := p.obj.resample(s2[0], s2[1], s2[2]);
    var g1 := Pull(p.M, [smp.gx, smp.gy, smp.gz]);
    var g0 := Push(J, g1);
    FillSpatial(dvdt, g1, p.bs, D0(p), sx);
    ghost var base := dvdt[..3 * nx];
    var sc := Intensity(p);
    dv, g := FillIntensity(p, nx, sc, sx, sy, sz, s2, smp.v, g0, dvdt);
    RowFinished(dvdt[..], p, nx, sx, sy, sz, s2, base);
    FitFinished(dvdt[..], dv, p, nx, sc, sx, sy, sz, s2, smp.v, base);
    GradFinished(g, p, sc, sx, sy, sz, s2, g0);
  }

  /** Entry j of template i's block of the intensity row. */
  lemma IntensityAt(p: Problem, sx: nat, sy: nat, sz: nat, s2: seq<real>, i: nat, j: nat)
    requires |s2| == 3 && i < |p.templates| && j < 4
    ensures 4 * i + j < 4 * |p.templates|
    ensures IntensityRow(p, s2, sx, sy, sz)[4 * i + j] == IntensityEntry(TemplateReading(p, i, sx, sy, sz).v, s2, j)
  {
    DivModUnique(4 * i + j, 4, i, j);
  }

  /** dvds1 at a template voxel: the object gradient at its deformed position pulled back through M. */
  function Pulled(p: Problem, sx: nat, sy: nat, sz: nat): (g1: seq<real>)
    requires InGrid(p, sx, sy, sz)
    ensures |g1| == 3
  {
    var s2 := Affine(p.M, Trans(p.t, p.bs, D0(p), D1(p), D2(p), sx, sy, sz));
    var smp := p.obj.resample(s2[0], s2[1], s2[2]);
    Pull(p.M, [smp.gx, smp.gy, smp.gz])
  }

  /** The design row of an accepted voxel: -dvds1 times the x basis, then the template entries. */
  lemma VoxelParts(p: Problem, sx: nat, sy: nat, sz: nat)
    requires InGrid(p, sx, sy, sz) && VoxelAt(p, sx, sy, sz).Some?
    ensures VoxelAt(p, sx, sy, sz).value.d ==
      SpatialRow(Pulled(p, sx, sy, sz), Col(p.bs.BX, D0(p), sx, p.bs.nx), p.bs.nx)
      + IntensityRow(p, Affine(p.M, Trans(p.t, p.bs, D0(p), D1(p), D2(p), sx, sy, sz)), sx, sy, sz)
  {
  }

  /** Entry (c, x) of the spatial row is -dvds1[c] times the x basis value. */
  lemma SpatialAt(g1: seq<real>, wx: seq<real>, nx: nat, c: nat, x: nat)
    requires |g1| == 3 && |wx| == nx && c < 3 && x < nx
    ensures At(nx, c, x) < 3 * nx
    ensures SpatialRow(g1, wx, nx)[At(nx, c, x)] == Times(-g1[c], wx[x])
  {
    MulMono(nx, c, x, 3);
    DivModUnique(nx * c + x, nx, c, x);
  }

  /** Narrowing the margins keeps every position that was in range. */
  lemma InRangeNarrower(s2: seq<real>, obj: Volume, e: seq<nat>, e': seq<nat>)
    requires |s2| == 3 && |e| == 3 && |e'| == 3 && forall k | 0 <= k < 3 :: e'[k] <= e[k]
    requires InRange(s2, obj, e)
    ensures InRange(s2, obj, e')
  {
  }

  /** The template part of a design row does not depend on the margins. */
  lemma IntensityRowMargins(p: Problem, e: seq<nat>, s2: seq<real>, sx: nat, sy: nat, sz: nat)
    requires |s2| == 3
    ensures IntensityRow(p.(edgeskip := e), s2, sx, sy, sz) == IntensityRow(p, s2, sx, sy, sz)
  {
    var q := p.(edgeskip := e);
    forall k | 0 <= k < 4 * |p.templates|
      ensures IntensityRow(q, s2, sx, sy, sz)[k] == IntensityRow(p, s2, sx, sy, sz)[k]
    {
      assert TemplateReading(q, k / 4, sx, sy, sz) == TemplateReading(p, k / 4, sx, sy, sz);
    }
  }

  /** The template corrections of a gradient do not depend on the margins. */
  lemma CorrectedMargins(p: Problem, e: seq<nat>, sc: seq<real>, s2: seq<real>, sx: nat, sy: nat, sz: nat,
                         g0: seq<real>, k: nat)
    requires |sc| == 4 * |p.templates| && |s2| == 3 && |g0| == 3 && k < 3
    ensures Corrected(p.(edgeskip := e), sc, s2, sx, sy, sz, g0, k) == Corrected(p, sc, s2, sx, sy, sz, g0, k)
  {
    var q := p.(edgeskip := e);
    forall i | 0 <= i < |p.templates|
      ensures Corrections(q, sc, s2, sx, sy, sz, k)[i] == Corrections(p, sc, s2, sx, sy, sz, k)[i]
    {
      assert TemplateReading(q, i, sx, sy, sz) == TemplateReading(p, i, sx, sy, sz);
    }
    assert Corrections(q, sc, s2, sx, sy, sz, k) == Corrections(p, sc, s2, sx, sy, sz, k);
  }

  /** A voxel's row, residual and gradient do not depend on the margins. */
  lemma AssembleMargins(p: Problem, e: seq<nat>, sx: nat, sy: nat, sz: nat, s2: seq<real>, J: seq<real>)
    requires InGrid(p, sx, sy, sz) && |e| == 3 && |s2| == 3 && |J| == 9
    ensures InGrid(p.(edgeskip := e), sx, sy, sz)
    ensures Assemble(p.(edgeskip := e), sx, sy, sz, s2, J) == Assemble(p, sx, sy, sz, s2, J)
  {
    var q := p.(edgeskip := e);
    var smp := p.obj.resample(s2[0], s2[1], s2[2]);
    var g1 := Pull(p.M, [smp.gx, smp.gy, smp.gz]);
    var g0 := Push(J, g1);
    var sc := Intensity(p);
    assert Intensity(q) == sc;
    IntensityRowMargins(p, e, s2, sx, sy, sz);
    assert VoxelRow(q, sx, sy, sz, s2, g1) == VoxelRow(p, sx, sy, sz, s2, g1);
    CorrectedMargins(p, e, sc, s2, sx, sy, sz, g0, 0);
    CorrectedMargins(p, e, sc, s2, sx, sy, sz, g0, 1);
    CorrectedMargins(p, e, sc, s2, sx, sy, sz, g0, 2);
  }

  /**
   * Narrowing the margins keeps every voxel that was in range, with the same
   * row, residual and gradient.
   */
  lemma VoxelAtMargins(p: Problem, e: seq<nat>, sx: nat, sy: nat, sz: nat)
    requires InGrid(p, sx, sy, sz) && |e| == 3 && forall k | 0 <= k < 3 :: e[k] <= p.edgeskip[k]
    ensures InGrid(p.(edgeskip := e), sx, sy, sz)
    ensures VoxelAt(p, sx, sy, sz).Some? ==> VoxelAt(p.(edgeskip := e), sx, sy, sz) == VoxelAt(p, sx, sy, sz)
  {
    var q := p.(edgeskip := e);
    var tr := Trans(p.t, p.bs, D0(p), D1(p), D2(p), sx, sy, sz);
    var s2 := Affine(p.M, tr);
    if InRange(s2, p.obj, p.edgeskip) {
      InRangeNarrower(s2, p.obj, p.edgeskip, e);
      AssembleMargins(p, e, sx, sy, sz, s2, Jacobian(p.t, p.bs, D0(p), D1(p), D2(p), sx, sy, sz));
    }
  }
}
