/**
 * mrqcof (spm_brainwarp.c:41-432): one pass over the sampled template voxels
 * that builds the normal equations alpha = A'A and beta = A'b of the
 * Levenberg-Marquardt step, together with the sum of squared residuals, the
 * number of voxels used and the sums of squared gradients.
 *
 * The pass is three nested scans. Each row of a plane accumulates its voxels'
 * narrow rows into alphax/betax; the row is then lifted by the y basis into
 * alphaxy/betaxy; each plane is lifted by the z basis into alpha/beta; at the
 * end the symmetriser fills the upper triangle of alpha.
 */
module Mrqcof {
  import opened Arith
  import opened Sums
  import opened Buffers
  import opened Kronecker
  import opened Symmetrise
  import opened Field
  import opened Grid
  import opened Normal
  import opened Canon
  import opened Design
  import opened Scan

  /**
   * The accumulation of one accepted voxel (spm_brainwarp.c:244-250):
   * alphax gains dvdt dvdt' on and below its diagonal, betax gains dvdt dv.
   */
  method AddOuter(alphax: array<real>, betax: array<real>, dvdt: array<real>, dv: real, m: nat)
    requires alphax != betax && alphax != dvdt && betax != dvdt
    requires alphax.Length == m * m && betax.Length == m && dvdt.Length == m
    modifies alphax, betax
    ensures forall R: nat, C: nat | R < m && C < m ::
      alphax[At(m, R, C)] ==
        if C <= R then old(alphax[At(m, R, C)]) + Times(dvdt[R], dvdt[C]) else old(alphax[At(m, R, C)])
    ensures forall R | 0 <= R < m :: betax[R] == old(betax[R]) + Times(dvdt[R], dv)
  {
    for x1 := 0 to m
      invariant forall R: nat, C: nat | R < m && C < m ::
        alphax[At(m, R, C)] ==
          if C <= R && R < x1 then old(alphax[At(m, R, C)]) + Times(dvdt[R], dvdt[C]) else old(alphax[At(m, R, C)])
      invariant forall R | 0 <= R < m :: betax[R] == if R < x1 then old(betax[R]) + Times(dvdt[R], dv) else old(betax[R])
    {
      AddOuterRow(alphax, dvdt, m, x1);
      betax[x1] := betax[x1] + Times(dvdt[x1], dv);
    }
  }

  /** The inner x2 loop: row x1 of the lower triangle gains dvdt[x1] * dvdt[x2] for x2 <= x1. */
  method AddOuterRow(alphax: array<real>, dvdt: array<real>, m: nat, x1: nat)
    requires alphax != dvdt && alphax.Length == m * m && dvdt.Length == m && x1 < m
    modifies alphax
    ensures forall R: nat, C: nat | R < m && C < m ::
      alphax[At(m, R, C)] ==
        if R == x1 && C <= x1 then old(alphax[At(m, R, C)]) + Times(dvdt[R], dvdt[C]) else old(alphax[At(m, R, C)])
  {
    for x2 := 0 to x1 + 1
      invariant forall R: nat, C: nat | R < m && C < m ::
        alphax[At(m, R, C)] ==
          if R == x1 && C < x2 then old(alphax[At(m, R, C)]) + Times(dvdt[R], dvdt[C]) else old(alphax[At(m, R, C)])
    {
      alphax[At(m, x1, x2)] := alphax[At(m, x1, x2)] + Times(dvdt[x1], dvdt[x2]);
    }
  }


  /**
   * ss, nsamp and ss_deriv once the samples S have been counted, starting
   * from ss0, n0 and ssd0: the squared residuals, the count and the squared
   * gradient components of S are added.
   */
  ghost predicate Tallied(ss: real, nsamp: nat, ssd: seq<real>, ss0: real, n0: nat, ssd0: seq<real>, S: seq<Sample>)
  {
    |ssd| == 3 && |ssd0| == 3
    && ss == ss0 + SumSq(Residuals(S)) && nsamp == n0 + |S|
    && ssd[0] == ssd0[0] + SumSq(Grads(S, 0))
    && ssd[1] == ssd0[1] + SumSq(Grads(S, 1))
    && ssd[2] == ssd0[2] + SumSq(Grads(S, 2))
  }

  lemma TalliedNothing(ss: real, nsamp: nat, ssd: seq<real>)
    requires |ssd| == 3
    ensures Tallied(ss, nsamp, ssd, ss, nsamp, ssd, [])
  {
    assert Residuals([]) == [] && Grads([], 0) == [] && Grads([], 1) == [] && Grads([], 2) == [];
  }

  lemma TalliedOne(ss: real, nsamp: nat, ssd: seq<real>, s: Sample)
    requires |ssd| == 3
    ensures Tallied(ss + Times(s.v.dv, s.v.dv), nsamp + 1,
                    [ssd[0] + Times(s.v.gx, s.v.gx), ssd[1] + Times(s.v.gy, s.v.gy), ssd[2] + Times(s.v.gz, s.v.gz)],
                    ss, nsamp, ssd, [s])
  {
    assert Residuals([s]) == [s.v.dv] && Residuals([s])[..0] == [];
    assert Grads([s], 0) == [s.v.gx] && Grads([s], 0)[..0] == [];
    assert Grads([s], 1) == [s.v.gy] && Grads([s], 1)[..0] == [];
    assert Grads([s], 2) == [s.v.gz] && Grads([s], 2)[..0] == [];
  }

  lemma TalliedAppend(ss2: real, n2: nat, ssd2: seq<real>, ss1: real, n1: nat, ssd1: seq<real>,
                      ss0: real, n0: nat, ssd0: seq<real>, A: seq<Sample>, B: seq<Sample>)
    requires Tallied(ss1, n1, ssd1, ss0, n0, ssd0, A) && Tallied(ss2, n2, ssd2, ss1, n1, ssd1, B)
    ensures Tallied(ss2, n2, ssd2, ss0, n0, ssd0, A + B)
  {
    ResidualsAppend(A, B);
    SumSqAppend(Residuals(A), Residuals(B));
    GradsAppend(A, B, 0);
    SumSqAppend(Grads(A, 0), Grads(B, 0));
    GradsAppend(A, B, 1);
    SumSqAppend(Grads(A, 1), Grads(B, 1));
    GradsAppend(A, B, 2);
    SumSqAppend(Grads(A, 2), Grads(B, 2));
  }

  lemma LowerGramNothing(a: seq<real>, m: nat)
    requires |a| == m * m
    requires forall R: nat, C: nat | R < m && C < m :: C <= R ==> a[At(m, R, C)] == 0.0
    ensures LowerGram(a, m, [])
  {
  }

  lemma VecCrossNothing(e: seq<real>, m: nat)
    requires |e| == m && forall R | 0 <= R < m :: e[R] == 0.0
    ensures VecCross(e, m, [], [])
  {
  }

  /** Accumulating the outer product of one more kept voxel extends the normal equations by its row. */
  lemma Accumulate(p: Problem, S0: seq<Sample>, s: Sample, a1: seq<real>, a0: seq<real>, b1: seq<real>, b0: seq<real>)
    requires AllKept(p, S0) && Kept(p, s)
    requires |a1| == |a0| == Width(p) * Width(p) && |b1| == |b0| == Width(p)
    requires LowerGram(a0, Width(p), NarrowRows(p, S0))
    requires VecCross(b0, Width(p), NarrowRows(p, S0), Residuals(S0))
    requires forall R: nat, C: nat | C <= R < Width(p) :: a1[At(Width(p), R, C)] == a0[At(Width(p), R, C)] + Times(s.v.d[R], s.v.d[C])
    requires forall R | 0 <= R < Width(p) :: b1[R] == b0[R] + Times(s.v.d[R], s.v.dv)
    ensures AllKept(p, S0 + [s])
    ensures LowerGram(a1, Width(p), NarrowRows(p, S0 + [s]))
    ensures VecCross(b1, Width(p), NarrowRows(p, S0 + [s]), Residuals(S0 + [s]))
  {
    OuterStep(a1, a0, Width(p), NarrowRows(p, S0), s.v.d);
    CrossStep(b1, b0, Width(p), NarrowRows(p, S0), Residuals(S0), s.v.d, s.v.dv);
    NarrowAppend(p, S0, [s]);
    ResidualsAppend(S0, [s]);
  }

  /**
   * An accepted voxel whose row is in dvdt (spm_brainwarp.c:193-256): its
   * outer product is accumulated and it is counted.
   */
  method Accept(p: Problem, sx: nat, sy: nat, sz: nat, alphax: array<real>, betax: array<real>, dvdt: array<real>,
                dv: real, g: seq<real>, ss0: real, n0: nat, ssd0: seq<real>, ghost S0: seq<Sample>)
    returns (ss: real, nsamp: nat, ssd: seq<real>)
    requires InGrid(p, sx, sy, sz) && |ssd0| == 3 && |g| == 3
    requires alphax != betax && alphax != dvdt && betax != dvdt
    requires alphax.Length == Width(p) * Width(p) && betax.Length == Width(p) && dvdt.Length == Width(p)
    requires AllKept(p, S0)
    requires LowerGram(alphax[..], Width(p), NarrowRows(p, S0))
    requires VecCross(betax[..], Width(p), NarrowRows(p, S0), Residuals(S0))
    modifies alphax, betax
    ensures AllKept(p, S0 + [Sample(sx, sy, sz, Voxel(dvdt[..], dv, g[0], g[1], g[2]))])
    ensures LowerGram(alphax[..], Width(p), NarrowRows(p, S0 + [Sample(sx, sy, sz, Voxel(dvdt[..], dv, g[0], g[1], g[2]))]))
    ensures VecCross(betax[..], Width(p), NarrowRows(p, S0 + [Sample(sx, sy, sz, Voxel(dvdt[..], dv, g[0], g[1], g[2]))]),
                     Residuals(S0 + [Sample(sx, sy, sz, Voxel(dvdt[..], dv, g[0], g[1], g[2]))]))
    ensures Tallied(ss, nsamp, ssd, ss0, n0, ssd0, [Sample(sx, sy, sz, Voxel(dvdt[..], dv, g[0], g[1], g[2]))])
  {
    ghost var s := Sample(sx, sy, sz, Voxel(dvdt[..], dv, g[0], g[1], g[2]));
    ghost var a0, b0 := alphax[..], betax[..];
    AddOuter(alphax, betax, dvdt, dv, Width(p));
    Accumulate(p, S0, s, alphax[..], a0, betax[..], b0);
    ss, nsamp, ssd := ss0 + Times(dv, dv), n0 + 1,
      [ssd0[0] + Times(g[0], g[0]), ssd0[1] + Times(g[1], g[1]), ssd0[2] + Times(g[2], g[2])];
    TalliedOne(ss0, n0, ssd0, s);
  }

  /**
   * One pixel of a row (spm_brainwarp.c:164-257): the deformation and its
   * Jacobian are completed from Ty and Jy, the voxel's row is built and, if
   * it is in range, accumulated and counted.
   */
  method VisitVoxel(p: Problem, sx: nat, sy: nat, sz: nat, ty: seq<real>, jy: seq<real>,
                    alphax: array<real>, betax: array<real>, dvdt: array<real>,
                    ss0: real, n0: nat, ssd0: seq<real>, ghost S0: seq<Sample>)
    returns (ss: real, nsamp: nat, ssd: seq<real>)
    requires InGrid(p, sx, sy, sz) && |ssd0| == 3
    requires alphax != betax && alphax != dvdt && betax != dvdt
    requires alphax.Length == Width(p) * Width(p) && betax.Length == Width(p) && dvdt.Length == Width(p)
    requires |ty| == 3 * p.bs.nx && |jy| == 9 * p.bs.nx
    requires RowReady(ty, jy, p.t, p.bs, D1(p), D2(p), sy, sz)
    requires AllKept(p, S0)
    requires LowerGram(alphax[..], Width(p), NarrowRows(p, S0))
    requires VecCross(betax[..], Width(p), NarrowRows(p, S0), Residuals(S0))
    modifies alphax, betax, dvdt
    ensures AllKept(p, S0 + Visit(p, sx, sy, sz))
    ensures LowerGram(alphax[..], Width(p), NarrowRows(p, S0 + Visit(p, sx, sy, sz)))
    ensures VecCross(betax[..], Width(p), NarrowRows(p, S0 + Visit(p, sx, sy, sz)), Residuals(S0 + Visit(p, sx, sy, sz)))
    ensures Tallied(ss, nsamp, ssd, ss0, n0, ssd0, Visit(p, sx, sy, sz))
  {
    var trans, J := PointField(p.t, p.bs, D0(p), D1(p), D2(p), sx, sy, sz, ty, jy);
    var accepted, dv, g := DesignRow(p, sx, sy, sz, trans, J, dvdt);
    if accepted {
      VisitAccepted(p, sx, sy, sz, Voxel(dvdt[..], dv, g[0], g[1], g[2]));
      ss, nsamp, ssd := Accept(p, sx, sy, sz, alphax, betax, dvdt, dv, g, ss0, n0, ssd0, S0);
    } else {
      VisitRejected(p, sx, sy, sz);
      assert S0 + [] == S0;
      ss, nsamp, ssd := ss0, n0, ssd0;
      TalliedNothing(ss0, n0, ssd0);
    }
  }

  /**
   * The state of a row scan that has visited the pixels xs: alphax and betax
   * hold the normal equations of the row's kept voxels so far, and the
   * running sums have counted them.
   */
  ghost predicate RowState(p: Problem, sy: nat, sz: nat, xs: seq<nat>, a: seq<real>, b: seq<real>,
                           ss: real, nsamp: nat, ssd: seq<real>, ss0: real, n0: nat, ssd0: seq<real>)
    requires Valid(p) && sy < D1(p) && sz < D2(p) && Below(xs, D0(p))
  {
    |a| == Width(p) * Width(p) && |b| == Width(p)
    && LowerGram(a, Width(p), NarrowRows(p, RowSamples(p, sy, sz, xs)))
    && VecCross(b, Width(p), NarrowRows(p, RowSamples(p, sy, sz, xs)), Residuals(RowSamples(p, sy, sz, xs)))
    && Tallied(ss, nsamp, ssd, ss0, n0, ssd0, RowSamples(p, sy, sz, xs))
  }

  lemma RowStateStep(p: Problem, sy: nat, sz: nat, xs: seq<nat>, sx: nat, xs': seq<nat>, a: seq<real>, b: seq<real>,
                     ss1: real, n1: nat, ssd1: seq<real>, ss: real, nsamp: nat, ssd: seq<real>,
                     ss0: real, n0: nat, ssd0: seq<real>)
    requires Valid(p) && sy < D1(p) && sz < D2(p) && Below(xs, D0(p)) && sx < D0(p) && xs' == xs + [sx]
    requires |a| == Width(p) * Width(p) && |b| == Width(p)
    requires Tallied(ss, nsamp, ssd, ss0, n0, ssd0, RowSamples(p, sy, sz, xs))
    requires Tallied(ss1, n1, ssd1, ss, nsamp, ssd, Visit(p, sx, sy, sz))
    requires AllKept(p, RowSamples(p, sy, sz, xs) + Visit(p, sx, sy, sz))
    requires LowerGram(a, Width(p), NarrowRows(p, RowSamples(p, sy, sz, xs) + Visit(p, sx, sy, sz)))
    requires VecCross(b, Width(p), NarrowRows(p, RowSamples(p, sy, sz, xs) + Visit(p, sx, sy, sz)),
                      Residuals(RowSamples(p, sy, sz, xs) + Visit(p, sx, sy, sz)))
    ensures Below(xs', D0(p))
    ensures RowState(p, sy, sz, xs', a, b, ss1, n1, ssd1, ss0, n0, ssd0)
  {
    RowSnoc(p, sy, sz, xs, sx);
    TalliedAppend(ss1, n1, ssd1, ss, nsamp, ssd, ss0, n0, ssd0, RowSamples(p, sy, sz, xs), Visit(p, sx, sy, sz));
  }

  /**
   * Visiting the grid pixel sx of the row extends the state of the scan over
   * the pixels before sx to the state over the pixels up to sx.
   */
  lemma RowAdvance(p: Problem, sy: nat, sz: nat, sx: nat, next: nat, a: seq<real>, b: seq<real>,
                   ss1: real, n1: nat, ssd1: seq<real>, ss: real, nsamp: nat, ssd: seq<real>,
                   ss0: real, n0: nat, ssd0: seq<real>)
    requires Valid(p) && sy < D1(p) && sz < D2(p) && sx < D0(p) && OnStride(1, p.samp[0], sx)
    requires next == sx + p.samp[0] && Below(GridFrom(1, p.samp[0], sx), D0(p))
    requires |a| == Width(p) * Width(p) && |b| == Width(p)
    requires Tallied(ss, nsamp, ssd, ss0, n0, ssd0, RowSamples(p, sy, sz, GridFrom(1, p.samp[0], sx)))
    requires Tallied(ss1, n1, ssd1, ss, nsamp, ssd, Visit(p, sx, sy, sz))
    requires AllKept(p, RowSamples(p, sy, sz, GridFrom(1, p.samp[0], sx)) + Visit(p, sx, sy, sz))
    requires LowerGram(a, Width(p), NarrowRows(p, RowSamples(p, sy, sz, GridFrom(1, p.samp[0], sx)) + Visit(p, sx, sy, sz)))
    requires VecCross(b, Width(p), NarrowRows(p, RowSamples(p, sy, sz, GridFrom(1, p.samp[0], sx)) + Visit(p, sx, sy, sz)),
                      Residuals(RowSamples(p, sy, sz, GridFrom(1, p.samp[0], sx)) + Visit(p, sx, sy, sz)))
    ensures OnStride(1, p.samp[0], next) && Below(GridFrom(1, p.samp[0], next), D0(p))
    ensures RowState(p, sy, sz, GridFrom(1, p.samp[0], next), a, b, ss1, n1, ssd1, ss0, n0, ssd0)
  {
    GridStep(1, p.samp[0], sx, next);
    RowStateStep(p, sy, sz, GridFrom(1, p.samp[0], sx), sx, GridFrom(1, p.samp[0], next),
                 a, b, ss1, n1, ssd1, ss, nsamp, ssd, ss0, n0, ssd0);
  }

  /** One step of the row scan: the pixel sx is visited and the scan moves on by the x stride. */
  method RowVisit(p: Problem, sx: nat, sy: nat, sz: nat, ty: seq<real>, jy: seq<real>,
                  alphax: array<real>, betax: array<real>, dvdt: array<real>,
                  ss: real, nsamp: nat, ssd: seq<real>,
                  ghost ss0: real, ghost n0: nat, ghost ssd0: seq<real>)
    returns (ss1: real, n1: nat, ssd1: seq<real>, next: nat)
    requires Valid(p) && sy < D1(p) && sz < D2(p) && sx < D0(p) && OnStride(1, p.samp[0], sx)
    requires alphax != betax && alphax != dvdt && betax != dvdt
    requires alphax.Length == Width(p) * Width(p) && betax.Length == Width(p) && dvdt.Length == Width(p)
    requires |ty| == 3 * p.bs.nx && |jy| == 9 * p.bs.nx
    requires RowReady(ty, jy, p.t, p.bs, D1(p), D2(p), sy, sz)
    requires Below(GridFrom(1, p.samp[0], sx), D0(p))
    requires RowState(p, sy, sz, GridFrom(1, p.samp[0], sx), alphax[..], betax[..], ss, nsamp, ssd, ss0, n0, ssd0)
    modifies alphax, betax, dvdt
    ensures next == sx + p.samp[0] && OnStride(1, p.samp[0], next)
    ensures Below(GridFrom(1, p.samp[0], next), D0(p))
    ensures RowState(p, sy, sz, GridFrom(1, p.samp[0], next), alphax[..], betax[..], ss1, n1, ssd1, ss0, n0, ssd0)
  {
    ghost var xs := GridFrom(1, p.samp[0], sx);
    ss1, n1, ssd1 := VisitVoxel(p, sx, sy, sz, ty, jy, alphax, betax, dvdt, ss, nsamp, ssd, RowSamples(p, sy, sz, xs));
    next := sx + p.samp[0];
    RowAdvance(p, sy, sz, sx, next, alphax[..], betax[..], ss1, n1, ssd1, ss, nsamp, ssd, ss0, n0, ssd0);
  }

  /**
   * One row of a plane (spm_brainwarp.c:150-258): alphax and betax are
   * zeroed and every sampled pixel of the row is visited; afterwards they
   * hold the normal equations of the row's kept voxels.
   */
  method ProcessRow(p: Problem, sy: nat, sz: nat, ty: seq<real>, jy: seq<real>,
                    alphax: array<real>, betax: array<real>, dvdt: array<real>,
                    ss0: real, n0: nat, ssd0: seq<real>)
    returns (ss: real, nsamp: nat, ssd: seq<real>)
    requires Valid(p) && sy < D1(p) && sz < D2(p) && |ssd0| == 3
    requires alphax != betax && alphax != dvdt && betax != dvdt
    requires alphax.Length == Width(p) * Width(p) && betax.Length == Width(p) && dvdt.Length == Width(p)
    requires |ty| == 3 * p.bs.nx && |jy| == 9 * p.bs.nx
    requires RowReady(ty, jy, p.t, p.bs, D1(p), D2(p), sy, sz)
    modifies alphax, betax, dvdt
    ensures RowState(p, sy, sz, Xs(p), alphax[..], betax[..], ss, nsamp, ssd, ss0, n0, ssd0)
  {
    ZeroLower(alphax, betax, Width(p));
    LowerGramNothing(alphax[..], Width(p));
    VecCrossNothing(betax[..], Width(p));
    TalliedNothing(ss0, n0, ssd0);
    ss, nsamp, ssd := ss0, n0, ssd0;
    var sx: nat := 1;
    GridUnfold(1, p.samp[0], 1);
    while sx < D0(p)
      invariant OnStride(1, p.samp[0], sx) && (sx == 1 || sx < D0(p) + p.samp[0])
      invariant Below(GridFrom(1, p.samp[0], sx), D0(p))
      invariant RowState(p, sy, sz, GridFrom(1, p.samp[0], sx), alphax[..], betax[..], ss, nsamp, ssd, ss0, n0, ssd0)
      decreases D0(p) - sx
    {
      ss, nsamp, ssd, sx := RowVisit(p, sx, sy, sz, ty, jy, alphax, betax, dvdt, ss, nsamp, ssd, ss0, n0, ssd0);
    }
    GridClose(1, p.samp[0], D0(p), sx);
  }

  // ---------------------------------------------------------------------
  // The y scan of one plane.
  // ---------------------------------------------------------------------

  lemma PatternGramNothing(a: seq<real>, m: nat, b: nat, n: nat, q: nat)
    requires m == 3 * b * n + q && |a| == m * m
    requires forall R: nat, C: nat | R < m && C < m :: C <= R ==> a[At(m, R, C)] == 0.0
    ensures PatternGram(a, b, n, q, [])
  {
  }

  /**
   * The state of a plane scan that has visited the rows ys: alphaxy and
   * betaxy hold the normal equations of the plane's kept voxels so far, in
   * their y-lifted rows and on the pattern the y-lift writes, and the
   * running sums have counted them.
   */
  ghost predicate PlaneState(p: Problem, sz: nat, ys: seq<nat>, a: seq<real>, b: seq<real>,
                             ss: real, nsamp: nat, ssd: seq<real>, ss0: real, n0: nat, ssd0: seq<real>)
    requires Valid(p) && sz < D2(p) && Below(ys, D1(p))
  {
    |a| == (3 * p.bs.nx * p.bs.ny + Q(p)) * (3 * p.bs.nx * p.bs.ny + Q(p)) && |b| == 3 * p.bs.nx * p.bs.ny + Q(p)
    && PatternGram(a, p.bs.nx, p.bs.ny, Q(p), PlaneRows(p, PlaneSamples(p, sz, ys)))
    && VecCross(b, 3 * p.bs.nx * p.bs.ny + Q(p), PlaneRows(p, PlaneSamples(p, sz, ys)), Residuals(PlaneSamples(p, sz, ys)))
    && Tallied(ss, nsamp, ssd, ss0, n0, ssd0, PlaneSamples(p, sz, ys))
  }

  /**
   * alphaxy is a0 with the row buffer ax lifted into it by the y basis
   * values of row sy (the sizes are part of the statement).
   */
  ghost predicate RowLifted(p: Problem, sy: nat, a1: seq<real>, a0: seq<real>, ax: seq<real>)
    requires Valid(p) && sy < D1(p)
  {
    |a1| == |a0| == (3 * p.bs.nx * p.bs.ny + Q(p)) * (3 * p.bs.nx * p.bs.ny + Q(p))
    && |ax| == (3 * p.bs.nx + Q(p)) * (3 * p.bs.nx + Q(p))
    && Lifted(a1, a0, ax, Wy(p, sy), p.bs.nx, p.bs.ny, Q(p))
  }

  /** The y-lift of a row's normal equations appends the row's kept voxels to the plane's. */
  lemma PlaneGramStep(p: Problem, sy: nat, PS: seq<Sample>, RS: seq<Sample>, a1: seq<real>, a0: seq<real>, ax: seq<real>)
    requires Valid(p) && sy < D1(p) && AllKept(p, PS) && AllKept(p, RS)
    requires forall k :: 0 <= k < |RS| ==> RS[k].y == sy
    requires |a1| == |a0| == (3 * p.bs.nx * p.bs.ny + Q(p)) * (3 * p.bs.nx * p.bs.ny + Q(p))
    requires |ax| == Width(p) * Width(p)
    requires PatternGram(a0, p.bs.nx, p.bs.ny, Q(p), PlaneRows(p, PS))
    requires LowerGram(ax, Width(p), NarrowRows(p, RS))
    requires Lifted(a1, a0, ax, Wy(p, sy), p.bs.nx, p.bs.ny, Q(p))
    ensures AllKept(p, PS + RS)
    ensures PatternGram(a1, p.bs.nx, p.bs.ny, Q(p), PlaneRows(p, PS + RS))
  {
    YLiftStep(a1, a0, ax, Wy(p, sy), p.bs.nx, p.bs.ny, Q(p), PlaneRows(p, PS), NarrowRows(p, RS));
    RowLift(p, RS, sy);
    PlaneAppend(p, PS, RS);
  }

  /** The y-lift of a row's right-hand side appends the row's kept voxels to the plane's. */
  lemma PlaneCrossStep(p: Problem, sy: nat, PS: seq<Sample>, RS: seq<Sample>, b1: seq<real>, b0: seq<real>, bx: seq<real>)
    requires Valid(p) && sy < D1(p) && AllKept(p, PS) && AllKept(p, RS)
    requires forall k :: 0 <= k < |RS| ==> RS[k].y == sy
    requires |b1| == |b0| == 3 * p.bs.nx * p.bs.ny + Q(p) && |bx| == Width(p)
    requires VecCross(b0, 3 * p.bs.nx * p.bs.ny + Q(p), PlaneRows(p, PS), Residuals(PS))
    requires VecCross(bx, Width(p), NarrowRows(p, RS), Residuals(RS))
    requires LiftedBeta(b1, b0, bx, Wy(p, sy), p.bs.nx, p.bs.ny, Q(p))
    ensures AllKept(p, PS + RS)
    ensures VecCross(b1, 3 * p.bs.nx * p.bs.ny + Q(p), PlaneRows(p, PS + RS), Residuals(PS + RS))
  {
    BetaLiftStep(b1, b0, bx, Wy(p, sy), p.bs.nx, p.bs.ny, Q(p), PlaneRows(p, PS), Residuals(PS), NarrowRows(p, RS), Residuals(RS));
    RowLift(p, RS, sy);
    PlaneAppend(p, PS, RS);
    ResidualsAppend(PS, RS);
  }

  /**
   * Lifting the finished row sy by its y basis values extends the state of
   * the plane scan over the rows ys to the rows ys + [sy].
   */
  lemma PlaneStateStep(p: Problem, sz: nat, ys: seq<nat>, sy: nat, ys': seq<nat>,
                       a1: seq<real>, a0: seq<real>, b1: seq<real>, b0: seq<real>, ax: seq<real>, bx: seq<real>,
                       ss2: real, n2: nat, ssd2: seq<real>, ss1: real, n1: nat, ssd1: seq<real>,
                       ss0: real, n0: nat, ssd0: seq<real>)
    requires Valid(p) && sz < D2(p) && Below(ys, D1(p)) && sy < D1(p) && ys' == ys + [sy]
    requires PlaneState(p, sz, ys, a0, b0, ss1, n1, ssd1, ss0, n0, ssd0)
    requires RowState(p, sy, sz, Xs(p), ax, bx, ss2, n2, ssd2, ss1, n1, ssd1)
    requires |b1| == |b0| && RowLifted(p, sy, a1, a0, ax)
    requires LiftedBeta(b1, b0, bx, Wy(p, sy), p.bs.nx, p.bs.ny, Q(p))
    ensures Below(ys', D1(p))
    ensures PlaneState(p, sz, ys', a1, b1, ss2, n2, ssd2, ss0, n0, ssd0)
  {
    var PS, RS := PlaneSamples(p, sz, ys), RowSamples(p, sy, sz, Xs(p));
    PlaneGramStep(p, sy, PS, RS, a1, a0, ax);
    PlaneCrossStep(p, sy, PS, RS, b1, b0, bx);
    PlaneSnoc(p, sz, ys, sy);
    TalliedAppend(ss2, n2, ssd2, ss1, n1, ssd1, ss0, n0, ssd0, PS, RS);
  }

  /** PlaneStateStep at the grid row sy, whose successor on the y stride is next. */
  lemma PlaneAdvance(p: Problem, sz: nat, sy: nat, next: nat,
                     a1: seq<real>, a0: seq<real>, b1: seq<real>, b0: seq<real>, ax: seq<real>, bx: seq<real>,
                     ss2: real, n2: nat, ssd2: seq<real>, ss1: real, n1: nat, ssd1: seq<real>,
                     ss0: real, n0: nat, ssd0: seq<real>)
    requires Valid(p) && sz < D2(p) && sy < D1(p) && OnStride(1, p.samp[1], sy)
    requires next == sy + p.samp[1] && Below(GridFrom(1, p.samp[1], sy), D1(p))
    requires PlaneState(p, sz, GridFrom(1, p.samp[1], sy), a0, b0, ss1, n1, ssd1, ss0, n0, ssd0)
    requires RowState(p, sy, sz, Xs(p), ax, bx, ss2, n2, ssd2, ss1, n1, ssd1)
    requires |b1| == |b0| && RowLifted(p, sy, a1, a0, ax)
    requires LiftedBeta(b1, b0, bx, Wy(p, sy), p.bs.nx, p.bs.ny, Q(p))
    ensures OnStride(1, p.samp[1], next) && Below(GridFrom(1, p.samp[1], next), D1(p))
    ensures PlaneState(p, sz, GridFrom(1, p.samp[1], next), a1, b1, ss2, n2, ssd2, ss0, n0, ssd0)
  {
    GridStep(1, p.samp[1], sy, next);
    PlaneStateStep(p, sz, GridFrom(1, p.samp[1], sy), sy, GridFrom(1, p.samp[1], next),
                   a1, a0, b1, b0, ax, bx, ss2, n2, ssd2, ss1, n1, ssd1, ss0, n0, ssd0);
  }

  /**
   * One row of a plane (spm_brainwarp.c:126-314): its y contractions, its
   * pixels, and the y-lift of its normal equations into alphaxy/betaxy.
   */
  method PlaneVisit(p: Problem, sy: nat, sz: nat, tz: seq<real>, jz: seq<real>, ty: array<real>, jy: array<real>,
                    alphaxy: array<real>, betaxy: array<real>, alphax: array<real>, betax: array<real>, dvdt: array<real>,
                    ss: real, nsamp: nat, ssd: seq<real>,
                    ghost ss0: real, ghost n0: nat, ghost ssd0: seq<real>)
    returns (ss1: real, n1: nat, ssd1: seq<real>, next: nat)
    requires Valid(p) && sy < D1(p) && sz < D2(p) && OnStride(1, p.samp[1], sy)
    requires |tz| == 3 * (p.bs.nx * p.bs.ny) && |jz| == 9 * (p.bs.nx * p.bs.ny)
    requires PlaneReady(tz, jz, p.t, p.bs, D2(p), sz)
    requires ty != jy && ty.Length == 3 * p.bs.nx && jy.Length == 9 * p.bs.nx
    requires alphax != betax && alphax != dvdt && betax != dvdt && alphaxy != betaxy
    requires alphax.Length == Width(p) * Width(p) && betax.Length == Width(p) && dvdt.Length == Width(p)
    requires alphaxy.Length == (3 * p.bs.nx * p.bs.ny + Q(p)) * (3 * p.bs.nx * p.bs.ny + Q(p))
    requires betaxy.Length == 3 * p.bs.nx * p.bs.ny + Q(p)
    requires {alphaxy, betaxy} !! {ty, jy, alphax, betax, dvdt} && {ty, jy} !! {alphax, betax, dvdt}
    requires Below(GridFrom(1, p.samp[1], sy), D1(p))
    requires PlaneState(p, sz, GridFrom(1, p.samp[1], sy), alphaxy[..], betaxy[..], ss, nsamp, ssd, ss0, n0, ssd0)
    modifies ty, jy, alphaxy, betaxy, alphax, betax, dvdt
    ensures next == sy + p.samp[1] && OnStride(1, p.samp[1], next)
    ensures Below(GridFrom(1, p.samp[1], next), D1(p))
    ensures PlaneState(p, sz, GridFrom(1, p.samp[1], next), alphaxy[..], betaxy[..], ss1, n1, ssd1, ss0, n0, ssd0)
  {
    ghost var a0, b0 := alphaxy[..], betaxy[..];
    RowContract(p.t, p.bs, D1(p), D2(p), sy, sz, tz, jz, ty, jy);
    ss1, n1, ssd1 := ProcessRow(p, sy, sz, ty[..], jy[..], alphax, betax, dvdt, ss, nsamp, ssd);
    Lift(alphaxy, betaxy, alphax, betax, p.bs.nx, p.bs.ny, Q(p), Wy(p, sy));
    next := sy + p.samp[1];
    PlaneAdvance(p, sz, sy, next, alphaxy[..], a0, betaxy[..], b0, alphax[..], betax[..],
                 ss1, n1, ssd1, ss, nsamp, ssd, ss0, n0, ssd0);
  }

  /**
   * One plane of the volume (spm_brainwarp.c:117-314): alphaxy and betaxy
   * are zeroed and every sampled row of the plane is visited; afterwards
   * they hold the normal equations of the plane's kept voxels.
   */
  method ProcessPlane(p: Problem, sz: nat, tz: seq<real>, jz: seq<real>, ty: array<real>, jy: array<real>,
                      alphaxy: array<real>, betaxy: array<real>, alphax: array<real>, betax: array<real>, dvdt: array<real>,
                      ss0: real, n0: nat, ssd0: seq<real>)
    returns (ss: real, nsamp: nat, ssd: seq<real>)
    requires Valid(p) && sz < D2(p) && |ssd0| == 3
    requires |tz| == 3 * (p.bs.nx * p.bs.ny) && |jz| == 9 * (p.bs.nx * p.bs.ny)
    requires PlaneReady(tz, jz, p.t, p.bs, D2(p), sz)
    requires ty != jy && ty.Length == 3 * p.bs.nx && jy.Length == 9 * p.bs.nx
    requires alphax != betax && alphax != dvdt && betax != dvdt && alphaxy != betaxy
    requires alphax.Length == Width(p) * Width(p) && betax.Length == Width(p) && dvdt.Length == Width(p)
    requires alphaxy.Length == (3 * p.bs.nx * p.bs.ny + Q(p)) * (3 * p.bs.nx * p.bs.ny + Q(p))
    requires betaxy.Length == 3 * p.bs.nx * p.bs.ny + Q(p)
    requires {alphaxy, betaxy} !! {ty, jy, alphax, betax, dvdt} && {ty, jy} !! {alphax, betax, dvdt}
    modifies ty, jy, alphaxy, betaxy, alphax, betax, dvdt
    ensures PlaneState(p, sz, Ys(p), alphaxy[..], betaxy[..], ss, nsamp, ssd, ss0, n0, ssd0)
  {
    ZeroLower(alphaxy, betaxy, 3 * p.bs.nx * p.bs.ny + Q(p));
    PatternGramNothing(alphaxy[..], 3 * p.bs.nx * p.bs.ny + Q(p), p.bs.nx, p.bs.ny, Q(p));
    VecCrossNothing(betaxy[..], 3 * p.bs.nx * p.bs.ny + Q(p));
    TalliedNothing(ss0, n0, ssd0);
    ss, nsamp, ssd := ss0, n0, ssd0;
    var sy: nat := 1;
    GridUnfold(1, p.samp[1], 1);
    while sy < D1(p)
      invariant OnStride(1, p.samp[1], sy) && (sy == 1 || sy < D1(p) + p.samp[1])
      invariant Below(GridFrom(1, p.samp[1], sy), D1(p))
      invariant PlaneState(p, sz, GridFrom(1, p.samp[1], sy), alphaxy[..], betaxy[..], ss, nsamp, ssd, ss0, n0, ssd0)
      decreases D1(p) - sy
    {
      ss, nsamp, ssd, sy := PlaneVisit(p, sy, sz, tz, jz, ty, jy, alphaxy, betaxy, alphax, betax, dvdt,
                                       ss, nsamp, ssd, ss0, n0, ssd0);
    }
    GridClose(1, p.samp[1], D1(p), sy);
  }

  // ---------------------------------------------------------------------
  // The z scan of the volume.
  // ---------------------------------------------------------------------

  /**
   * The state of the volume scan that has visited the planes zs: alpha and
   * beta hold the normal equations of the kept voxels so far, in their full
   * rows and on the entries the two lifts write, and the running sums,
   * started from zero, have counted them.
   */
  ghost predicate VolumeState(p: Problem, zs: seq<nat>, a: seq<real>, b: seq<real>, ss: real, nsamp: nat, ssd: seq<real>)
    requires Valid(p) && Below(zs, D2(p))
  {
    |a| == (3 * (p.bs.nx * p.bs.ny) * p.bs.nz + Q(p)) * (3 * (p.bs.nx * p.bs.ny) * p.bs.nz + Q(p))
    && |b| == 3 * (p.bs.nx * p.bs.ny) * p.bs.nz + Q(p)
    && AccumulatedGram(a, p.bs.nx, p.bs.ny, p.bs.nz, Q(p), FullRows(p, Samples(p, zs)))
    && VecCross(b, Params(p), FullRows(p, Samples(p, zs)), Residuals(Samples(p, zs)))
    && Tallied(ss, nsamp, ssd, 0.0, 0, [0.0, 0.0, 0.0], Samples(p, zs))
  }

  /**
   * alpha and beta are a0 and b0 with the plane buffers axy and bxy lifted
   * into them by the z basis values of plane sz (the sizes are part of the
   * statement).
   */
  ghost predicate PlaneLifted(p: Problem, sz: nat, a1: seq<real>, a0: seq<real>, axy: seq<real>,
                              b1: seq<real>, b0: seq<real>, bxy: seq<real>)
    requires Valid(p) && sz < D2(p)
  {
    |a1| == |a0| == (3 * (p.bs.nx * p.bs.ny) * p.bs.nz + Q(p)) * (3 * (p.bs.nx * p.bs.ny) * p.bs.nz + Q(p))
    && |axy| == (3 * (p.bs.nx * p.bs.ny) + Q(p)) * (3 * (p.bs.nx * p.bs.ny) + Q(p))
    && |b1| == |b0| == 3 * (p.bs.nx * p.bs.ny) * p.bs.nz + Q(p) && |bxy| == 3 * (p.bs.nx * p.bs.ny) + Q(p)
    && Lifted(a1, a0, axy, Wz(p, sz), p.bs.nx * p.bs.ny, p.bs.nz, Q(p))
    && LiftedBeta(b1, b0, bxy, Wz(p, sz), p.bs.nx * p.bs.ny, p.bs.nz, Q(p))
  }

  /** The z-lift of a plane's normal equations appends the plane's kept voxels to the volume's. */
  lemma VolumeGramStep(p: Problem, sz: nat, FS: seq<Sample>, PS: seq<Sample>, a1: seq<real>, a0: seq<real>, axy: seq<real>)
    requires Valid(p) && sz < D2(p) && AllKept(p, FS) && AllKept(p, PS)
    requires forall k :: 0 <= k < |PS| ==> PS[k].z == sz
    requires |a1| == |a0| == (3 * (p.bs.nx * p.bs.ny) * p.bs.nz + Q(p)) * (3 * (p.bs.nx * p.bs.ny) * p.bs.nz + Q(p))
    requires |axy| == (3 * p.bs.nx * p.bs.ny + Q(p)) * (3 * p.bs.nx * p.bs.ny + Q(p))
    requires 3 * (p.bs.nx * p.bs.ny) + Q(p) == 3 * p.bs.nx * p.bs.ny + Q(p)
    requires AccumulatedGram(a0, p.bs.nx, p.bs.ny, p.bs.nz, Q(p), FullRows(p, FS))
    requires PatternGram(axy, p.bs.nx, p.bs.ny, Q(p), PlaneRows(p, PS))
    requires Lifted(a1, a0, axy, Wz(p, sz), p.bs.nx * p.bs.ny, p.bs.nz, Q(p))
    ensures AllKept(p, FS + PS)
    ensures AccumulatedGram(a1, p.bs.nx, p.bs.ny, p.bs.nz, Q(p), FullRows(p, FS + PS))
  {
    ZLiftStep(a1, a0, axy, Wz(p, sz), p.bs.nx, p.bs.ny, p.bs.nz, Q(p), FullRows(p, FS), PlaneRows(p, PS));
    PlaneLift(p, PS, sz);
    FullAppend(p, FS, PS);
  }

  /** The z-lift of a plane's right-hand side appends the plane's kept voxels to the volume's. */
  lemma VolumeCrossStep(p: Problem, sz: nat, FS: seq<Sample>, PS: seq<Sample>, b1: seq<real>, b0: seq<real>, bxy: seq<real>)
    requires Valid(p) && sz < D2(p) && AllKept(p, FS) && AllKept(p, PS)
    requires forall k :: 0 <= k < |PS| ==> PS[k].z == sz
    requires |b1| == |b0| == 3 * (p.bs.nx * p.bs.ny) * p.bs.nz + Q(p) && |bxy| == 3 * p.bs.nx * p.bs.ny + Q(p)
    requires 3 * (p.bs.nx * p.bs.ny) + Q(p) == 3 * p.bs.nx * p.bs.ny + Q(p)
    requires VecCross(b0, Params(p), FullRows(p, FS), Residuals(FS))
    requires VecCross(bxy, 3 * p.bs.nx * p.bs.ny + Q(p), PlaneRows(p, PS), Residuals(PS))
    requires LiftedBeta(b1, b0, bxy, Wz(p, sz), p.bs.nx * p.bs.ny, p.bs.nz, Q(p))
    ensures AllKept(p, FS + PS)
    ensures VecCross(b1, Params(p), FullRows(p, FS + PS), Residuals(FS + PS))
  {
    BetaLiftStep(b1, b0, bxy, Wz(p, sz), p.bs.nx * p.bs.ny, p.bs.nz, Q(p),
                 FullRows(p, FS), Residuals(FS), PlaneRows(p, PS), Residuals(PS));
    PlaneLift(p, PS, sz);
    FullAppend(p, FS, PS);
    ResidualsAppend(FS, PS);
  }

  /**
   * Lifting the finished plane sz by its z basis values extends the state of
   * the volume scan over the planes zs to the planes zs + [sz].
   */
  lemma VolumeStateStep(p: Problem, zs: seq<nat>, sz: nat, zs': seq<nat>,
                        a1: seq<real>, a0: seq<real>, axy: seq<real>, b1: seq<real>, b0: seq<real>, bxy: seq<real>,
                        ss2: real, n2: nat, ssd2: seq<real>, ss1: real, n1: nat, ssd1: seq<real>)
    requires Valid(p) && Below(zs, D2(p)) && sz < D2(p) && zs' == zs + [sz]
    requires VolumeState(p, zs, a0, b0, ss1, n1, ssd1)
    requires PlaneState(p, sz, Ys(p), axy, bxy, ss2, n2, ssd2, ss1, n1, ssd1)
    requires PlaneLifted(p, sz, a1, a0, axy, b1, b0, bxy)
    ensures Below(zs', D2(p))
    ensures VolumeState(p, zs', a1, b1, ss2, n2, ssd2)
  {
    var FS, PS := Samples(p, zs), PlaneSamples(p, sz, Ys(p));
    Assoc3(p.bs.nx, p.bs.ny);
    VolumeGramStep(p, sz, FS, PS, a1, a0, axy);
    VolumeCrossStep(p, sz, FS, PS, b1, b0, bxy);
    SamplesSnoc(p, zs, sz);
    TalliedAppend(ss2, n2, ssd2, ss1, n1, ssd1, 0.0, 0, [0.0, 0.0, 0.0], FS, PS);
  }

  /** VolumeStateStep at the grid plane sz, whose successor on the z stride is next. */
  lemma VolumeAdvance(p: Problem, sz: nat, next: nat,
                      a1: seq<real>, a0: seq<real>, axy: seq<real>, b1: seq<real>, b0: seq<real>, bxy: seq<real>,
                      ss2: real, n2: nat, ssd2: seq<real>, ss1: real, n1: nat, ssd1: seq<real>)
    requires Valid(p) && sz < D2(p) && OnStride(1, p.samp[2], sz)
    requires next == sz + p.samp[2] && Below(GridFrom(1, p.samp[2], sz), D2(p))
    requires VolumeState(p, GridFrom(1, p.samp[2], sz), a0, b0, ss1, n1, ssd1)
    requires PlaneState(p, sz, Ys(p), axy, bxy, ss2, n2, ssd2, ss1, n1, ssd1)
    requires PlaneLifted(p, sz, a1, a0, axy, b1, b0, bxy)
    ensures OnStride(1, p.samp[2], next) && Below(GridFrom(1, p.samp[2], next), D2(p))
    ensures VolumeState(p, GridFrom(1, p.samp[2], next), a1, b1, ss2, n2, ssd2)
  {
    GridStep(1, p.samp[2], sz, next);
    VolumeStateStep(p, GridFrom(1, p.samp[2], sz), sz, GridFrom(1, p.samp[2], next),
                    a1, a0, axy, b1, b0, bxy, ss2, n2, ssd2, ss1, n1, ssd1);
  }

  /** Lifts plane sz's buffers into alpha and beta by the z basis values of plane sz. */
  method LiftPlane(p: Problem, sz: nat, alpha: array<real>, beta: array<real>, alphaxy: array<real>, betaxy: array<real>)
    requires Valid(p) && sz < D2(p)
    requires alpha != beta && alphaxy != betaxy && {alpha, beta} !! {alphaxy, betaxy}
    requires alpha.Length == Params(p) * Params(p) && beta.Length == Params(p)
    requires alphaxy.Length == (3 * p.bs.nx * p.bs.ny + Q(p)) * (3 * p.bs.nx * p.bs.ny + Q(p))
    requires betaxy.Length == 3 * p.bs.nx * p.bs.ny + Q(p)
    modifies alpha, beta
    ensures PlaneLifted(p, sz, alpha[..], old(alpha[..]), alphaxy[..], beta[..], old(beta[..]), betaxy[..])
  {
    Assoc3(p.bs.nx, p.bs.ny);
    Lift(alpha, beta, alphaxy, betaxy, p.bs.nx * p.bs.ny, p.bs.nz, Q(p), Wz(p, sz));
  }

  /**
   * One plane of the volume (spm_brainwarp.c:95-373): its z contractions,
   * its rows, and the z-lift of its normal equations into alpha/beta.
   */
  method VolumeVisit(p: Problem, sz: nat, tz: array<real>, jz: array<real>, ty: array<real>, jy: array<real>,
                     alpha: array<real>, beta: array<real>, alphaxy: array<real>, betaxy: array<real>,
                     alphax: array<real>, betax: array<real>, dvdt: array<real>,
                     ss: real, nsamp: nat, ssd: seq<real>)
    returns (ss1: real, n1: nat, ssd1: seq<real>, next: nat)
    requires Valid(p) && sz < D2(p) && OnStride(1, p.samp[2], sz) && |ssd| == 3
    requires tz != jz && tz.Length == 3 * (p.bs.nx * p.bs.ny) && jz.Length == 9 * (p.bs.nx * p.bs.ny)
    requires ty != jy && ty.Length == 3 * p.bs.nx && jy.Length == 9 * p.bs.nx
    requires alpha != beta && alphax != betax && alphax != dvdt && betax != dvdt && alphaxy != betaxy
    requires alpha.Length == Params(p) * Params(p) && beta.Length == Params(p)
    requires alphax.Length == Width(p) * Width(p) && betax.Length == Width(p) && dvdt.Length == Width(p)
    requires alphaxy.Length == (3 * p.bs.nx * p.bs.ny + Q(p)) * (3 * p.bs.nx * p.bs.ny + Q(p))
    requires betaxy.Length == 3 * p.bs.nx * p.bs.ny + Q(p)
    requires {alpha, beta} !! {tz, jz, ty, jy, alphaxy, betaxy, alphax, betax, dvdt}
    requires {tz, jz} !! {ty, jy, alphaxy, betaxy, alphax, betax, dvdt}
    requires {alphaxy, betaxy} !! {ty, jy, alphax, betax, dvdt} && {ty, jy} !! {alphax, betax, dvdt}
    requires Below(GridFrom(1, p.samp[2], sz), D2(p))
    requires VolumeState(p, GridFrom(1, p.samp[2], sz), alpha[..], beta[..], ss, nsamp, ssd)
    modifies tz, jz, ty, jy, alpha, beta, alphaxy, betaxy, alphax, betax, dvdt
    ensures next == sz + p.samp[2] && OnStride(1, p.samp[2], next)
    ensures Below(GridFrom(1, p.samp[2], next), D2(p))
    ensures VolumeState(p, GridFrom(1, p.samp[2], next), alpha[..], beta[..], ss1, n1, ssd1)
  {
    ghost var a0, b0 := alpha[..], beta[..];
    PlaneContract(p.t, p.bs, D2(p), sz, tz, jz);
    ss1, n1, ssd1 := ProcessPlane(p, sz, tz[..], jz[..], ty, jy, alphaxy, betaxy, alphax, betax, dvdt, ss, nsamp, ssd);
    LiftPlane(p, sz, alpha, beta, alphaxy, betaxy);
    next := sz + p.samp[2];
    VolumeAdvance(p, sz, next, alpha[..], a0, alphaxy[..], beta[..], b0, betaxy[..],
                  ss1, n1, ssd1, ss, nsamp, ssd);
  }

  lemma AccumulatedGramNothing(a: seq<real>, m: nat, nx: nat, ny: nat, nz: nat, q: nat)
    requires m == 3 * (nx * ny) * nz + q && |a| == m * m
    requires forall R: nat, C: nat | R < m && C < m :: C <= R ==> a[At(m, R, C)] == 0.0
    ensures AccumulatedGram(a, nx, ny, nz, q, [])
  {
  }

  /** The full design row of every kept voxel has the symmetries its outer product needs. */
  lemma AllFullCanon(p: Problem)
    requires Valid(p)
    ensures forall k :: 0 <= k < |FullRows(p, All(p))| ==>
      FullCanon(FullRows(p, All(p))[k], p.bs.nx, p.bs.ny, p.bs.nz, Q(p))
  {
    SamplesGenuine(p, Zs(p));
    AllCanon(p, All(p));
  }

  /**
   * What the symmetriser leaves once every plane is scanned: alpha is the
   * whole Gram matrix of the full design rows of every kept voxel.
   */
  lemma Finish(p: Problem, a1: seq<real>, a0: seq<real>)
    requires Valid(p)
    requires |a1| == |a0| == (3 * (p.bs.nx * p.bs.ny) * p.bs.nz + Q(p)) * (3 * (p.bs.nx * p.bs.ny) * p.bs.nz + Q(p))
    requires AccumulatedGram(a0, p.bs.nx, p.bs.ny, p.bs.nz, Q(p), FullRows(p, All(p)))
    requires Symmetrised(a1, a0, p.bs.nx, p.bs.ny, p.bs.nz, Q(p))
    ensures FullGram(a1, 3 * (p.bs.nx * p.bs.ny) * p.bs.nz + Q(p), FullRows(p, All(p)))
  {
    AllFullCanon(p);
    SymmetrisedGram(a1, a0, p.bs.nx, p.bs.ny, p.bs.nz, Q(p), FullRows(p, All(p)));
  }

  /** The same Gram statement, at the size written as Params. */
  lemma FullGramParams(p: Problem, a: seq<real>, rows: seq<seq<real>>)
    requires |a| == Params(p) * Params(p) && Uniform(rows, Params(p))
    requires FullGram(a, 3 * (p.bs.nx * p.bs.ny) * p.bs.nz + Q(p), rows)
    ensures FullGram(a, Params(p), rows)
  {
  }

  /** The accumulated triangle of the whole scan, read off the final state. */
  lemma FinalGram(p: Problem, a: seq<real>, b: seq<real>, ss: real, nsamp: nat, ssd: seq<real>)
    requires Valid(p) && VolumeState(p, Zs(p), a, b, ss, nsamp, ssd)
    ensures Uniform(FullRows(p, All(p)), 3 * (p.bs.nx * p.bs.ny) * p.bs.nz + Q(p))
    ensures |a| == (3 * (p.bs.nx * p.bs.ny) * p.bs.nz + Q(p)) * (3 * (p.bs.nx * p.bs.ny) * p.bs.nz + Q(p))
    ensures AccumulatedGram(a, p.bs.nx, p.bs.ny, p.bs.nz, Q(p), FullRows(p, All(p)))
  {
    assert Samples(p, Zs(p)) == All(p);
  }

  /** The running sums of the whole scan, read off the final state. */
  lemma Totals(p: Problem, a: seq<real>, b: seq<real>, ss: real, nsamp: nat, ssd: seq<real>)
    requires Valid(p) && VolumeState(p, Zs(p), a, b, ss, nsamp, ssd)
    ensures |b| == Params(p) && VecCross(b, Params(p), FullRows(p, All(p)), Residuals(All(p)))
    ensures ss == SumSq(Residuals(All(p))) && nsamp == |All(p)|
    ensures |ssd| == 3 && forall c | 0 <= c < 3 :: ssd[c] == SumSq(Grads(All(p), c))
  {
    assert Samples(p, Zs(p)) == All(p);
    TalliedFromZero(ss, nsamp, ssd, All(p));
  }

  /** Tallies started from zero are the sums over the samples themselves. */
  lemma TalliedFromZero(ss: real, nsamp: nat, ssd: seq<real>, S: seq<Sample>)
    requires Tallied(ss, nsamp, ssd, 0.0, 0, [0.0, 0.0, 0.0], S)
    ensures ss == SumSq(Residuals(S)) && nsamp == |S|
    ensures |ssd| == 3 && forall c | 0 <= c < 3 :: ssd[c] == SumSq(Grads(S, c))
  {
  }

  /**
   * The scan of every sampled plane (spm_brainwarp.c:85-373): alpha and beta
   * are zeroed, then every plane is visited.
   */
  method ScanVolume(p: Problem, tz: array<real>, jz: array<real>, ty: array<real>, jy: array<real>,
                    alpha: array<real>, beta: array<real>, alphaxy: array<real>, betaxy: array<real>,
                    alphax: array<real>, betax: array<real>, dvdt: array<real>)
    returns (ss: real, nsamp: nat, ssd: seq<real>)
    requires Valid(p)
    requires tz != jz && tz.Length == 3 * (p.bs.nx * p.bs.ny) && jz.Length == 9 * (p.bs.nx * p.bs.ny)
    requires ty != jy && ty.Length == 3 * p.bs.nx && jy.Length == 9 * p.bs.nx
    requires alpha != beta && alphax != betax && alphax != dvdt && betax != dvdt && alphaxy != betaxy
    requires alpha.Length == Params(p) * Params(p) && beta.Length == Params(p)
    requires alphax.Length == Width(p) * Width(p) && betax.Length == Width(p) && dvdt.Length == Width(p)
    requires alphaxy.Length == (3 * p.bs.nx * p.bs.ny + Q(p)) * (3 * p.bs.nx * p.bs.ny + Q(p))
    requires betaxy.Length == 3 * p.bs.nx * p.bs.ny + Q(p)
    requires {alpha, beta} !! {tz, jz, ty, jy, alphaxy, betaxy, alphax, betax, dvdt}
    requires {tz, jz} !! {ty, jy, alphaxy, betaxy, alphax, betax, dvdt}
    requires {alphaxy, betaxy} !! {ty, jy, alphax, betax, dvdt} && {ty, jy} !! {alphax, betax, dvdt}
    modifies tz, jz, ty, jy, alpha, beta, alphaxy, betaxy, alphax, betax, dvdt
    ensures VolumeState(p, Zs(p), alpha[..], beta[..], ss, nsamp, ssd)
  {
    ZeroLower(alpha, beta, Params(p));
    AccumulatedGramNothing(alpha[..], Params(p), p.bs.nx, p.bs.ny, p.bs.nz, Q(p));
    VecCrossNothing(beta[..], Params(p));
    ss, nsamp, ssd := 0.0, 0, [0.0, 0.0, 0.0];
    TalliedNothing(ss, nsamp, ssd);
    var sz: nat := 1;
    GridUnfold(1, p.samp[2], 1);
    while sz < D2(p)
      invariant OnStride(1, p.samp[2], sz) && (sz == 1 || sz < D2(p) + p.samp[2])
      invariant Below(GridFrom(1, p.samp[2], sz), D2(p))
      invariant VolumeState(p, GridFrom(1, p.samp[2], sz), alpha[..], beta[..], ss, nsamp, ssd)
      decreases D2(p) - sz
    {
      ss, nsamp, ssd, sz := VolumeVisit(p, sz, tz, jz, ty, jy, alpha, beta, alphaxy, betaxy, alphax, betax, dvdt,
                                        ss, nsamp, ssd);
    }
    GridClose(1, p.samp[2], D2(p), sz);
  }

  /**
   * mrqcof (spm_brainwarp.c:41-432). Afterwards alpha holds, in both
   * triangles, the sum over the kept voxels of the outer products of their
   * full design rows, beta the sum of those rows weighted by the voxels'
   * residuals, ss the sum of squared residuals, nsamp the number of kept
   * voxels and ssd the sums of squares of the corrected gradient components.
   */
  method Mrqcof(p: Problem, alpha: array<real>, beta: array<real>) returns (ss: real, nsamp: nat, ssd: seq<real>)
    requires Valid(p) && alpha != beta && alpha.Length == Params(p) * Params(p) && beta.Length == Params(p)
    modifies alpha, beta
    ensures FullGram(alpha[..], Params(p), FullRows(p, All(p)))
    ensures VecCross(beta[..], Params(p), FullRows(p, All(p)), Residuals(All(p)))
    ensures ss == SumSq(Residuals(All(p))) && nsamp == |All(p)|
    ensures |ssd| == 3 && forall c | 0 <= c < 3 :: ssd[c] == SumSq(Grads(All(p), c))
    ensures Symmetric(alpha[..], Params(p)) && SemiDefinite(alpha[..], Params(p))
  {
    var nx, ny := p.bs.nx, p.bs.ny;
    var dvdt := new real[Width(p)];
    var tz := new real[3 * (nx * ny)];
    var ty := new real[3 * nx];
    var jz := new real[9 * (nx * ny)];
    var jy := new real[9 * nx];
    var betax := new real[Width(p)];
    var betaxy := new real[3 * nx * ny + Q(p)];
    var alphax := new real[Width(p) * Width(p)];
    var alphaxy := new real[(3 * nx * ny + Q(p)) * (3 * nx * ny + Q(p))];
    ss, nsamp, ssd := ScanVolume(p, tz, jz, ty, jy, alpha, beta, alphaxy, betaxy, alphax, betax, dvdt);
    ghost var a0 := alpha[..];
    Symmetrise.Symmetrise(alpha, p.bs.nx, p.bs.ny, p.bs.nz, Q(p));
    FinalGram(p, a0, beta[..], ss, nsamp, ssd);
    Totals(p, a0, beta[..], ss, nsamp, ssd);
    Finish(p, alpha[..], a0);
    FullGramParams(p, alpha[..], FullRows(p, All(p)));
    FullGramShape(alpha[..], Params(p), FullRows(p, All(p)));
  }
}
