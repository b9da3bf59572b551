/**
 * The argument checks of mexFunction (spm_brainwarp.c:451-573): the usage and
 * size tests that come before mrqcof, the clamping of the rounded margins and
 * strides, and the common-dimension test of the templates. Every failed test
 * stops with its own message; a call that passes them hands mrqcof a problem
 * that meets its precondition.
 */
module Config {
  import opened Arith
  import opened Field
  import opened Design
  import opened Scan
  import opened Sums
  import opened Normal
  import opened Buffers
  import Mrqcof

  /** The messages mexFunction stops with, in the order it tests for them. */
  datatype Error =
    | Usage            // "Inappropriate usage. ([A,B,var,fwhm]=f(...);)"
    | ObjectCount      // "Inappropriate usage." (V2 is not a single volume)
    | NotNumeric       // "Inputs must be numeric, real, full and double."
    | AffineShape      // "Transformation matrix must be 4x4."
    | XBasis           // "Wrong sized X basis functions."
    | XDerivatives     // "Wrong sized X basis function derivatives."
    | YBasis
    | YDerivatives
    | ZBasis
    | ZDerivatives
    | TransformSize    // "Transform is wrong size."
    | FwhmCount        // "FWHM should contain one or two values."
    | Dimensions       // "Volumes must have same dimensions."

  datatype Result<T> = Ok(value: T) | Err(error: Error)

  /** A MATLAB matrix argument: its row and column counts and its column-major data. */
  datatype Matrix = Matrix(rows: nat, cols: nat, pr: seq<real>)

  /** The data of a matrix holds rows * cols values, as mxGetPr provides. */
  predicate Full(x: Matrix)
  {
    |x.pr| == x.rows * x.cols
  }

  /**
   * The arguments of a call [A,B,var,fwhm] = f(V1,V2,M,BX,BY,BZ,dBX,dBY,dBZ,T,fwhm):
   * nrhs and nlhs, the template volumes V1 and the object volumes V2 as
   * get_maps returns them, whether every argument is a real full double array,
   * the nine matrix arguments, and the rounded values rint(fwhm/pixdim2[k])
   * and rint(fwhm/2/pixdim1[k]) that the margins and strides are clamped from.
   */
  datatype Args = Args(
    nrhs: nat, nlhs: nat,
    templates: seq<Volume>, objects: seq<Volume>, numeric: bool,
    M: Matrix, BX: Matrix, BY: Matrix, BZ: Matrix,
    dBX: Matrix, dBY: Matrix, dBZ: Matrix, T: Matrix, fwhm: Matrix,
    edgeRounded: seq<int>, sampRounded: seq<int>)

  /** What get_maps, mxGetPr and the three-axis loops of mexFunction guarantee of the arguments. */
  predicate WellFormed(a: Args)
  {
    |a.templates| >= 1 && |a.edgeRounded| == 3 && |a.sampRounded| == 3
    && Full(a.M) && Full(a.BX) && Full(a.BY) && Full(a.BZ)
    && Full(a.dBX) && Full(a.dBY) && Full(a.dBZ) && Full(a.T)
  }

  /** An edge margin: the rounded value, or 0 when it is below 1. */
  function ClampEdge(e: int): (r: nat)
    ensures e >= 0 ==> r == e
    ensures e < 0 ==> r == 0
  {
    if e < 1 then 0 else e
  }

  /** A sampling stride: the rounded value, or 1 when it is below 1. */
  function ClampSamp(e: int): (r: nat)
    ensures r >= 1 && r >= e
    ensures r == 1 || r == e
  {
    if e < 1 then 1 else e
  }

  /** The margin clamp leaves exactly the non-negative values unchanged. */
  lemma ClampEdgeFixed(e: int)
    ensures ClampEdge(e) == e <==> e >= 0
  {
  }

  /** The stride clamp leaves exactly the values of at least 1 unchanged. */
  lemma ClampSampFixed(e: int)
    ensures ClampSamp(e) == e <==> e >= 1
  {
  }

  /** Clamping twice is clamping once. */
  lemma ClampIdempotent(e: int)
    ensures ClampEdge(ClampEdge(e)) == ClampEdge(e)
    ensures ClampSamp(ClampSamp(e)) == ClampSamp(e)
  {
  }

  /** The stride is the least value that is at least 1 and at least the rounded value. */
  lemma ClampSampLeast(e: int, s: int)
    requires s >= 1 && s >= e
    ensures ClampSamp(e) <= s
  {
  }

  /** Every template has the dimensions of the first one. */
  predicate Congruent(vs: seq<Volume>)
    requires |vs| >= 1
  {
    forall i :: 0 <= i < |vs| ==> vs[i].dx == vs[0].dx && vs[i].dy == vs[0].dy && vs[i].dz == vs[0].dz
  }

  /** The loop of spm_brainwarp.c:569-573 over the templates. */
  method SameDimensions(vs: seq<Volume>) returns (same: bool)
    requires |vs| >= 1
    ensures same <==> Congruent(vs)
  {
    for i := 0 to |vs|
      invariant forall j :: 0 <= j < i ==> vs[j].dx == vs[0].dx && vs[j].dy == vs[0].dy && vs[j].dz == vs[0].dz
    {
      if vs[0].dx != vs[i].dx || vs[0].dy != vs[i].dy || vs[0].dz != vs[i].dz {
        return false;
      }
    }
    return true;
  }

  /** Number of values in the fwhm argument. */
  function FwhmValues(a: Args): nat
  {
    a.fwhm.rows * a.fwhm.cols
  }

  /**
   * The tests of mexFunction, each with the message it stops with, in the
   * order they are made. No two stop with the same message, so a message
   * names its test.
   */
  function Tests(a: Args): (ts: seq<(bool, Error)>)
    requires WellFormed(a)
    ensures |ts| == 13
    ensures forall j, k | 0 <= j < k < |ts| :: ts[j].1 != ts[k].1
  {
    var d0, d1, d2, ni := a.templates[0].dx, a.templates[0].dy, a.templates[0].dz, |a.templates|;
    var nx, ny, nz := a.BX.cols, a.BY.cols, a.BZ.cols;
    [ (a.nrhs == 11 && a.nlhs <= 4, Usage),
      (|a.objects| == 1, ObjectCount),
      (a.numeric, NotNumeric),
      (a.M.rows == 4 && a.M.cols == 4, AffineShape),
      (a.BX.rows == d0, XBasis),
      (a.dBX.rows == d0 && a.dBX.cols == nx, XDerivatives),
      (a.BY.rows == d1, YBasis),
      (a.dBY.rows == d1 && a.dBY.cols == ny, YDerivatives),
      (a.BZ.rows == d2, ZBasis),
      (a.dBZ.rows == d2 && a.dBZ.cols == nz, ZDerivatives),
      (a.T.rows * a.T.cols == 3 * nx * ny * nz + ni * 4, TransformSize),
      (FwhmValues(a) == 1 || FwhmValues(a) == 2, FwhmCount),
      (Congruent(a.templates), Dimensions) ]
  }

  /** Every test in the list passes. */
  predicate AllPass(ts: seq<(bool, Error)>)
  {
    forall k :: 0 <= k < |ts| ==> ts[k].0
  }

  /** The message of the first failing test, which is the message of index k. */
  predicate FirstFailure(ts: seq<(bool, Error)>, e: Error)
  {
    exists k :: 0 <= k < |ts| && !ts[k].0 && ts[k].1 == e && forall j :: 0 <= j < k ==> ts[j].0
  }

  /** The problem mexFunction hands to mrqcof once every test has passed. */
  function Build(a: Args): (p: Problem)
    requires WellFormed(a) && |a.objects| >= 1
    ensures p.templates == a.templates && p.obj == a.objects[0]
    ensures p.t == a.T.pr && p.M == a.M.pr
    ensures p.samp == [ClampSamp(a.sampRounded[0]), ClampSamp(a.sampRounded[1]), ClampSamp(a.sampRounded[2])]
    ensures p.edgeskip == [ClampEdge(a.edgeRounded[0]), ClampEdge(a.edgeRounded[1]), ClampEdge(a.edgeRounded[2])]
  {
    Problem(a.T.pr,
            BasisSet(a.BX.cols, a.BX.pr, a.dBX.pr, a.BY.cols, a.BY.pr, a.dBY.pr, a.BZ.cols, a.BZ.pr, a.dBZ.pr),
            a.M.pr, a.objects[0], a.templates,
            [ClampSamp(a.sampRounded[0]), ClampSamp(a.sampRounded[1]), ClampSamp(a.sampRounded[2])],
            [ClampEdge(a.edgeRounded[0]), ClampEdge(a.edgeRounded[1]), ClampEdge(a.edgeRounded[2])])
  }

  /** Arguments that pass every test give a problem meeting mrqcof's precondition. */
  lemma BuildValid(a: Args)
    requires WellFormed(a) && AllPass(Tests(a))
    ensures |a.objects| == 1 && Valid(Build(a)) && Congruent(Build(a).templates)
    ensures Params(Build(a)) == 3 * a.BX.cols * a.BY.cols * a.BZ.cols + |a.templates| * 4
  {
    var ts := Tests(a);
    assert ts[1].0 && ts[3].0 && ts[4].0 && ts[5].0 && ts[6].0 && ts[7].0;
    assert ts[8].0 && ts[9].0 && ts[10].0 && ts[12].0;
    Assoc3(a.BX.cols, a.BY.cols);
  }

  /**
   * The tests of mexFunction, made in their order: the first that fails names
   * the error, and when none fails the result is the problem for mrqcof.
   */
  method Validate(a: Args) returns (r: Result<Problem>)
    requires WellFormed(a)
    ensures r.Ok? <==> AllPass(Tests(a))
    ensures r.Err? ==> FirstFailure(Tests(a), r.error)
    ensures r.Ok? ==> |a.objects| == 1 && r.value == Build(a)
  {
    var ts := Tests(a);
    if a.nrhs != 11 || a.nlhs > 4 {
      r := Fail(ts, 0);
    } else if |a.objects| != 1 {
      r := Fail(ts, 1);
    } else if !a.numeric {
      r := Fail(ts, 2);
    } else if a.M.rows != 4 || a.M.cols != 4 {
      r := Fail(ts, 3);
    } else {
      r := ValidateSizes(a);
    }
  }

  /** The tests after the affine matrix's: the basis sizes, T, fwhm and the template dimensions. */
  method ValidateSizes(a: Args) returns (r: Result<Problem>)
    requires WellFormed(a) && |a.objects| == 1 && forall j | 0 <= j < 4 :: Tests(a)[j].0
    ensures r.Ok? <==> AllPass(Tests(a))
    ensures r.Err? ==> FirstFailure(Tests(a), r.error)
    ensures r.Ok? ==> r.value == Build(a)
  {
    var ts := Tests(a);
    var d0, d1, d2, ni := a.templates[0].dx, a.templates[0].dy, a.templates[0].dz, |a.templates|;
    var nx, ny, nz := a.BX.cols, a.BY.cols, a.BZ.cols;
    var count := a.fwhm.rows * a.fwhm.cols;
    if a.BX.rows != d0 {
      r := Fail(ts, 4);
    } else if a.dBX.rows != d0 || a.dBX.cols != nx {
      r := Fail(ts, 5);
    } else if a.BY.rows != d1 {
      r := Fail(ts, 6);
    } else if a.dBY.rows != d1 || a.dBY.cols != ny {
      r := Fail(ts, 7);
    } else if a.BZ.rows != d2 {
      r := Fail(ts, 8);
    } else if a.dBZ.rows != d2 || a.dBZ.cols != nz {
      r := Fail(ts, 9);
    } else if a.T.rows * a.T.cols != 3 * nx * ny * nz + ni * 4 {
      r := Fail(ts, 10);
    } else if count != 1 && count != 2 {
      r := Fail(ts, 11);
    } else {
      var same := SameDimensions(a.templates);
      if !same {
        r := Fail(ts, 12);
      } else {
        assert AllPass(ts);
        r := Ok(Build(a));
      }
    }
  }

  /** Stops at test k of ts, which failed after all the earlier ones passed. */
  function Fail(ts: seq<(bool, Error)>, k: nat): (r: Result<Problem>)
    requires k < |ts| && !ts[k].0 && forall j :: 0 <= j < k ==> ts[j].0
    ensures r.Err? && FirstFailure(ts, r.error) && !AllPass(ts)
  {
    Err(ts[k].1)
  }

  /** At most one message can be the first failure. */
  lemma FirstFailureUnique(ts: seq<(bool, Error)>, e1: Error, e2: Error)
    requires FirstFailure(ts, e1) && FirstFailure(ts, e2)
    ensures e1 == e2
  {
    var k1 :| 0 <= k1 < |ts| && !ts[k1].0 && ts[k1].1 == e1 && forall j :: 0 <= j < k1 ==> ts[j].0;
    var k2 :| 0 <= k2 < |ts| && !ts[k2].0 && ts[k2].1 == e2 && forall j :: 0 <= j < k2 ==> ts[j].0;
    assert !(k1 < k2) && !(k2 < k1);
  }

  /** What a call returns before the smoothness estimate: A, B, the sum of squares and the sample count. */
  datatype Fit = Fit(p: Problem, alpha: seq<real>, beta: seq<real>, chi2: real, nsamp: nat, ssDeriv: seq<real>)

  /**
   * The outputs hold the normal equations of the problem: A is the Gram
   * matrix of the design rows of all sampled voxels, B their products with
   * the residuals, chi2 the residual sum of squares and nsamp the voxel count.
   */
  ghost predicate Solved(f: Fit)
  {
    Valid(f.p) && |f.alpha| == Params(f.p) * Params(f.p) && |f.beta| == Params(f.p)
    && FullGram(f.alpha, Params(f.p), FullRows(f.p, All(f.p)))
    && VecCross(f.beta, Params(f.p), FullRows(f.p, All(f.p)), Residuals(All(f.p)))
    && f.chi2 == SumSq(Residuals(All(f.p))) && f.nsamp == |All(f.p)|
  }

  /**
   * mexFunction up to the call of mrqcof: the tests, the outputs of
   * 3*nx*ny*nz+ni*4 parameters, and the normal equations that mrqcof fills.
   */
  method Entry(a: Args) returns (r: Result<Fit>)
    requires WellFormed(a)
    ensures r.Err? <==> !AllPass(Tests(a))
    ensures r.Err? ==> FirstFailure(Tests(a), r.error)
    ensures r.Ok? ==> |a.objects| == 1 && r.value.p == Build(a) && Solved(r.value)
  {
    var v := Validate(a);
    if v.Err? {
      return Err(v.error);
    }
    var p := v.value;
    var P := 3 * a.BX.cols * a.BY.cols * a.BZ.cols + |a.templates| * 4;
    BuildValid(a);
    var alpha := new real[P * P];
    var beta := new real[P];
    var chi2, nsamp, ssDeriv := Mrqcof.Mrqcof(p, alpha, beta);
    return Ok(Fit(p, alpha[..], beta[..], chi2, nsamp, ssDeriv));
  }

  /**
   * The closing scale(...) call on A multiplies it by one factor (1/chi2 in
   * mexFunction): A then holds the Gram matrix times that factor and is
   * still symmetric.
   */
  lemma ScaledGram(a: seq<real>, m: nat, rows: seq<seq<real>>, s: real)
    requires |a| == m * m && Uniform(rows, m) && FullGram(a, m, rows)
    ensures forall R: nat, C: nat | R < m && C < m ::
      ScaledBy(a, m * m, s)[At(m, R, C)] == Times(GramAt(rows, m, R, C), s)
      && ScaledBy(a, m * m, s)[At(m, R, C)] == ScaledBy(a, m * m, s)[At(m, C, R)]
  {
    var b := ScaledBy(a, m * m, s);
    forall R: nat, C: nat | R < m && C < m
      ensures b[At(m, R, C)] == Times(GramAt(rows, m, R, C), s) && b[At(m, R, C)] == b[At(m, C, R)]
    {
      var p, p' := At(m, R, C), At(m, C, R);
      assert a[p] == GramAt(rows, m, R, C) && a[p'] == GramAt(rows, m, C, R);
      GramSymmetric(rows, m, R, C);
      ScaledAt(a, m * m, s, p);
      ScaledAt(a, m * m, s, p');
    }
  }

  /** The closing scale(...) call on B multiplies every residual product by the factor. */
  lemma ScaledCross(e: seq<real>, m: nat, rows: seq<seq<real>>, res: seq<real>, s: real)
    requires |e| == m && Uniform(rows, m) && |res| == |rows| && VecCross(e, m, rows, res)
    ensures forall R | 0 <= R < m :: ScaledBy(e, m, s)[R] == Times(CrossAt(rows, res, m, R), s)
  {
    var b := ScaledBy(e, m, s);
    forall R | 0 <= R < m
      ensures b[R] == Times(CrossAt(rows, res, m, R), s)
    {
      ScaledAt(e, m, s, R);
    }
  }
}
