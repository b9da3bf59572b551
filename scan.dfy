/**
 * What mrqcof sums over: the template voxels on the sampling grid, plane by
 * plane (z), row by row (y) and voxel by voxel (x), of which it keeps those
 * whose deformed position lies inside the object's margins
 * (spm_brainwarp.c:95, 126, 159, 183-187).  Each kept voxel contributes its
 * full design row: its narrow row lifted by the y and z basis values at its
 * position.
 */
module Scan {
  import opened Arith
  import opened Layout
  import opened Sums
  import opened Grid
  import opened Field
  import opened Coords
  import opened Normal
  import opened Canon
  import opened Design

  /** A kept voxel and where the scan met it. */
  datatype Sample = Sample(x: nat, y: nat, z: nat, v: Voxel)

  /** The visited coordinates along each axis. */
  function Xs(p: Problem): (g: seq<nat>)
    requires Valid(p)
    ensures forall j :: 0 <= j < |g| ==> g[j] < D0(p)
  {
    GridFrom(1, p.samp[0], D0(p))
  }

  function Ys(p: Problem): (g: seq<nat>)
    requires Valid(p)
    ensures forall j :: 0 <= j < |g| ==> g[j] < D1(p)
  {
    GridFrom(1, p.samp[1], D1(p))
  }

  function Zs(p: Problem): (g: seq<nat>)
    requires Valid(p)
    ensures forall j :: 0 <= j < |g| ==> g[j] < D2(p)
  {
    GridFrom(1, p.samp[2], D2(p))
  }

  /** Number of intensity parameters, 4*ni. */
  function Q(p: Problem): nat { 4 * |p.templates| }

  /** Size of the final parameter space, 3*nx*ny*nz + 4*ni. */
  function Params(p: Problem): nat { Spatials(p) + Q(p) }

  /** y and z basis values at a row and a plane of the template. */
  function Wy(p: Problem, sy: nat): (w: seq<real>)
    requires Valid(p) && sy < D1(p)
    ensures |w| == p.bs.ny
  {
    Col(p.bs.BY, D1(p), sy, p.bs.ny)
  }

  function Wz(p: Problem, sz: nat): (w: seq<real>)
    requires Valid(p) && sz < D2(p)
    ensures |w| == p.bs.nz
  {
    Col(p.bs.BZ, D2(p), sz, p.bs.nz)
  }

  predicate Below(s: seq<nat>, lim: nat)
  {
    forall j :: 0 <= j < |s| ==> s[j] < lim
  }

  /** A sample lies on the template and carries a design row of the right width. */
  predicate Kept(p: Problem, s: Sample)
  {
    InGrid(p, s.x, s.y, s.z) && |s.v.d| == Width(p)
  }

  predicate AllKept(p: Problem, S: seq<Sample>)
  {
    forall k :: 0 <= k < |S| ==> Kept(p, S[k])
  }

  /** Every sample carries the voxel that the model gives its position. */
  predicate Genuine(p: Problem, S: seq<Sample>)
    requires AllKept(p, S)
  {
    forall k :: 0 <= k < |S| ==> VoxelAt(p, S[k].x, S[k].y, S[k].z) == Some(S[k].v)
  }

  /** The voxel at (sx, sy, sz) as a list: empty when it is out of range. */
  function Visit(p: Problem, sx: nat, sy: nat, sz: nat): (r: seq<Sample>)
    requires InGrid(p, sx, sy, sz)
    ensures |r| <= 1
    ensures |r| == 1 ==> r[0].x == sx && r[0].y == sy && r[0].z == sz && Kept(p, r[0])
  {
    var o := VoxelAt(p, sx, sy, sz);
    if o.None? then [] else [Sample(sx, sy, sz, o.value)]
  }

  /** The kept voxels of row (sy, sz) at the x coordinates xs, in order. */
  function RowSamples(p: Problem, sy: nat, sz: nat, xs: seq<nat>): (r: seq<Sample>)
    requires Valid(p) && sy < D1(p) && sz < D2(p) && Below(xs, D0(p))
    ensures AllKept(p, r) && |r| <= |xs| && OnRow(r, sy, sz)
    decreases |xs|
  {
    if xs == [] then []
    else
      var front, last := RowSamples(p, sy, sz, xs[..|xs| - 1]), Visit(p, xs[|xs| - 1], sy, sz);
      RowJoin(p, sy, sz, front, last);
      front + last
  }

  /** Every sample lies in row (sy, sz). */
  predicate OnRow(S: seq<Sample>, sy: nat, sz: nat)
  {
    forall k :: 0 <= k < |S| ==> S[k].y == sy && S[k].z == sz
  }

  lemma RowJoin(p: Problem, sy: nat, sz: nat, A: seq<Sample>, B: seq<Sample>)
    requires AllKept(p, A) && AllKept(p, B) && OnRow(A, sy, sz)
    requires |B| <= 1 && (|B| == 1 ==> B[0].y == sy && B[0].z == sz)
    ensures AllKept(p, A + B) && OnRow(A + B, sy, sz)
  {
  }

  /** The kept voxels of plane sz at the rows ys, in order. */
  function PlaneSamples(p: Problem, sz: nat, ys: seq<nat>): (r: seq<Sample>)
    requires Valid(p) && sz < D2(p) && Below(ys, D1(p))
    ensures AllKept(p, r)
    ensures forall k :: 0 <= k < |r| ==> r[k].z == sz
    decreases |ys|
  {
    if ys == [] then []
    else PlaneSamples(p, sz, ys[..|ys| - 1]) + RowSamples(p, ys[|ys| - 1], sz, Xs(p))
  }

  /** The kept voxels of the planes zs, in order. */
  function Samples(p: Problem, zs: seq<nat>): (r: seq<Sample>)
    requires Valid(p) && Below(zs, D2(p))
    ensures AllKept(p, r)
    decreases |zs|
  {
    if zs == [] then []
    else Samples(p, zs[..|zs| - 1]) + PlaneSamples(p, zs[|zs| - 1], Ys(p))
  }

  /** Every voxel mrqcof keeps, in scan order. */
  function All(p: Problem): (r: seq<Sample>)
    requires Valid(p)
    ensures AllKept(p, r)
  {
    Samples(p, Zs(p))
  }

  /** The narrow design rows (dvdt) of kept voxels. */
  function NarrowRows(p: Problem, S: seq<Sample>): (r: seq<seq<real>>)
    requires AllKept(p, S)
    ensures |r| == |S| && Uniform(r, Width(p))
    ensures forall k :: 0 <= k < |S| ==> r[k] == S[k].v.d
  {
    seq(|S|, k requires 0 <= k < |S| => S[k].v.d)
  }

  /** A kept voxel's row lifted by the y basis values of its row. */
  function PlaneRow(p: Problem, s: Sample): (r: seq<real>)
    requires Kept(p, s)
    ensures |r| == 3 * p.bs.nx * p.bs.ny + Q(p)
  {
    LiftRow(s.v.d, Wy(p, s.y), p.bs.nx, p.bs.ny, Q(p))
  }

  /**
   * A kept voxel's full design row: its plane row lifted by the z basis
   * values of its plane.
   */
  function FullRow(p: Problem, s: Sample): (r: seq<real>)
    requires Kept(p, s)
    ensures |r| == Params(p)
  {
    Assoc3(p.bs.nx, p.bs.ny);
    MulNonNeg(p.bs.nx, p.bs.ny);
    LiftRow(PlaneRow(p, s), Wz(p, s.z), p.bs.nx * p.bs.ny, p.bs.nz, Q(p))
  }

  function PlaneRows(p: Problem, S: seq<Sample>): (r: seq<seq<real>>)
    requires AllKept(p, S)
    ensures |r| == |S| && Uniform(r, 3 * p.bs.nx * p.bs.ny + Q(p))
    ensures forall k :: 0 <= k < |S| ==> r[k] == PlaneRow(p, S[k])
  {
    seq(|S|, k requires 0 <= k < |S| => PlaneRow(p, S[k]))
  }

  function FullRows(p: Problem, S: seq<Sample>): (r: seq<seq<real>>)
    requires AllKept(p, S)
    ensures |r| == |S| && Uniform(r, Params(p))
    ensures forall k :: 0 <= k < |S| ==> r[k] == FullRow(p, S[k])
  {
    seq(|S|, k requires 0 <= k < |S| => FullRow(p, S[k]))
  }

  /** Residuals dv of samples, in order. */
  function Residuals(S: seq<Sample>): (r: seq<real>)
    ensures |r| == |S| && forall k :: 0 <= k < |S| ==> r[k] == S[k].v.dv
  {
    seq(|S|, k requires 0 <= k < |S| => S[k].v.dv)
  }

  /** Component c of the corrected gradients dvds0 of samples, in order. */
  function Grads(S: seq<Sample>, c: nat): (r: seq<real>)
    requires c < 3
    ensures |r| == |S| && forall k :: 0 <= k < |S| ==> r[k] == [S[k].v.gx, S[k].v.gy, S[k].v.gz][c]
  {
    seq(|S|, k requires 0 <= k < |S| => [S[k].v.gx, S[k].v.gy, S[k].v.gz][c])
  }

  // ---------------------------------------------------------------------
  // The lists split along concatenation.
  // ---------------------------------------------------------------------

  lemma KeptAppend(p: Problem, A: seq<Sample>, B: seq<Sample>)
    requires AllKept(p, A) && AllKept(p, B)
    ensures AllKept(p, A + B)
  {
  }

  lemma NarrowAppend(p: Problem, A: seq<Sample>, B: seq<Sample>)
    requires AllKept(p, A) && AllKept(p, B)
    ensures AllKept(p, A + B) && NarrowRows(p, A + B) == NarrowRows(p, A) + NarrowRows(p, B)
  {
    assert AllKept(p, A + B);
  }

  lemma PlaneAppend(p: Problem, A: seq<Sample>, B: seq<Sample>)
    requires AllKept(p, A) && AllKept(p, B)
    ensures AllKept(p, A + B) && PlaneRows(p, A + B) == PlaneRows(p, A) + PlaneRows(p, B)
  {
    assert AllKept(p, A + B);
  }

  lemma FullAppend(p: Problem, A: seq<Sample>, B: seq<Sample>)
    requires AllKept(p, A) && AllKept(p, B)
    ensures AllKept(p, A + B) && FullRows(p, A + B) == FullRows(p, A) + FullRows(p, B)
  {
    assert AllKept(p, A + B);
  }

  lemma ResidualsAppend(A: seq<Sample>, B: seq<Sample>)
    ensures Residuals(A + B) == Residuals(A) + Residuals(B)
  {
  }

  lemma GradsAppend(A: seq<Sample>, B: seq<Sample>, c: nat)
    requires c < 3
    ensures Grads(A + B, c) == Grads(A, c) + Grads(B, c)
  {
  }

  /** Lifting the narrow rows of one image row by its y basis values gives their plane rows. */
  lemma RowLift(p: Problem, S: seq<Sample>, sy: nat)
    requires Valid(p) && sy < D1(p) && AllKept(p, S)
    requires forall k :: 0 <= k < |S| ==> S[k].y == sy
    ensures LiftRows(NarrowRows(p, S), Wy(p, sy), p.bs.nx, p.bs.ny, Q(p)) == PlaneRows(p, S)
  {
  }

  /** Lifting the plane rows of one plane by its z basis values gives their full rows. */
  lemma PlaneLift(p: Problem, S: seq<Sample>, sz: nat)
    requires Valid(p) && sz < D2(p) && AllKept(p, S)
    requires forall k :: 0 <= k < |S| ==> S[k].z == sz
    ensures 3 * (p.bs.nx * p.bs.ny) + Q(p) == 3 * p.bs.nx * p.bs.ny + Q(p)
    ensures LiftRows(PlaneRows(p, S), Wz(p, sz), p.bs.nx * p.bs.ny, p.bs.nz, Q(p)) == FullRows(p, S)
  {
    Assoc3(p.bs.nx, p.bs.ny);
  }

  // ---------------------------------------------------------------------
  // What the samples are.
  // ---------------------------------------------------------------------

  lemma GenuineAppend(p: Problem, A: seq<Sample>, B: seq<Sample>)
    requires AllKept(p, A) && AllKept(p, B) && Genuine(p, A) && Genuine(p, B)
    ensures AllKept(p, A + B) && Genuine(p, A + B)
  {
    assert AllKept(p, A + B);
  }

  /** The visit of a voxel keeps it, with its voxel, exactly when it is in range. */
  lemma VisitGenuine(p: Problem, sx: nat, sy: nat, sz: nat)
    requires InGrid(p, sx, sy, sz)
    ensures AllKept(p, Visit(p, sx, sy, sz)) && Genuine(p, Visit(p, sx, sy, sz))
    ensures |Visit(p, sx, sy, sz)| == 1 <==> VoxelAt(p, sx, sy, sz).Some?
  {
  }

  lemma {:induction false} RowGenuine(p: Problem, sy: nat, sz: nat, xs: seq<nat>)
    requires Valid(p) && sy < D1(p) && sz < D2(p) && Below(xs, D0(p))
    ensures Genuine(p, RowSamples(p, sy, sz, xs))
    decreases |xs|
  {
    if xs != [] {
      RowGenuine(p, sy, sz, xs[..|xs| - 1]);
      VisitGenuine(p, xs[|xs| - 1], sy, sz);
      GenuineAppend(p, RowSamples(p, sy, sz, xs[..|xs| - 1]), Visit(p, xs[|xs| - 1], sy, sz));
    }
  }

  lemma {:induction false} PlaneGenuine(p: Problem, sz: nat, ys: seq<nat>)
    requires Valid(p) && sz < D2(p) && Below(ys, D1(p))
    ensures Genuine(p, PlaneSamples(p, sz, ys))
    decreases |ys|
  {
    if ys != [] {
      PlaneGenuine(p, sz, ys[..|ys| - 1]);
      RowGenuine(p, ys[|ys| - 1], sz, Xs(p));
      GenuineAppend(p, PlaneSamples(p, sz, ys[..|ys| - 1]), RowSamples(p, ys[|ys| - 1], sz, Xs(p)));
    }
  }

  lemma {:induction false} SamplesGenuine(p: Problem, zs: seq<nat>)
    requires Valid(p) && Below(zs, D2(p))
    ensures Genuine(p, Samples(p, zs))
    decreases |zs|
  {
    if zs != [] {
      SamplesGenuine(p, zs[..|zs| - 1]);
      PlaneGenuine(p, zs[|zs| - 1], Ys(p));
      GenuineAppend(p, Samples(p, zs[..|zs| - 1]), PlaneSamples(p, zs[|zs| - 1], Ys(p)));
    }
  }

  lemma VisitMember(p: Problem, sx: nat, sy: nat, sz: nat, s: Sample)
    requires InGrid(p, sx, sy, sz)
    ensures s in Visit(p, sx, sy, sz) <==>
      s.x == sx && s.y == sy && s.z == sz && VoxelAt(p, sx, sy, sz) == Some(s.v)
  {
  }

  lemma InLast(cs: seq<nat>, c: nat)
    requires cs != []
    ensures c in cs <==> c in cs[..|cs| - 1] || c == cs[|cs| - 1]
  {
    assert cs == cs[..|cs| - 1] + [cs[|cs| - 1]];
  }

  /** A row keeps exactly the in-range voxels at its x coordinates. */
  lemma {:induction false} RowMember(p: Problem, sy: nat, sz: nat, xs: seq<nat>, s: Sample)
    requires Valid(p) && sy < D1(p) && sz < D2(p) && Below(xs, D0(p))
    ensures s in RowSamples(p, sy, sz, xs) <==>
      s.y == sy && s.z == sz && s.x in xs && s.x < D0(p) && VoxelAt(p, s.x, sy, sz) == Some(s.v)
    decreases |xs|
  {
    if xs != [] {
      var xs', sx := xs[..|xs| - 1], xs[|xs| - 1];
      InLast(xs, s.x);
      RowMember(p, sy, sz, xs', s);
      assert RowSamples(p, sy, sz, xs) == RowSamples(p, sy, sz, xs') + Visit(p, sx, sy, sz);
      VisitMember(p, sx, sy, sz, s);
    }
  }

  /** A plane keeps exactly the in-range voxels of its rows. */
  lemma {:induction false} PlaneMember(p: Problem, sz: nat, ys: seq<nat>, s: Sample)
    requires Valid(p) && sz < D2(p) && Below(ys, D1(p))
    ensures s in PlaneSamples(p, sz, ys) <==>
      s.z == sz && s.y in ys && s.x in Xs(p) && s.y < D1(p) && s.x < D0(p)
      && VoxelAt(p, s.x, s.y, sz) == Some(s.v)
    decreases |ys|
  {
    if ys != [] {
      var ys', sy := ys[..|ys| - 1], ys[|ys| - 1];
      InLast(ys, s.y);
      PlaneMember(p, sz, ys', s);
      RowMember(p, sy, sz, Xs(p), s);
    }
  }

  lemma {:induction false} SamplesMember(p: Problem, zs: seq<nat>, s: Sample)
    requires Valid(p) && Below(zs, D2(p))
    ensures s in Samples(p, zs) <==>
      s.z in zs && s.y in Ys(p) && s.x in Xs(p) && InGrid(p, s.x, s.y, s.z)
      && VoxelAt(p, s.x, s.y, s.z) == Some(s.v)
    decreases |zs|
  {
    if zs != [] {
      var zs', sz := zs[..|zs| - 1], zs[|zs| - 1];
      InLast(zs, s.z);
      SamplesMember(p, zs', s);
      PlaneMember(p, sz, Ys(p), s);
    }
  }

  /**
   * mrqcof keeps a voxel exactly when each of its coordinates is 1 plus a
   * multiple of that axis' stride and its deformed position is in range.
   */
  lemma AllMember(p: Problem, s: Sample)
    requires Valid(p)
    ensures s in All(p) <==>
      InGrid(p, s.x, s.y, s.z) && Strided(p, s.x, s.y, s.z) && VoxelAt(p, s.x, s.y, s.z) == Some(s.v)
  {
    SamplesMember(p, Zs(p), s);
    OnGrid(p, s.x, s.y, s.z);
  }

  /** The scan visits exactly the strided points of the template grid. */
  lemma OnGrid(p: Problem, x: nat, y: nat, z: nat)
    requires Valid(p)
    ensures x in Xs(p) && y in Ys(p) && z in Zs(p) <==> InGrid(p, x, y, z) && Strided(p, x, y, z)
  {
    AxisMember(p, x, 0);
    AxisMember(p, y, 1);
    AxisMember(p, z, 2);
  }

  /** Axis k's coordinates: the grid from 1 with stride samp[k] below that dimension. */
  function Axis(p: Problem, k: nat): (g: seq<nat>)
    requires Valid(p) && k < 3
  {
    if k == 0 then Xs(p) else if k == 1 then Ys(p) else Zs(p)
  }

  function Dim(p: Problem, k: nat): nat
    requires Valid(p) && k < 3
  {
    if k == 0 then D0(p) else if k == 1 then D1(p) else D2(p)
  }

  lemma AxisMember(p: Problem, c: nat, k: nat)
    requires Valid(p) && k < 3
    ensures c in Axis(p, k) <==> 1 <= c < Dim(p, k) && (c - 1) % p.samp[k] == 0
  {
    GridMember(1, p.samp[k], Dim(p, k), c);
  }

  /** Each coordinate is 1 plus a multiple of its axis' stride. */
  predicate Strided(p: Problem, x: nat, y: nat, z: nat)
    requires Valid(p)
  {
    1 <= x && (x - 1) % p.samp[0] == 0
    && 1 <= y && (y - 1) % p.samp[1] == 0
    && 1 <= z && (z - 1) % p.samp[2] == 0
  }

  /** Narrowing the margins loses no voxel of a grid position. */
  lemma VisitMargins(p: Problem, e: seq<nat>, sx: nat, sy: nat, sz: nat)
    requires InGrid(p, sx, sy, sz) && |e| == 3 && forall k | 0 <= k < 3 :: e[k] <= p.edgeskip[k]
    ensures InGrid(p.(edgeskip := e), sx, sy, sz)
    ensures |Visit(p, sx, sy, sz)| <= |Visit(p.(edgeskip := e), sx, sy, sz)|
  {
    VoxelAtMargins(p, e, sx, sy, sz);
  }

  lemma {:induction false} RowMargins(p: Problem, e: seq<nat>, sy: nat, sz: nat, xs: seq<nat>)
    requires Valid(p) && sy < D1(p) && sz < D2(p) && Below(xs, D0(p))
    requires |e| == 3 && forall k | 0 <= k < 3 :: e[k] <= p.edgeskip[k]
    ensures Valid(p.(edgeskip := e))
    ensures |RowSamples(p, sy, sz, xs)| <= |RowSamples(p.(edgeskip := e), sy, sz, xs)|
    decreases |xs|
  {
    if xs != [] {
      RowMargins(p, e, sy, sz, xs[..|xs| - 1]);
      VisitMargins(p, e, xs[|xs| - 1], sy, sz);
    }
  }

  lemma {:induction false} PlaneMargins(p: Problem, e: seq<nat>, sz: nat, ys: seq<nat>)
    requires Valid(p) && sz < D2(p) && Below(ys, D1(p))
    requires |e| == 3 && forall k | 0 <= k < 3 :: e[k] <= p.edgeskip[k]
    ensures Valid(p.(edgeskip := e))
    ensures |PlaneSamples(p, sz, ys)| <= |PlaneSamples(p.(edgeskip := e), sz, ys)|
    decreases |ys|
  {
    if ys != [] {
      assert Xs(p.(edgeskip := e)) == Xs(p);
      PlaneMargins(p, e, sz, ys[..|ys| - 1]);
      RowMargins(p, e, ys[|ys| - 1], sz, Xs(p));
    }
  }

  lemma {:induction false} SamplesMargins(p: Problem, e: seq<nat>, zs: seq<nat>)
    requires Valid(p) && Below(zs, D2(p))
    requires |e| == 3 && forall k | 0 <= k < 3 :: e[k] <= p.edgeskip[k]
    ensures Valid(p.(edgeskip := e))
    ensures |Samples(p, zs)| <= |Samples(p.(edgeskip := e), zs)|
    decreases |zs|
  {
    if zs != [] {
      assert Ys(p.(edgeskip := e)) == Ys(p);
      SamplesMargins(p, e, zs[..|zs| - 1]);
      PlaneMargins(p, e, zs[|zs| - 1], Ys(p));
    }
  }

  /**
   * Narrower margins (smaller edgeskip) keep every voxel that wider margins
   * keep, so the sample count never decreases as the margins shrink.
   */
  lemma AllMargins(p: Problem, e: seq<nat>)
    requires Valid(p) && |e| == 3 && forall k | 0 <= k < 3 :: e[k] <= p.edgeskip[k]
    ensures Valid(p.(edgeskip := e))
    ensures forall s | s in All(p) :: s in All(p.(edgeskip := e))
    ensures |All(p)| <= |All(p.(edgeskip := e))|
  {
    var q := p.(edgeskip := e);
    forall s | s in All(p)
      ensures s in All(q)
    {
      AllMember(p, s);
      VoxelAtMargins(p, e, s.x, s.y, s.z);
      AllMember(q, s);
    }
    assert Zs(q) == Zs(p);
    SamplesMargins(p, e, Zs(p));
  }

  /** No more voxels are kept than the grid has points. */
  lemma {:induction false} SamplesCount(p: Problem, zs: seq<nat>)
    requires Valid(p) && Below(zs, D2(p))
    ensures |Samples(p, zs)| <= |zs| * (|Ys(p)| * |Xs(p)|)
    decreases |zs|
  {
    if zs != [] {
      SamplesCount(p, zs[..|zs| - 1]);
      PlaneCount(p, zs[|zs| - 1], Ys(p));
      assert (|zs| - 1) * (|Ys(p)| * |Xs(p)|) + |Ys(p)| * |Xs(p)| == |zs| * (|Ys(p)| * |Xs(p)|);
    }
  }

  lemma {:induction false} PlaneCount(p: Problem, sz: nat, ys: seq<nat>)
    requires Valid(p) && sz < D2(p) && Below(ys, D1(p))
    ensures |PlaneSamples(p, sz, ys)| <= |ys| * |Xs(p)|
    decreases |ys|
  {
    if ys != [] {
      PlaneCount(p, sz, ys[..|ys| - 1]);
      assert (|ys| - 1) * |Xs(p)| + |Xs(p)| == |ys| * |Xs(p)|;
    }
  }

  // ---------------------------------------------------------------------
  // The full design row.
  // ---------------------------------------------------------------------

  /** The spatial entries of a kept voxel's row: -dvds1 = -g1 times the x basis values wx. */
  lemma NarrowSpatial(p: Problem, s: Sample, g1: seq<real>, wx: seq<real>)
    requires Kept(p, s) && VoxelAt(p, s.x, s.y, s.z) == Some(s.v)
    requires g1 == Pulled(p, s.x, s.y, s.z) && wx == Col(p.bs.BX, D0(p), s.x, p.bs.nx)
    ensures |s.v.d| >= 3 * p.bs.nx
    ensures s.v.d[..3 * p.bs.nx] == SpatialRow(g1, wx, p.bs.nx)
  {
    VoxelParts(p, s.x, s.y, s.z);
  }

  /** Spatial entry (c, x) of a kept voxel's row is -dvds1[c] times the x basis value. */
  lemma NarrowEntry(p: Problem, s: Sample, g1: seq<real>, wx: seq<real>, i: nat, x: nat)
    requires Kept(p, s) && VoxelAt(p, s.x, s.y, s.z) == Some(s.v) && i < 3 && x < p.bs.nx
    requires g1 == Pulled(p, s.x, s.y, s.z) && wx == Col(p.bs.BX, D0(p), s.x, p.bs.nx)
    ensures At(p.bs.nx, i, x) < 3 * p.bs.nx
    ensures s.v.d[At(p.bs.nx, i, x)] == Times(-g1[i], wx[x])
  {
    NarrowSpatial(p, s, g1, wx);
    SpatialAt(g1, wx, p.bs.nx, i, x);
    assert s.v.d[At(p.bs.nx, i, x)] == s.v.d[..3 * p.bs.nx][At(p.bs.nx, i, x)];
  }

  /**
   * Entry (i, z, y, x) of a kept voxel's full design row is
   * -dvds1[i] * BX[x] * BY[y] * BZ[z] at the voxel: the derivative of the
   * fit minus the object (minus the derivative of the residual) with respect
   * to coefficient (i, z, y, x), where the fit's dependence on the deformed
   * position through the modulation terms tmp * s2 is ignored, as the code
   * does.
   */
  lemma FullEntry(p: Problem, s: Sample, g1: seq<real>, wx: seq<real>, i: nat, z: nat, y: nat, x: nat)
    requires Kept(p, s) && VoxelAt(p, s.x, s.y, s.z) == Some(s.v)
    requires g1 == Pulled(p, s.x, s.y, s.z) && wx == Col(p.bs.BX, D0(p), s.x, p.bs.nx)
    requires i < 3 && z < p.bs.nz && y < p.bs.ny && x < p.bs.nx
    ensures FullRow(p, s)[Index(p.bs.nx, p.bs.ny, p.bs.nz, i, z, y, x)] ==
      Times(Wz(p, s.z)[z], Times(Wy(p, s.y)[y], Times(-g1[i], wx[x])))
  {
    var nx, ny, nz := p.bs.nx, p.bs.ny, p.bs.nz;
    var R := Index(nx, ny, nz, i, z, y, x);
    Assoc3(nx, ny);
    ZLiftEntry(PlaneRow(p, s), Wz(p, s.z), nx, ny, nz, Q(p), R);
    YLiftEntry(s.v.d, Wy(p, s.y), nx, ny, Q(p), i, y, x);
    NarrowEntry(p, s, g1, wx, i, x);
  }

  /** The intensity entries of a full design row are those of the voxel's row. */
  lemma FullIntensity(p: Problem, s: Sample, k: nat)
    requires Kept(p, s) && k < Q(p)
    ensures FullRow(p, s)[Spatials(p) + k] == s.v.d[3 * p.bs.nx + k]
  {
    Assoc3(p.bs.nx, p.bs.ny);
  }

  /** The product identity the symmetriser relies on holds for every full design row. */
  lemma FullRowCanon(p: Problem, s: Sample)
    requires Kept(p, s) && VoxelAt(p, s.x, s.y, s.z) == Some(s.v)
    ensures FullCanon(FullRow(p, s), p.bs.nx, p.bs.ny, p.bs.nz, Q(p))
  {
    var nx := p.bs.nx;
    var g1, wx := Pulled(p, s.x, s.y, s.z), Col(p.bs.BX, D0(p), s.x, nx);
    forall i: nat, x: nat | i < 3 && x < nx
      ensures At(nx, i, x) < |s.v.d| && s.v.d[At(nx, i, x)] == Times(-g1[i], wx[x])
    {
      NarrowEntry(p, s, g1, wx, i, x);
    }
    RankOneCanon(s.v.d, g1, wx, nx);
    YLiftCanon(s.v.d, Wy(p, s.y), nx, p.bs.ny, Q(p));
    Assoc3(nx, p.bs.ny);
    ZLiftCanon(PlaneRow(p, s), Wz(p, s.z), nx, p.bs.ny, p.bs.nz, Q(p));
  }

  lemma AllCanon(p: Problem, S: seq<Sample>)
    requires AllKept(p, S) && Genuine(p, S)
    ensures forall k :: 0 <= k < |S| ==> FullCanon(FullRows(p, S)[k], p.bs.nx, p.bs.ny, p.bs.nz, Q(p))
  {
    forall k | 0 <= k < |S|
      ensures FullCanon(FullRows(p, S)[k], p.bs.nx, p.bs.ny, p.bs.nz, Q(p))
    {
      FullRowCanon(p, S[k]);
    }
  }

  // ---------------------------------------------------------------------
  // One more voxel, row or plane: the steps of the scan loops.
  // ---------------------------------------------------------------------

  /** An accepted voxel is kept with the voxel the model gives it. */
  lemma VisitAccepted(p: Problem, sx: nat, sy: nat, sz: nat, v: Voxel)
    requires InGrid(p, sx, sy, sz) && VoxelAt(p, sx, sy, sz) == Some(v)
    ensures Visit(p, sx, sy, sz) == [Sample(sx, sy, sz, v)]
  {
  }

  /** A voxel out of range is dropped. */
  lemma VisitRejected(p: Problem, sx: nat, sy: nat, sz: nat)
    requires InGrid(p, sx, sy, sz) && VoxelAt(p, sx, sy, sz).None?
    ensures Visit(p, sx, sy, sz) == []
  {
  }

  lemma RowSnoc(p: Problem, sy: nat, sz: nat, xs: seq<nat>, sx: nat)
    requires Valid(p) && sy < D1(p) && sz < D2(p) && Below(xs, D0(p)) && sx < D0(p)
    ensures Below(xs + [sx], D0(p))
    ensures RowSamples(p, sy, sz, xs + [sx]) == RowSamples(p, sy, sz, xs) + Visit(p, sx, sy, sz)
  {
    assert (xs + [sx])[..|xs|] == xs;
  }

  lemma PlaneSnoc(p: Problem, sz: nat, ys: seq<nat>, sy: nat)
    requires Valid(p) && sz < D2(p) && Below(ys, D1(p)) && sy < D1(p)
    ensures Below(ys + [sy], D1(p))
    ensures PlaneSamples(p, sz, ys + [sy]) == PlaneSamples(p, sz, ys) + RowSamples(p, sy, sz, Xs(p))
  {
    assert (ys + [sy])[..|ys|] == ys;
  }

  lemma SamplesSnoc(p: Problem, zs: seq<nat>, sz: nat)
    requires Valid(p) && Below(zs, D2(p)) && sz < D2(p)
    ensures Below(zs + [sz], D2(p))
    ensures Samples(p, zs + [sz]) == Samples(p, zs) + PlaneSamples(p, sz, Ys(p))
  {
    assert (zs + [sz])[..|zs|] == zs;
  }
}
