# spm_brainwarp: the normal equations of a nonlinear spatial normalisation

`spm_brainwarp.c` carries out one Gauss-Newton step of the SPM nonlinear
spatial normalisation. It warps a set of template images onto an object image.
The deformation has three components. Each component is a tensor product of
per-axis bases: the x, y and z basis matrices BX, BY, BZ and their derivatives
dBX, dBY, dBZ. Each template also gets four intensity parameters. `mrqcof`
visits a strided grid of template voxels. For each one it evaluates the
deformation and its Jacobian from their separable form, maps the deformed
position into the object image through the 4x4 affine matrix M, and drops the
voxel when that position falls inside the edge margins. Otherwise it samples
the object there and forms the voxel's design row `dvdt` and residual `dv`.
It then builds the normal equations `alpha = A'A` and `beta = A'b` without
ever forming a full-length row:

- outer products are accumulated per image row;
- the row buffers are lifted into plane buffers with the y basis values (a
  Kronecker product);
- the plane buffers are lifted into the final system with the z basis values.

Only lower triangles are computed, and a final block-nested pass mirrors them
into the upper triangles. `mexFunction` checks its arguments before the call,
clamps the rounded margins and strides, and at the end rescales both outputs
with `scale`.

The model follows the C program's own imperative form:

- The flat heap buffers are Dafny arrays: `alpha`, `beta`, `alphaxy`,
  `betaxy`, `alphax`, `betax`, `Tz`, `Jz`, `Ty`, `Jy` and `dvdt`.
- Every loop nest is a method with loop invariants. Each is proved against
  specification functions over sequences of reals.
- The images are values. The `Volume` datatype holds an image's dimensions
  and its sampler, which stands for `resample_d` at one point.

The central results are:

- `Mrqcof.Mrqcof`: after the call, every entry of `alpha`, in both triangles,
  is the Gram matrix entry of the full design rows of the kept voxels. `beta`
  holds those rows weighted by the residuals, `ss` the residual sum of squares,
  and `nsamp` the number of kept voxels. `alpha` is symmetric and positive
  semi-definite.
- `Scan.AllMember`: a voxel is kept exactly when its coordinates lie on the
  strided grid from 1 and its deformed position is inside the margins.
- `Scan.FullEntry`: each entry of a full row is -dvds1[i]·BX[x]·BY[y]·BZ[z].
  This is the derivative of the fit minus the object (minus the derivative of
  the residual) with respect to that coefficient, with the fit's dependence on
  the deformed position through the modulation terms tmp·s2 ignored, as the
  code does.

The model is organised in these modules:

| module | models |
|---|---|
| Arith | flat-index arithmetic (`At`) and the named real product `Times` |
| Grid | the strided coordinate loops |
| Coords, Layout | how parameter indices split into component and basis coordinates |
| Sums | Gram and cross sums over lists of rows |
| Field | the separable deformation and its Jacobian |
| Design | one voxel's design row, residual and corrected gradient |
| Buffers | zeroing, weighted block additions, block mirrors and `scale` |
| Kronecker | the y and z lifts (the same code with a different block width) |
| Normal, Canon | what the lifts and the symmetriser compute, in terms of Gram sums |
| Scan | the set of kept voxels, in scan order |
| Symmetrise | the mirror pass |
| Mrqcof | the loop nest and its invariants |
| Config | the argument checks, the clamps and the call sequence of `mexFunction` |

## Model

| member | source | states |
|---|---|---|
| Mrqcof.Mrqcof | spm_brainwarp.c:41-432 | alpha holds, in both triangles, the Gram matrix of the full design rows of every kept voxel; beta holds the residual-weighted sum of those rows; ss is the residual sum of squares; nsamp is the number of kept voxels; ss_deriv holds the sums of squares of the three corrected gradient components; alpha is symmetric and positive semi-definite |
| Mrqcof.ScanVolume | spm_brainwarp.c:85-373 | after the zeroing and the plane loop, alpha and beta hold the accumulated triangle and the right-hand side of all planes, and the three tallies count exactly the kept voxels |
| Mrqcof.VolumeVisit | spm_brainwarp.c:95-373 | one plane (z contractions, rows, z-lift) extends the volume state from the planes before sz to the planes up to sz |
| Mrqcof.LiftPlane | spm_brainwarp.c:316-369 | the plane buffers are z-lifted into alpha and beta by the z basis values of plane sz, and nothing else changes |
| Mrqcof.ProcessPlane | spm_brainwarp.c:117-314 | alphaxy and betaxy are zeroed on the lower triangle and then hold the normal equations of the plane's kept voxels, y-lifted, on the y-lift's pattern |
| Mrqcof.PlaneVisit | spm_brainwarp.c:126-314 | one row (y contractions, pixels, y-lift) extends the plane state by that row |
| Mrqcof.ProcessRow | spm_brainwarp.c:150-258 | alphax and betax are zeroed and then hold the Gram matrix (lower triangle) and right-hand side of the row's kept voxels; the tallies count them |
| Mrqcof.RowVisit | spm_brainwarp.c:159-258 | one x step: pixel sx is visited and the row state advances to the pixels up to sx |
| Mrqcof.VisitVoxel | spm_brainwarp.c:161-257 | the row's normal equations and the tallies are extended by Scan.Visit at the pixel: by the voxel that Design.VoxelAt gives when it is in range, by nothing otherwise |
| Mrqcof.Accept | spm_brainwarp.c:193-256 | nsamp grows by exactly one, ss by dv², ss_deriv by the squared corrected gradient, and alphax/betax by the voxel's outer product and residual product |
| Mrqcof.AddOuter | spm_brainwarp.c:244-250 | alphax gains dvdt·dvdt' exactly on and below its diagonal, betax gains dvdt·dv, and the strict upper triangle is unchanged |
| Mrqcof.AddOuterRow | spm_brainwarp.c:247-248 | row x1 of alphax gains dvdt[x1]·dvdt[x2] for x2 <= x1; every other entry is unchanged |
| Mrqcof.Accumulate | spm_brainwarp.c:244-253 | adding one more voxel's outer product to a lower-triangle Gram matrix of rows gives the Gram matrix of the rows with that voxel's row appended |
| Mrqcof.RowAdvance | spm_brainwarp.c:159-258 | visiting grid pixel sx turns the row state over the pixels before sx into the state over the pixels up to sx |
| Mrqcof.PlaneStateStep | spm_brainwarp.c:260-313 | y-lifting a finished row extends the plane state over the rows ys to ys + [sy] |
| Mrqcof.PlaneGramStep | spm_brainwarp.c:263-313 | the y-lift of a row buffer that holds the row's Gram matrix appends the row's y-lifted design rows to the plane's Gram matrix |
| Mrqcof.VolumeStateStep | spm_brainwarp.c:316-369 | z-lifting a finished plane extends the volume state over the planes zs to zs + [sz] |
| Mrqcof.VolumeGramStep | spm_brainwarp.c:319-369 | the z-lift of a plane's Gram matrix appends the plane's full design rows to the volume's, on the accumulated entries |
| Mrqcof.FinalGram | spm_brainwarp.c:85-373 | once every plane is scanned, alpha's lower triangle holds the Gram matrix of the full rows of all kept voxels on the entries the lifts compute, and 0 elsewhere |
| Mrqcof.Totals | spm_brainwarp.c:411-412 | the final beta, ss, nsamp and ss_deriv are the sums over exactly the kept voxels |
| Mrqcof.Finish | spm_brainwarp.c:376-409 | the symmetrised alpha is the whole Gram matrix of the full design rows, in both triangles |
| Mrqcof.AllFullCanon | spm_brainwarp.c:209-213 | every kept voxel's full row has the product symmetry that makes the block mirrors correct |
| Symmetrise.Symmetrise | spm_brainwarp.c:376-409 | every entry of alpha ends up holding the entry at its canonical (accumulated) position in the input |
| Symmetrise.MirrorComponentPair | spm_brainwarp.c:383-405 | one (i1, i2) pass of plane pairs and the component block extends the mirror invariant past that pair |
| Symmetrise.MirrorPlanePair | spm_brainwarp.c:386-401 | one (z1, z2) pass of x blocks and the (y, x) block extends the mirror invariant past that pair |
| Symmetrise.GlobalMirrored | spm_brainwarp.c:407-409 | the whole-matrix mirror completes the pass, so every entry holds its canonical source |
| Symmetrise.CanonTranspose | spm_brainwarp.c:376-409 | entries (R, C) and (C, R) have the same canonical source, which makes the result symmetric |
| Symmetrise.CanonAccumulated | spm_brainwarp.c:376-409 | the canonical source of every entry is an entry the lifts compute |
| Symmetrise.CanonOfAccumulated | spm_brainwarp.c:376-409 | an entry the lifts compute is its own canonical source, so the mirrors never overwrite it with a different value |
| Canon.SymmetrisedGram | spm_brainwarp.c:376-409 | when the accumulated triangle holds the Gram matrix and the rows have the product symmetry, the symmetrised matrix equals the Gram matrix in both triangles |
| Canon.AccumulatedLower | spm_brainwarp.c:260-369 | every entry the two lifts compute lies on or below the diagonal |
| Canon.RankOneCanon | spm_brainwarp.c:209-213 | a narrow row whose spatial part is -g[i]·w[x] has the product symmetry of the x blocks |
| Canon.YLiftCanon | spm_brainwarp.c:263-313 | the y-lift carries that symmetry from narrow rows to plane rows |
| Canon.ZLiftCanon | spm_brainwarp.c:319-369 | the z-lift carries it from plane rows to full rows |
| Kronecker.Lift | spm_brainwarp.c:260-313 | each entry of the lift pattern gains its weighted narrow entry, every other entry keeps its value, and each vector entry gains its weighted narrow entry (the z-stage at 316-369 is the same method with block nx·ny and weights BZ) |
| Kronecker.LiftAxis | spm_brainwarp.c:264-301 | one (y1, i1) iteration adds the spatial-spatial blocks weighted by w[y1]·w[y2], then the intensity-spatial block and the vector block weighted by w[y1] |
| Kronecker.PatternBelowDiagonal | spm_brainwarp.c:271-309 | every entry the lift writes has row >= column |
| Kronecker.PatternReadsBelowDiagonal | spm_brainwarp.c:271-309 | every narrow entry the lift reads has row >= column |
| Kronecker.WidePointerOffset | spm_brainwarp.c:278-284 | the pointer arithmetic of the C loops addresses wide entry (row base + x1, column base + x2) |
| Kronecker.BlockFits | spm_brainwarp.c:278-300 | every narrow block placed at (i, y) lies inside the wide spatial range |
| Normal.GramLift | spm_brainwarp.c:263-313 | the Gram matrix of lifted rows is the narrow Gram matrix at the source entries, weighted by both basis factors |
| Normal.CrossLift | spm_brainwarp.c:298-312 | the residual-weighted sum of lifted rows is the narrow sum weighted by the factor |
| Normal.YLiftStep | spm_brainwarp.c:260-313 | y-lifting a row buffer that holds a Gram matrix appends the lifted rows to the plane buffer's Gram matrix, on the pattern |
| Normal.ZLiftStep | spm_brainwarp.c:316-369 | z-lifting a plane buffer appends the lifted plane rows to the volume's Gram matrix, on the accumulated entries |
| Normal.BetaLiftStep | spm_brainwarp.c:298-312 | lifting a vector that holds the residual-weighted row sum appends the lifted rows and their residuals |
| Normal.FullGramForm | spm_brainwarp.c:33 | the quadratic form of a buffer holding the Gram matrix in both triangles equals the sum of squares of the rows' projections, so it is never negative |
| Normal.FullGramShape | spm_brainwarp.c:407-409 | a buffer holding a Gram matrix in both triangles, as the mirroring leaves alpha, is symmetric and positive semi-definite |
| Normal.OuterStep | spm_brainwarp.c:245-248 | adding the outer product of d to a lower-triangle Gram matrix appends d to its rows |
| Normal.CrossStep | spm_brainwarp.c:249 | adding d·dv to a right-hand side appends d and dv |
| Normal.AccumulatedByStages | spm_brainwarp.c:260-369 | the entries both lifts compute are those on the z-lift's pattern whose sources lie on the y-lift's pattern |
| Layout.SpatialDecode | spm_brainwarp.c:278-300 | every spatial wide index is the encoding of its component, its new-axis basis and its inner offset |
| Layout.BlockOf | spm_brainwarp.c:278-300 | the wide rows covered by the narrow block at (i, y) are exactly the indices that decode to i and y |
| Layout.LiftRow | spm_brainwarp.c:263-313 | a lifted row has the wide width; spatial entries are weighted by the basis value and intensity entries are copied |
| Coords.IndexDecode | spm_brainwarp.c:98-104 | every spatial parameter index is the Index of its component and its (z, y, x) basis coordinates |
| Coords.BaseFits | spm_brainwarp.c:385-393 | the mirror blocks at every level fit inside the spatial range |
| Buffers.ZeroLower | spm_brainwarp.c:85-92 | the lower triangle (diagonal included) of the m x m buffer and the first m vector entries become 0, and the strict upper triangle is unchanged (the same method serves lines 117-124 and 150-157) |
| Buffers.AddBlock | spm_brainwarp.c:281-285 | each entry of the block (only x2 <= x1 when lower) gains wt times its source entry, and every other entry is unchanged |
| Buffers.AddRow | spm_brainwarp.c:283-284 | one row of a block gains wt times its source row, and every other entry is unchanged |
| Buffers.AddVec | spm_brainwarp.c:299-300 | dst[D0 + x] gains wt·src[s0 + x] for x < len, and the rest is unchanged |
| Buffers.AddIntensity | spm_brainwarp.c:303-313 | the intensity-intensity lower triangle and the intensity vector entries are added unweighted, and nothing else changes |
| Buffers.MirrorBlock | spm_brainwarp.c:394-396 | each entry above the block's diagonal takes the value of its transposed partner, and every other entry is unchanged |
| Buffers.MirrorColumn | spm_brainwarp.c:395-396 | the inner x2 loop copies row R0 + x1 into column C0 + x1 above the diagonal, and nothing else changes |
| Buffers.Scale | spm_brainwarp.c:434-439 | the first m entries of dat are multiplied by s and the rest is unchanged |
| Buffers.ScaledInverse | spm_brainwarp.c:434-439 | for s != 0, scaling by s and then by 1/s gives the buffer back |
| Buffers.ScaledTwice | spm_brainwarp.c:434-439 | scaling by s and then by t is scaling by s·t |
| Buffers.ScaledSymmetric | spm_brainwarp.c:604 | a symmetric square buffer stays symmetric when all of it is scaled |
| Design.AssembleMargins | spm_brainwarp.c:192-240 | a kept voxel's design row, residual and corrected gradient do not depend on the margins |
| Design.VoxelAtMargins | spm_brainwarp.c:189-191 | narrowing the margins keeps every voxel that was in range, with the same row, residual and gradient |
| Design.VoxelAt | spm_brainwarp.c:164-240 | Some exactly when the deformed position M·(trans, 1) passes the margins test on all three axes, and then the voxel's design row has width 3nx + 4ni |
| Design.DesignRow | spm_brainwarp.c:183-240 | returns accepted exactly when VoxelAt is Some, and then the row in dvdt, dv and dvds0 are that voxel's; a rejected voxel leaves dvdt alone |
| Design.BuildVoxel | spm_brainwarp.c:193-240 | an accepted voxel's row, dv and dvds0 are those of Assemble |
| Design.FillSpatial | spm_brainwarp.c:209-213 | dvdt[c·nx + x] becomes -dvds1[c]·BX[x] at the voxel, and the intensity part is unchanged |
| Design.FillIntensity | spm_brainwarp.c:215-240 | each template's four entries (t, t·s2[0], t·s2[1], t·s2[2]) follow the 3nx spatial ones; dv is v less their fit with scale1a; each gradient component loses every template's gradient times its modulation |
| Design.FillTemplate | spm_brainwarp.c:216-240 | one pass of the template loop extends the row, the fit and the gradient corrections by one template |
| Design.WriteBlock | spm_brainwarp.c:225-228 | writes one template's block at b and nothing else |
| Design.RowFinished | spm_brainwarp.c:215-240 | after the loop the row is the spatial part followed by the intensity row |
| Design.FitFinished | spm_brainwarp.c:230-233 | after the loop dv is v less the products of every intensity entry with its parameter |
| Design.GradFinished | spm_brainwarp.c:235-239 | after the loop each gradient component has lost every template's correction |
| Design.VoxelParts | spm_brainwarp.c:209-228 | the row of an accepted voxel is -dvds1 times the x basis, followed by the template entries |
| Design.SpatialAt | spm_brainwarp.c:212 | spatial entry (c, x) is -dvds1[c]·BX[x] |
| Design.IntensityAt | spm_brainwarp.c:225-228 | entry j of template i's block is its value, then its value times each coordinate of s2 |
| Field.TransDirect | spm_brainwarp.c:164-170 | coordinate c of the deformed position is the voxel's coordinate plus one (the field accumulator starts at 1.0) plus the sum over every coefficient (z, y, x) of component c of T[Index(c, z, y, x)]·BZ[z]·BY[y]·BX[x] |
| Field.JacobianDirect | spm_brainwarp.c:172-179 | entry (k, c) of the Jacobian is 1 on the diagonal and 0 off it, plus the same sum with the derivative basis (dBX, dBY or dBZ) used on axis k only |
| Field.Separable | spm_brainwarp.c:98-170 | contracting along z, then y, then x gives the sum over every coefficient of the component times the product of its three basis values |
| Field.ZeroField | spm_brainwarp.c:164-180 | with all coefficients zero, trans is (sx + 1, sy + 1, sz + 1) and J is the identity |
| Field.PlaneContract | spm_brainwarp.c:98-115 | Tz holds the field's z contractions and Jz the Jacobian's, with the derivative z basis used in Jacobian row 2 only |
| Field.RowContract | spm_brainwarp.c:129-148 | Ty holds the field's y contractions and Jy the Jacobian's, with the derivative y basis used in Jacobian row 1 only |
| Field.PointField | spm_brainwarp.c:164-180 | trans and J are exactly Trans and Jacobian at the voxel |
| Field.ZLine | spm_brainwarp.c:102-105 | one Tz/Jz entry is the sum over z of coefficient times basis value |
| Field.YLine | spm_brainwarp.c:134-137 | one Ty/Jy entry is the sum over y of plane entry times basis value |
| Field.XLine | spm_brainwarp.c:167-170 | one field or Jacobian value is its start value plus the sum over x of row entry times basis value |
| Field.Col | spm_brainwarp.c:104 | the n basis values at a sample, read from the column-major matrix at dim·k + s |
| Scan.All | spm_brainwarp.c:95-257 | every kept sample is a template voxel whose design row has width 3nx + 4ni |
| Scan.AllMember | spm_brainwarp.c:95-194 | a voxel is kept exactly when each coordinate is 1 plus a multiple of its stride, lies below the template dimension, and its deformed position passes the margins test |
| Scan.OnGrid | spm_brainwarp.c:95-159 | the scan visits exactly the strided points of the template grid |
| Scan.SamplesCount | spm_brainwarp.c:194 | no more voxels are kept than the grid has points |
| Scan.SamplesMargins | spm_brainwarp.c:189-194 | over any list of planes, narrower margins keep at least as many voxels as wider ones |
| Scan.AllMargins | spm_brainwarp.c:189-194 | with every edgeskip entry made smaller or equal, every voxel kept before is still kept, so nsamp never decreases as the margins shrink |
| Scan.VisitGenuine | spm_brainwarp.c:189-195 | visiting a voxel keeps it, with its own voxel, exactly when it is in range |
| Scan.VisitAccepted | spm_brainwarp.c:189-195 | an accepted voxel is kept once, with the voxel the model gives it |
| Scan.VisitRejected | spm_brainwarp.c:189-191 | a voxel out of range is dropped |
| Scan.RowMember | spm_brainwarp.c:159-194 | a row keeps exactly its in-range voxels at its x coordinates |
| Scan.PlaneMember | spm_brainwarp.c:126-194 | a plane keeps exactly its in-range voxels on its rows |
| Scan.FullEntry | spm_brainwarp.c:209-369 | entry (i, z, y, x) of a kept voxel's full row is BZ[z]·(BY[y]·(-dvds1[i]·BX[x])) |
| Scan.FullIntensity | spm_brainwarp.c:303-369 | the intensity entries of a full row are those of the voxel's own row |
| Scan.NarrowSpatial | spm_brainwarp.c:209-213 | the first 3nx entries of a kept voxel's row are the spatial row -dvds1 times the x basis |
| Grid.GridMember | spm_brainwarp.c:95-159 | a coordinate is visited exactly when it lies in [start, limit) and is a whole number of steps from start |
| Grid.GridCount | spm_brainwarp.c:95-159 | the loop runs (limit - start - 1) / step + 1 times when start < limit, and otherwise not at all |
| Grid.GridIncreasing | spm_brainwarp.c:95-159 | visited coordinates strictly increase, so no coordinate is visited twice |
| Grid.GridClose | spm_brainwarp.c:95-159 | the loop stops at the first stride point at or beyond the limit; the coordinates below it are exactly those below the limit |
| Sums.GramSymmetric | spm_brainwarp.c:33-34 | the Gram matrix is symmetric |
| Sums.GramFormSumSq | spm_brainwarp.c:33 | the quadratic form of the Gram matrix A'A at any x equals the sum of squares of the rows' projections onto x, so it is never negative |
| Sums.GramAppend | spm_brainwarp.c:244-248 | the Gram matrix of two appended row lists is the sum of their Gram matrices |
| Sums.CrossAppend | spm_brainwarp.c:249 | the residual-weighted sum of two appended row lists is the sum of the two |
| Sums.SumSqAppend | spm_brainwarp.c:253 | the sum of squares of two appended residual lists is the sum of the two |
| Config.ClampEdge | spm_brainwarp.c:558-560 | the margin is the rounded value when it is >= 0 and 0 when it is negative |
| Config.ClampSamp | spm_brainwarp.c:565-567 | the stride is at least 1 and at least the rounded value, and it is 1 or the rounded value |
| Config.ClampEdgeFixed | spm_brainwarp.c:558-560 | the margin clamp leaves a value unchanged exactly when it is >= 0 |
| Config.ClampSampFixed | spm_brainwarp.c:565-567 | the stride clamp leaves a value unchanged exactly when it is >= 1 |
| Config.ClampIdempotent | spm_brainwarp.c:558-567 | clamping twice is clamping once, for both clamps |
| Config.ClampSampLeast | spm_brainwarp.c:565-567 | the stride is the least value that is at least 1 and at least the rounded value |
| Config.SameDimensions | spm_brainwarp.c:569-573 | true exactly when every template has the first template's dimensions |
| Config.Tests | spm_brainwarp.c:451-573 | there are thirteen tests, one per abort of mexFunction, and no two stop with the same message, so the message names the failing test |
| Config.Build | spm_brainwarp.c:580-582 | the problem handed to mrqcof holds the templates, the single object image, T, M, the six basis matrices and the clamped strides and margins |
| Config.BuildValid | spm_brainwarp.c:483-573 | arguments that pass every test give a problem meeting mrqcof's precondition, with 3nx·ny·nz + 4ni parameters |
| Config.Validate | spm_brainwarp.c:451-573 | succeeds exactly when every test passes, and then returns the problem for mrqcof; otherwise its error is the message of the first failing test |
| Config.ValidateSizes | spm_brainwarp.c:483-573 | the same for the tests after the affine matrix's: the bases, T, fwhm and the template dimensions |
| Config.Fail | spm_brainwarp.c:451-573 | stopping at a failing test whose predecessors all passed reports that test's message as the first failure |
| Config.FirstFailureUnique | spm_brainwarp.c:451-573 | a set of arguments has at most one first failing message |
| Config.Entry | spm_brainwarp.c:443-582 | fails exactly when some test fails, naming the first; otherwise it allocates 3nx·ny·nz + 4ni parameters and returns the problem together with the Gram matrix, right-hand side, residual sum of squares and voxel count that mrqcof fills |
| Config.ScaledGram | spm_brainwarp.c:604 | scaling A by s gives s times the Gram matrix in every entry, and A stays symmetric |
| Config.ScaledCross | spm_brainwarp.c:605 | scaling B by s gives s times every residual-weighted row sum |

## Left out

- MATLAB/MEX plumbing (spm_brainwarp.c:443-480): `mxGetPr`, `mxCreateDoubleMatrix`, `get_maps`/`free_maps`, the `mexErrMsgTxt` aborts and the `mexPrintf` progress dots are foreign API. The arguments arrive as an `Args` value. The type checks of line 465-472 are one boolean parameter. Each abort is an `Err` result naming its message.
- `resample_d` comes from `spm_vol_utils.h`, which is not part of this model. It is a total function field of each `Volume`, taking a point to a value and a gradient.
- `voxdim` and `rint` (spm_brainwarp.c:556-567) read header data and round floating-point values. The model takes the already rounded margins and strides as integer parameters and models the clamps that follow.
- `mxCalloc`/`mxFree`: the scratch buffers are fresh arrays. Their zero initialisation is not relied on, because the code zeroes each buffer before use.
- Floating point: all arithmetic is over Dafny reals. The Gram-matrix equalities hold in exact arithmetic; a C run sums in its own order and rounds. The symmetry of alpha is an exact copy either way.
- C `int` overflow of the size products 3·nx·ny·nz + 4·ni and of the buffer offsets is not modelled; sizes are unbounded naturals.
- The FWHM, degrees-of-freedom and variance computation (spm_brainwarp.c:584-602) uses `sqrt` and `log`. Two hazards sit in it. First, the `MAX` macro at line 441 returns the smaller of its arguments, so each per-axis factor is capped at 1 rather than floored at 1. Second, chi2 or df can be zero (no kept voxels, or nsamp equal to the parameter count), which divides by zero at lines 584-586, 601 and 604-605.
- Config.Entry: stops after mrqcof and does not produce the `var` and `fwhm` outputs. The closing `scale` calls (spm_brainwarp.c:604-605) are modelled on their own: `Buffers.Scale`, `Config.ScaledGram` and `Config.ScaledCross` state what scaling the outputs by any factor does to them.
- Config.Args: only the number of fwhm values is modelled (the test at lines 543-554), not the values themselves, since they only feed `rint` and the FWHM numerics.
- Config.Validate: the "FWHM should contain one or two values." abort and the "Volumes must have same dimensions." abort do not free the maps first, unlike the other aborts. Freeing has no effect in the model.
- The margins test compares the deformed position with the dimensions of the object image (`vol2->dim`, lines 189-191), not with those of the templates. The model follows the code here, although the margin is usually described as measured from the template boundary.
- Mrqcof.Mrqcof: ss_deriv is modelled as the sums of squares of the corrected gradient components, which is what the code accumulates. No further property is stated, since the sums only feed the FWHM formula.
