# Laser odometry of loam_velodyne, modelled in Dafny

This project models `BasicLaserOdometry`, the laser-odometry engine of
loam_velodyne. The engine processes one LiDAR sweep at a time:

- It takes the sharp (edge) and flat (planar) feature points the scan-registration stage extracted.
- It matches them against the previous sweep's reference clouds.
- It refines the sweep-to-sweep transform by Gauss-Newton iterations.
- It folds that transform into the cumulative pose.
- It reprojects the current sweep's less-sharp and less-flat points to the sweep end and keeps them as the next reference.

The model keeps the engine's own shape: a class `Odometry.LaserOdometry` whose
fields are the engine's members and whose methods update them. Each method
is proved against value-level specifications:

| module | file | contents |
|---|---|---|
| `Geometry` | geometry.dfy | points, poses, the intensity encoding (scan ring + relative time), the finite/non-finite increment entry, and the numeric kernels as function-valued parameters |
| `Correspondence` | correspondence.dfy | the per-point index scans of the edge and plane correspondence search, with the arg-min they compute |
| `Selection` | selection.dfy | the per-point weight, the keep/drop rule, and the order in which kept rows fill the two output buffers |
| `Motion` | motion.dfy | reprojection to the sweep start and end, the constant-velocity prior, and accumulation of the cumulative pose |
| `Solver` | solver.dfy | the degeneracy prefix, projection of the increment, the update with per-component reset, and the convergence test |
| `Frames` | frames.dfy | the inputs of one optimisation, the rows one iteration selects, and the iteration log an optimisation must leave behind |
| `Odometry` | odometry.dfy | the engine class and the whole-state transitions of `process` |

The main results:

- A correspondence is the nearest reference point plus the closest eligible point the two ring-window scans visit (first on ties), capped at squared distance 25.
  - Edge partners lie one or two rings away.
  - Plane partners lie on the same side of the ring (the same ring when the reference is sorted by ring) or one or two rings away.
- The selected points and coefficients are exactly the kept corner rows followed by the kept plane rows, in input order.
  - Each kept row had valid indices, a non-zero distance and a weight above 0.1.
  - The weight is 1 before iteration 5.
- An optimisation is a log of iterations:
  - correspondences are refreshed exactly on iterations 0, 5, 10, …;
  - an iteration with fewer than 10 selected points leaves the transform alone;
  - degeneracy is decided once, by iteration 0;
  - the loop stops at `maxIterations` or right after the first converged update;
  - the final transform is the start transform with the applied increments composed in order.
- `process` is a two-state machine on the whole engine state. The first call bootstraps the reference. Every later call is an optimisation (when the reference is large enough) followed by an end-of-sweep transition.

## Model

| member | source | states |
|---|---|---|
| Correspondence.NearestNeighbor | src/lib/BasicLaserOdometry.cpp:578-579 | the KD-tree query returns an index inside the indexed cloud whose squared distance to the query is the minimum over that cloud |
| Correspondence.ForwardEnd | src/lib/BasicLaserOdometry.cpp:608-615 | the forward scan stops at its bound or at the first point more than 2.5 rings above the nearest point's ring, and no point before the stop is above that window |
| Correspondence.BackwardEnd | src/lib/BasicLaserOdometry.cpp:631-636 | the backward scan stops before index 0 or at the first point more than 2.5 rings below, and no point before the stop is below that window |
| Correspondence.EdgeScanForward | src/lib/BasicLaserOdometry.cpp:603-629 | after the forward scan, the running minimum is the closest point on a higher ring among the points visited, below the cap of 25, the earliest visited on ties |
| Correspondence.EdgeScanBackward | src/lib/BasicLaserOdometry.cpp:631-646 | the backward scan continues the same running minimum over points on a lower ring |
| Correspondence.FindEdgeCorrespondence | src/lib/BasicLaserOdometry.cpp:585-653 | both indices are -1 when the nearest squared distance is at least 25; otherwise the first is the nearest index and the second the best adjacent-ring match of both scans, with the forward scan bounded by the reference size |
| Correspondence.PlaneScanForward | src/lib/BasicLaserOdometry.cpp:799-832 | the forward scan keeps two running minima: points at or below the nearest point's ring compete for the second plane point, higher rings for the third |
| Correspondence.PlaneScanBackward | src/lib/BasicLaserOdometry.cpp:834-854 | the backward scan continues both minima: points at or above the ring for the second plane point, lower rings for the third |
| Correspondence.FindPlaneCorrespondence | src/lib/BasicLaserOdometry.cpp:781-858 | all three indices are -1 when the nearest squared distance is at least 25; otherwise the nearest index and the best same-side and adjacent-ring matches of both scans |
| Correspondence.BestMatchFacts | src/lib/BasicLaserOdometry.cpp:608-646 | a chosen point is an in-range index other than the nearest one, closer than 25, inside the ring window of its scan direction, and one or two rings away when it is an adjacent-ring match |
| Correspondence.BestMatchUnique | src/lib/BasicLaserOdometry.cpp:603-646 | the scans determine their result: at most one index is the best match of a role |
| Correspondence.EdgeCorrespondenceFacts | src/lib/BasicLaserOdometry.cpp:585-653 | the -1 rule; a valid second index implies a valid first one, differs from it, lies one or two rings away and is closer than 25 |
| Correspondence.PlaneCorrespondenceFacts | src/lib/BasicLaserOdometry.cpp:781-858 | the -1 rule; valid second and third indices differ from the first; the second lies at or below the first's ring forward and at or above it backward; the third lies one or two rings away; both are closer than 25 |
| Correspondence.SortedRingsGiveSameRing | src/lib/BasicLaserOdometry.cpp:815-847 | when the reference rings ascend with the index, the second plane point lies on the nearest point's ring |
| Correspondence.AsWrittenForwardScanReadsPastEnd | src/lib/BasicLaserOdometry.cpp:606-609 | with the forward scan bounded by the current feature count, 11 reference points and 13 sharp points, the scan reads index 11 of an 11-point reference cloud |
| Correspondence.ForwardReadsInRange | src/lib/BasicLaserOdometry.cpp:606-609 | with the bound capped at the reference size, every index the forward scan reads is inside the reference cloud |
| Selection.EdgeRow | src/lib/BasicLaserOdometry.cpp:531-545 | an edge row is kept exactly when its distance is non-zero and, from iteration 5 on, below 0.5; a kept row's weight lies in (0.1, 1] and its coefficient is the weighted normal and distance |
| Selection.PlaneRow | src/lib/BasicLaserOdometry.cpp:728-744 | a plane row is kept exactly when its distance is non-zero and, from iteration 5 on, below half the point's range; a kept row's weight lies in (0.1, 1] and its coefficient is the weighted normal and distance |
| Selection.ScaledCutoff | src/lib/BasicLaserOdometry.cpp:728-740 | the plane weight 1 − 1.8·a/range exceeds 0.1 exactly when a is below half the range |
| Selection.KeptAppend | src/lib/BasicLaserOdometry.cpp:291-294 | filtering the corner rows followed by the plane rows keeps the corner rows first, each part in its own order |
| Selection.KeptFromInput | src/lib/BasicLaserOdometry.cpp:541-545 | every kept row is one of the input rows that was kept |
| Selection.Origins | src/lib/BasicLaserOdometry.cpp:544 | the selected-point buffer has one entry per kept row, holding that row's original point |
| Selection.Coeffs | src/lib/BasicLaserOdometry.cpp:545 | the coefficient buffer has one entry per kept row, holding that row's coefficient |
| Selection.SelectOneMore | src/lib/BasicLaserOdometry.cpp:541-545 | one more row appends its point and coefficient when it is kept and nothing otherwise |
| Selection.BuffersOneMore | src/lib/BasicLaserOdometry.cpp:541-545 | buffers that held some points before the loop grow by exactly the next row's point and coefficient when it is kept |
| Motion.ToStart | src/lib/BasicLaserOdometry.cpp:42-57 | reprojection to the sweep start keeps the intensity, hence the ring and the relative time |
| Motion.ToEnd | src/lib/BasicLaserOdometry.cpp:64-101 | reprojection to the sweep end sets the intensity to the ring: the ring is kept and the relative time becomes 0 |
| Motion.CloudToEnd | src/lib/BasicLaserOdometry.cpp:59-104 | the reprojected cloud has the size of the input and holds each input point reprojected to the sweep end |
| Motion.VelocityPrior | src/lib/BasicLaserOdometry.cpp:213 | the prior keeps the rotation and moves each translation component back by velocity × scan period |
| Motion.Bootstrap | src/lib/BasicLaserOdometry.cpp:199-200 | the first sweep adds the IMU start pitch to the x rotation and the start roll to the z rotation; the y rotation and the position are unchanged |
| Solver.DegeneratePrefix | src/lib/BasicLaserOdometry.cpp:453-460 | the degenerate directions are the longest prefix of eigenvalues below 10: every eigenvalue before the prefix length is below 10, and the next one, if any, is not |
| Solver.MaskRows | src/lib/BasicLaserOdometry.cpp:445-460 | the masked eigenvector matrix has its first k rows zero and every later row unchanged |
| Solver.Project | src/lib/BasicLaserOdometry.cpp:385-388 | the projected increment is finite exactly when the raw one is; a finite one is the matrix product, and a non-finite entry makes every entry non-finite |
| Solver.ApplyIncrement | src/lib/BasicLaserOdometry.cpp:391-411 | each of the six transform components grows by its increment entry when that entry is finite and is reset to 0 otherwise, independently of the others |
| Solver.ConvergedStepIsSmall | src/lib/BasicLaserOdometry.cpp:414-425 | a converged increment moves every rotation by less than 0.1 degree and every translation by less than 1 mm, and resets no component |
| Frames.CornerMatchedFits | src/lib/BasicLaserOdometry.cpp:585-653 | edge correspondences found for every sharp point index only into the reference cloud |
| Frames.SurfMatchedFits | src/lib/BasicLaserOdometry.cpp:781-858 | plane correspondences found for every flat point index only into the reference cloud |
| Frames.CornerRows | src/lib/BasicLaserOdometry.cpp:482-546 | the corner pass yields one row per sharp point, in point order, each the edge row of that point's correspondence |
| Frames.SurfRows | src/lib/BasicLaserOdometry.cpp:671-745 | the plane pass yields one row per flat point, in point order, each the plane row of that point's correspondence |
| Frames.KeptCornerRowValid | src/lib/BasicLaserOdometry.cpp:488-545 | every kept corner row comes from a sharp point with a valid second corner index, and carries that point |
| Frames.KeptSurfRowValid | src/lib/BasicLaserOdometry.cpp:677-744 | every kept plane row comes from a flat point with valid second and third surface indices, and carries that point |
| Frames.SelectedRowsInOrder | src/lib/BasicLaserOdometry.cpp:286-294 | the buffers, cleared and then filled by the corner pass and the plane pass, hold the kept corner rows followed by the kept plane rows |
| Frames.ExtendIterationsOk | src/lib/BasicLaserOdometry.cpp:284-426 | appending an iteration done right keeps every iteration of the log done right |
| Frames.ExtendChain | src/lib/BasicLaserOdometry.cpp:284-426 | an iteration that starts where the log ended and carries the correspondences between refreshes keeps the log chained and carried, with no early stop |
| Frames.ExtendRun | src/lib/BasicLaserOdometry.cpp:284-426 | one more loop pass extends a run that has not stopped; the first pass fixes the degeneracy decision and the projection |
| Frames.RunIsOptimization | src/lib/BasicLaserOdometry.cpp:284-426 | a run that ended at the iteration cap or right after a converged update is a whole optimisation |
| Frames.FinalIsComposed | src/lib/BasicLaserOdometry.cpp:391-411 | the transform an optimisation ends in is its start with the increments of the solving iterations applied in order; skipped iterations leave no trace |
| Frames.MatchesSinceRefresh | src/lib/BasicLaserOdometry.cpp:472-473 | iteration k uses the correspondences of the last refresh iteration at or before k |
| Frames.MatchesFromLastRefresh | src/lib/BasicLaserOdometry.cpp:661-662 | iteration k's correspondences are the ones searched from the transform of the last refresh iteration at or before k |
| Frames.SkippedStartIsNeverDegenerate | src/lib/BasicLaserOdometry.cpp:280-388 | when iteration 0 selects fewer than 10 points, every later update is applied unprojected |
| Odometry.IsAfterFirstSweep | src/lib/BasicLaserOdometry.cpp:188-205 | a state that agrees field by field with the first-sweep effects is the first-sweep transition |
| Odometry.IsAfterOptimization | src/lib/BasicLaserOdometry.cpp:207-219 | a state that agrees field by field with the sweep count, the prior and the optimisation's effects is the optimisation transition |
| Odometry.IsAfterReference | src/lib/BasicLaserOdometry.cpp:228-270 | a state that agrees field by field with the accumulation, the reprojection, the swap and the gated re-indexing is the end-of-sweep transition |
| Odometry.LaserOdometry.constructor | src/lib/BasicLaserOdometry.cpp:21-40 | a new engine stores its scan period and iteration cap, is not initialised, has counted no sweep and holds zero poses and empty clouds |
| Odometry.LaserOdometry.UpdateIMU | src/lib/BasicLaserOdometry.cpp:164-184 | of the four points, the first gives the start pitch, yaw and roll, the second the end ones, the third the shift and the fourth the velocity |
| Odometry.LaserOdometry.TransformToEnd | src/lib/BasicLaserOdometry.cpp:59-104 | returns the cloud size, keeps the point count, sets each intensity to the point's ring, and reprojects each point to the sweep end |
| Odometry.LaserOdometry.FindCornerCorrespondence | src/lib/BasicLaserOdometry.cpp:550-655 | every sharp point, reprojected to the sweep start, gets its edge correspondence; the inputs and the transform are unchanged |
| Odometry.LaserOdometry.FindPlaneCorrespondence | src/lib/BasicLaserOdometry.cpp:749-860 | every flat point, reprojected to the sweep start, gets its plane correspondence; the inputs and the transform are unchanged |
| Odometry.LaserOdometry.ComputeCornerDistances | src/lib/BasicLaserOdometry.cpp:470-547 | the edge correspondences are searched again exactly when the iteration is a multiple of 5 and kept otherwise; the kept edge rows are appended to the buffers in point order |
| Odometry.LaserOdometry.EdgeTerm | src/lib/BasicLaserOdometry.cpp:485-541 | one sharp point with a second corner point yields its edge row |
| Odometry.LaserOdometry.AppendCornerRows | src/lib/BasicLaserOdometry.cpp:475-546 | the distance loop appends exactly the kept edge rows, in point order |
| Odometry.LaserOdometry.ComputePlaneDistances | src/lib/BasicLaserOdometry.cpp:659-746 | the plane correspondences are searched again exactly when the iteration is a multiple of 5 and kept otherwise; the kept plane rows are appended to the buffers in point order |
| Odometry.LaserOdometry.PlaneTerm | src/lib/BasicLaserOdometry.cpp:674-740 | one flat point with second and third surface points yields its plane row |
| Odometry.LaserOdometry.AppendSurfRows | src/lib/BasicLaserOdometry.cpp:664-745 | the distance loop appends exactly the kept plane rows, in point order |
| Odometry.LaserOdometry.CheckDegeneration | src/lib/BasicLaserOdometry.cpp:430-466 | degenerate exactly when the first eigenvalue is below 10, which holds exactly when the degenerate prefix is non-empty; the projection is V⁻¹ times V with that prefix of rows zeroed |
| Odometry.LaserOdometry.SelectFeatures | src/lib/BasicLaserOdometry.cpp:286-294 | after clearing and both passes, the buffers hold the selected rows of the correspondences in use, which are fresh on refresh iterations and carried otherwise |
| Odometry.LaserOdometry.Iterate | src/lib/BasicLaserOdometry.cpp:286-425 | one loop pass is an iteration done right: it solves only with 10 or more points, decides degeneracy only on iteration 0, and reports convergence exactly on a converged update |
| Odometry.LaserOdometry.OptimizationStep | src/lib/BasicLaserOdometry.cpp:284-426 | one loop pass extends the run so far by one iteration and leaves the buffers, correspondences and transform of that iteration |
| Odometry.LaserOdometry.PerformOptimization | src/lib/BasicLaserOdometry.cpp:274-427 | the iterations run form a whole optimisation from the transform at entry to the transform at exit; the buffers and correspondences are those of the last iteration |
| Odometry.LaserOdometry.Process | src/lib/BasicLaserOdometry.cpp:186-271 | the first call is the first-sweep transition; every later call is a sweep optimisation from the velocity prior, gated on the reference size, followed by the end-of-sweep transition; the KD-trees index the reference whenever the gate passes |
| Odometry.LaserOdometry.FirstSweep | src/lib/BasicLaserOdometry.cpp:188-205 | the first sweep, as a transition of the whole state |
| Odometry.LaserOdometry.BeginSweep | src/lib/BasicLaserOdometry.cpp:207-219 | the sweep count, the prior and the gated optimisation, as a transition of the whole state |
| Odometry.LaserOdometry.EndSweep | src/lib/BasicLaserOdometry.cpp:228-270 | the accumulation, reprojection, swap and gated re-indexing, as a transition of the whole state |
| Odometry.LaserOdometry.OptimizeSweep | src/lib/BasicLaserOdometry.cpp:207-219 | counts the sweep, applies the velocity prior, and optimises only when the reference has more than 10 corner and 100 surface points |
| Odometry.LaserOdometry.StartReference | src/lib/BasicLaserOdometry.cpp:188-205 | swaps the less-sharp and less-flat clouds with the reference, indexes both KD-trees on the new reference, folds the IMU start pitch and roll into the cumulative pose, and marks the engine initialised |
| Odometry.LaserOdometry.NextReference | src/lib/BasicLaserOdometry.cpp:228-270 | accumulates the cumulative pose, reprojects the less-sharp and less-flat clouds to the sweep end and swaps them in as the reference, and re-indexes the KD-trees exactly when the new reference passes the size gate |

## Left out

- Rotations and trigonometry (`rotateZXY`, `rotateYXZ`, `accumulateRotation`, `pluginIMURotation`) are kernel functions passed in as parameters. The arithmetic around them is modelled; their float trigonometry is not. math_utils.h and Transform.hpp are not part of this model.
- The residual geometry (cross products, norms, square roots) and the point range are kernel functions. A residual is a normal and a distance; a range is a non-negative real.
- The linear algebra (Jacobian rows, `AᵗA`, `Aᵗb`, the QR solve, the eigen decomposition, the matrix inverse) is kernel functions. Only what the engine decides from their results is modelled.
- `pcl::removeNaNFromPointCloud` on the sharp points and the reference corner cloud is left out: the model's coordinates are reals and cannot be NaN.
- The KD-tree is the cloud it was last built on, and a query returns its first nearest point. FLANN's tie-breaking and approximate search are not modelled.
- Single-precision rounding is not modelled: coordinates, distances and weights are reals, and the float constants (1.8, 0.1, 2.5, 25, 1.05) are exact.
  - The one non-finite case modelled is the increment entry, because the reset rule depends on it.
  - A plane point at range 0 is dropped from iteration 5 on, which is what its infinite or NaN weight does.
  - NaN residual distances are not modelled.
- Integer widths are not modelled: counters, sizes and indices are unbounded.
- The scan period is a positive real. The engine divides by it and never checks it.
- `_laserCloud` is never used by the modelled functions and is not part of the state.
- `matP` starts uninitialised in the engine and as the zero matrix in the model. The value is never read, because the projection is used only after `checkDegeneration` has set it.
- The header's accessors for the feature clouds are not part of this model. `Odometry.LaserOdometry.SetFeatures` stands for the setters of the four feature clouds.
- Point clouds are held by shared pointers in the engine and as sequence values in the model.
  - A swap exchanges two values.
  - `transformToEnd` and the distance loops build the new cloud or buffer locally and store it back, instead of updating it in place.
  - Aliasing between clouds is not modelled.
- Odometry.LaserOdometry.FindCornerCorrespondence and Odometry.LaserOdometry.FindPlaneCorrespondence bound the forward scan by the reference cloud size, not by the current feature count as written (see Findings).
- The precondition of `Odometry.LaserOdometry.UpdateIMU` (exactly four points) is the engine's own `assert`.

## Findings

| source | as written | input that shows it | evidently intended | confidence | as-written member | corrected member |
|---|---|---|---|---|---|---|
| src/lib/BasicLaserOdometry.cpp:608 | the forward scan of `findCornerCorrespondence` runs `j` up to the current sweep's sharp-point count; `findPlaneCorrespondence` at line 806 runs it up to the flat-point count | a reference corner cloud of 11 points on ring 0, 13 sharp points, nearest neighbour at index 10: the scan reads reference index 11, past the end; with fewer current points than reference points it stops early and misses candidates | bound the scan by the reference cloud size, as the comments at lines 606-607 and 804-805 say | high for the out-of-range read, not executed | Correspondence.AsWrittenForwardScanReadsPastEnd | Correspondence.ForwardReadsInRange |
