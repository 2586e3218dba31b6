/**
 * The laser-odometry engine `BasicLaserOdometry`: per sweep it matches the
 * sharp and flat feature points of the current sweep against the previous
 * sweep's reference clouds, refines the sweep-to-sweep transform by
 * Gauss-Newton iterations, folds it into the cumulative pose and turns the
 * current sweep's less-sharp and less-flat points into the next reference.
 */
module Odometry {
  import opened Geometry
  import opened Correspondence
  import opened Selection
  import opened Motion
  import opened Solver
  import opened Frames

  /** The optimisation runs only against reference clouds larger than these. */
  const MinCornerReference: nat := 10
  const MinSurfaceReference: nat := 100

  /** Whether reference clouds of these sizes are large enough to optimise against. */
  predicate LargeReference(corner: seq<Point>, surface: seq<Point>)
  {
    |corner| > MinCornerReference && |surface| > MinSurfaceReference
  }

  /** Everything a `LaserOdometry` holds between two calls of `process`, as one value. */
  datatype EngineState = EngineState(
    systemInited: bool, frameCount: nat, transform: Pose, transformSum: Pose, imu: Imu,
    cornerPointsSharp: seq<Point>, cornerPointsLessSharp: seq<Point>,
    surfPointsFlat: seq<Point>, surfPointsLessFlat: seq<Point>,
    lastCornerCloud: seq<Point>, lastSurfaceCloud: seq<Point>,
    laserCloudOri: seq<Point>, coeffSel: seq<Point>, matches: Matches,
    lastCornerKDTree: seq<Point>, lastSurfaceKDTree: seq<Point>)

  /** Whenever the optimisation may run, the KD-trees index the reference clouds. */
  predicate IndexValid(s: EngineState)
  {
    s.systemInited && LargeReference(s.lastCornerCloud, s.lastSurfaceCloud) ==>
      s.lastCornerKDTree == s.lastCornerCloud && s.lastSurfaceKDTree == s.lastSurfaceCloud
  }

  /**
   * The first sweep: the less-sharp and less-flat clouds are swapped with
   * the (empty) reference, both KD-trees are built on the new reference,
   * and the IMU start pitch and roll enter the cumulative pose.
   */
  function AfterFirstSweep(s: EngineState): EngineState
  {
    s.(systemInited := true,
       transformSum := Bootstrap(s.transformSum, s.imu),
       cornerPointsLessSharp := s.lastCornerCloud, lastCornerCloud := s.cornerPointsLessSharp,
       surfPointsLessFlat := s.lastSurfaceCloud, lastSurfaceCloud := s.surfPointsLessFlat,
       lastCornerKDTree := s.cornerPointsLessSharp, lastSurfaceKDTree := s.surfPointsLessFlat)
  }

  /** A state that agrees field by field with the first-sweep transition is that transition. */
  lemma IsAfterFirstSweep(s: EngineState, t: EngineState)
    requires t.systemInited && t.frameCount == s.frameCount && t.transform == s.transform
    requires t.transformSum == Bootstrap(s.transformSum, s.imu) && t.imu == s.imu
    requires t.cornerPointsSharp == s.cornerPointsSharp && t.surfPointsFlat == s.surfPointsFlat
    requires t.cornerPointsLessSharp == s.lastCornerCloud && t.lastCornerCloud == s.cornerPointsLessSharp
    requires t.surfPointsLessFlat == s.lastSurfaceCloud && t.lastSurfaceCloud == s.surfPointsLessFlat
    requires t.laserCloudOri == s.laserCloudOri && t.coeffSel == s.coeffSel && t.matches == s.matches
    requires t.lastCornerKDTree == s.cornerPointsLessSharp && t.lastSurfaceKDTree == s.surfPointsLessFlat
    ensures t == AfterFirstSweep(s)
  {
  }

  /** What the optimisation of a later sweep reads. */
  function SweepInputs(kernel: Kernel, period: Period, s: EngineState): Sweep
  {
    Sweep(kernel, period, s.cornerPointsSharp, s.surfPointsFlat,
          s.lastCornerCloud, s.lastSurfaceCloud, s.lastCornerKDTree, s.lastSurfaceKDTree)
  }

  /**
   * The iterations `log` are those a later sweep from `s` may run: a whole
   * optimisation from the constant-velocity prior when the reference is
   * large enough, and none otherwise.
   */
  ghost predicate SweepOptimization(kernel: Kernel, period: Period, maxIterations: nat,
                                    s: EngineState, log: seq<Iteration>)
  {
    var prior := VelocityPrior(s.transform, s.imu, period);
    if LargeReference(s.lastCornerCloud, s.lastSurfaceCloud) then
      OptimizationLog(SweepInputs(kernel, period, s), maxIterations, prior, log, Final(prior, log))
    else
      log == []
  }

  /**
   * The state after counting a later sweep and running the iterations
   * `log` from the constant-velocity prior: the transform they end in, and
   * the buffers and correspondences of the last one.
   */
  function AfterOptimization(period: Period, s: EngineState, log: seq<Iteration>): EngineState
  {
    var transform := Final(VelocityPrior(s.transform, s.imu, period), log);
    if |log| == 0 then
      s.(frameCount := s.frameCount + 1, transform := transform)
    else
      var last := log[|log| - 1];
      s.(frameCount := s.frameCount + 1, transform := transform,
         laserCloudOri := last.ori, coeffSel := last.coeff, matches := last.matches)
  }

  /**
   * The end of a later sweep: the transform is folded into the cumulative
   * pose; the less-sharp and less-flat clouds, reprojected to the sweep
   * end, are swapped in as the next reference; the KD-trees are rebuilt
   * only when that reference is large enough.
   */
  function AfterReference(kernel: Kernel, period: Period, s: EngineState): EngineState
  {
    var corner := CloudToEnd(kernel, period, s.transform, s.imu, s.cornerPointsLessSharp);
    var surface := CloudToEnd(kernel, period, s.transform, s.imu, s.surfPointsLessFlat);
    var large := LargeReference(corner, surface);
    s.(transformSum := Accumulate(kernel, s.transformSum, s.transform, s.imu),
       cornerPointsLessSharp := s.lastCornerCloud, lastCornerCloud := corner,
       surfPointsLessFlat := s.lastSurfaceCloud, lastSurfaceCloud := surface,
       lastCornerKDTree := if large then corner else s.lastCornerKDTree,
       lastSurfaceKDTree := if large then surface else s.lastSurfaceKDTree)
  }
  /** A state that agrees field by field with the optimisation transition is that transition. */
  lemma IsAfterOptimization(period: Period, s: EngineState, log: seq<Iteration>, t: EngineState)
    requires t.systemInited == s.systemInited && t.frameCount == s.frameCount + 1
    requires t.transform == Final(VelocityPrior(s.transform, s.imu, period), log)
    requires t.transformSum == s.transformSum && t.imu == s.imu
    requires t.cornerPointsSharp == s.cornerPointsSharp && t.surfPointsFlat == s.surfPointsFlat
    requires t.cornerPointsLessSharp == s.cornerPointsLessSharp && t.lastCornerCloud == s.lastCornerCloud
    requires t.surfPointsLessFlat == s.surfPointsLessFlat && t.lastSurfaceCloud == s.lastSurfaceCloud
    requires t.lastCornerKDTree == s.lastCornerKDTree && t.lastSurfaceKDTree == s.lastSurfaceKDTree
    requires |log| > 0 ==>
               var last := log[|log| - 1];
               t.laserCloudOri == last.ori && t.coeffSel == last.coeff && t.matches == last.matches
    requires |log| == 0 ==>
               t.laserCloudOri == s.laserCloudOri && t.coeffSel == s.coeffSel && t.matches == s.matches
    ensures t == AfterOptimization(period, s, log)
  {
  }

  /** A state that agrees field by field with the end-of-sweep transition is that transition. */
  lemma IsAfterReference(kernel: Kernel, period: Period, s: EngineState, t: EngineState)
    requires t.systemInited == s.systemInited && t.frameCount == s.frameCount
    requires t.transform == s.transform && t.imu == s.imu
    requires t.transformSum == Accumulate(kernel, s.transformSum, s.transform, s.imu)
    requires t.cornerPointsSharp == s.cornerPointsSharp && t.surfPointsFlat == s.surfPointsFlat
    requires t.lastCornerCloud == CloudToEnd(kernel, period, s.transform, s.imu, s.cornerPointsLessSharp)
    requires t.cornerPointsLessSharp == s.lastCornerCloud
    requires t.lastSurfaceCloud == CloudToEnd(kernel, period, s.transform, s.imu, s.surfPointsLessFlat)
    requires t.surfPointsLessFlat == s.lastSurfaceCloud
    requires t.laserCloudOri == s.laserCloudOri && t.coeffSel == s.coeffSel && t.matches == s.matches
    requires LargeReference(t.lastCornerCloud, t.lastSurfaceCloud) ==>
               t.lastCornerKDTree == t.lastCornerCloud && t.lastSurfaceKDTree == t.lastSurfaceCloud
    requires !LargeReference(t.lastCornerCloud, t.lastSurfaceCloud) ==>
               t.lastCornerKDTree == s.lastCornerKDTree && t.lastSurfaceKDTree == s.lastSurfaceKDTree
    ensures t == AfterReference(kernel, period, s)
  {
  }


  class LaserOdometry {
    const scanPeriod: Period
    const maxIterations: nat
    /** The numeric kernels (rotations, residual geometry, linear algebra). */
    const kernel: Kernel

    var systemInited: bool
    var frameCount: nat
    /** Sweep-to-sweep transform, refined by the optimisation. */
    var transform: Pose
    /** Cumulative pose of the sweep end in the world frame. */
    var transformSum: Pose
    var imu: Imu

    var cornerPointsSharp: seq<Point>
    var cornerPointsLessSharp: seq<Point>
    var surfPointsFlat: seq<Point>
    var surfPointsLessFlat: seq<Point>
    var lastCornerCloud: seq<Point>
    var lastSurfaceCloud: seq<Point>
    /** Selected points and their coefficients, in parallel. */
    var laserCloudOri: seq<Point>
    var coeffSel: seq<Point>

    var pointSearchCornerInd1: seq<int>
    var pointSearchCornerInd2: seq<int>
    var pointSearchSurfInd1: seq<int>
    var pointSearchSurfInd2: seq<int>
    var pointSearchSurfInd3: seq<int>

    /** The clouds the two KD-trees were last built on. */
    var lastCornerKDTree: seq<Point>
    var lastSurfaceKDTree: seq<Point>

    /** The size gate on the reference clouds (more than 10 corner, more than 100 surface points). */
    predicate ReferenceLarge()
      reads this`lastCornerCloud, this`lastSurfaceCloud
    {
      LargeReference(lastCornerCloud, lastSurfaceCloud)
    }

    /** Whenever the optimisation may run, the KD-trees index the current reference clouds. */
    predicate Valid()
      reads this`systemInited, this`lastCornerCloud, this`lastSurfaceCloud,
            this`lastCornerKDTree, this`lastSurfaceKDTree
    {
      systemInited && ReferenceLarge() ==>
        lastCornerKDTree == lastCornerCloud && lastSurfaceKDTree == lastSurfaceCloud
    }

    /** The whole state, as one value. */
    function State(): EngineState
      reads this
    {
      EngineState(systemInited, frameCount, transform, transformSum, imu,
                  cornerPointsSharp, cornerPointsLessSharp, surfPointsFlat, surfPointsLessFlat,
                  lastCornerCloud, lastSurfaceCloud, laserCloudOri, coeffSel, CurrentMatches(),
                  lastCornerKDTree, lastSurfaceKDTree)
    }

    /** What an optimisation reads and never changes. */
    function Inputs(): Sweep
      reads this`cornerPointsSharp, this`surfPointsFlat, this`lastCornerCloud,
            this`lastSurfaceCloud, this`lastCornerKDTree, this`lastSurfaceKDTree
    {
      Sweep(kernel, scanPeriod, cornerPointsSharp, surfPointsFlat,
            lastCornerCloud, lastSurfaceCloud, lastCornerKDTree, lastSurfaceKDTree)
    }

    function CurrentMatches(): Matches
      reads this`pointSearchCornerInd1, this`pointSearchCornerInd2,
            this`pointSearchSurfInd1, this`pointSearchSurfInd2, this`pointSearchSurfInd3
    {
      Matches(pointSearchCornerInd1, pointSearchCornerInd2,
              pointSearchSurfInd1, pointSearchSurfInd2, pointSearchSurfInd3)
    }

    constructor(scanPeriod: Period, maxIterations: nat, kernel: Kernel)
      ensures this.scanPeriod == scanPeriod && this.maxIterations == maxIterations
      ensures this.kernel == kernel
      ensures !systemInited && frameCount == 0
      ensures transform == ZeroPose && transformSum == ZeroPose && imu == ZeroImu
      ensures cornerPointsSharp == [] && cornerPointsLessSharp == []
      ensures surfPointsFlat == [] && surfPointsLessFlat == []
      ensures lastCornerCloud == [] && lastSurfaceCloud == []
      ensures laserCloudOri == [] && coeffSel == []
      ensures CurrentMatches() == Matches([], [], [], [], [])
      ensures lastCornerKDTree == [] && lastSurfaceKDTree == []
      ensures Valid()
    {
      this.scanPeriod := scanPeriod;
      this.maxIterations := maxIterations;
      this.kernel := kernel;
      systemInited := false;
      frameCount := 0;
      transform := ZeroPose;
      transformSum := ZeroPose;
      imu := ZeroImu;
      cornerPointsSharp := [];
      cornerPointsLessSharp := [];
      surfPointsFlat := [];
      surfPointsLessFlat := [];
      lastCornerCloud := [];
      lastSurfaceCloud := [];
      laserCloudOri := [];
      coeffSel := [];
      pointSearchCornerInd1 := [];
      pointSearchCornerInd2 := [];
      pointSearchSurfInd1 := [];
      pointSearchSurfInd2 := [];
      pointSearchSurfInd3 := [];
      lastCornerKDTree := [];
      lastSurfaceKDTree := [];
    }

    /** The caller hands over the four feature clouds of a new sweep. */
    method SetFeatures(sharp: seq<Point>, lessSharp: seq<Point>, flat: seq<Point>, lessFlat: seq<Point>)
      modifies this`cornerPointsSharp, this`cornerPointsLessSharp,
               this`surfPointsFlat, this`surfPointsLessFlat
      ensures cornerPointsSharp == sharp && cornerPointsLessSharp == lessSharp
      ensures surfPointsFlat == flat && surfPointsLessFlat == lessFlat
    {
      cornerPointsSharp := sharp;
      cornerPointsLessSharp := lessSharp;
      surfPointsFlat := flat;
      surfPointsLessFlat := lessFlat;
    }

    /**
     * `updateIMU`: the four points are the IMU start angles (pitch, yaw,
     * roll), the current angles, the shift and the velocity since the
     * sweep start.
     */
    method UpdateIMU(imuTrans: seq<Vec3>)
      requires |imuTrans| == 4
      modifies this`imu
      ensures imu.pitchStart == imuTrans[0].x && imu.yawStart == imuTrans[0].y
      ensures imu.rollStart == imuTrans[0].z
      ensures imu.pitchEnd == imuTrans[1].x && imu.yawEnd == imuTrans[1].y
      ensures imu.rollEnd == imuTrans[1].z
      ensures imu.shiftFromStart == imuTrans[2] && imu.veloFromStart == imuTrans[3]
    {
      imu := imu.(pitchStart := imuTrans[0].x, yawStart := imuTrans[0].y, rollStart := imuTrans[0].z);
      imu := imu.(pitchEnd := imuTrans[1].x, yawEnd := imuTrans[1].y, rollEnd := imuTrans[1].z);
      imu := imu.(shiftFromStart := imuTrans[2]);
      imu := imu.(veloFromStart := imuTrans[3]);
    }

    /**
     * `transformToEnd` on a copy of `cloud`: every point is reprojected in
     * place to the sweep end; the size is returned.
     */
    method TransformToEnd(cloud: seq<Point>) returns (transformed: seq<Point>, cloudSize: nat)
      ensures cloudSize == |cloud| && |transformed| == |cloud|
      ensures forall i :: 0 <= i < |cloud| ==> transformed[i].intensity == Ring(cloud[i]) as real
      ensures transformed == CloudToEnd(kernel, scanPeriod, transform, imu, cloud)
    {
      cloudSize := |cloud|;
      transformed := cloud;
      var i := 0;
      while i < cloudSize
        invariant 0 <= i <= cloudSize && |transformed| == cloudSize
        invariant forall j :: 0 <= j < i ==>
                    transformed[j] == ToEnd(kernel, scanPeriod, transform, imu, cloud[j])
        invariant forall j :: i <= j < cloudSize ==> transformed[j] == cloud[j]
      {
        transformed := transformed[i := ToEnd(kernel, scanPeriod, transform, imu, transformed[i])];
        i := i + 1;
      }
    }

    /**
     * `findCornerCorrespondence`: for every sharp point, reprojected to the
     * sweep start, the nearest reference corner and a second corner on a
     * neighbouring ring. The forward scans stop at the end of the reference
     * cloud.
     */
    method FindCornerCorrespondence()
      requires Valid() && systemInited && ReferenceLarge()
      modifies this`pointSearchCornerInd1, this`pointSearchCornerInd2
      ensures Inputs() == old(Inputs()) && transform == old(transform)
      ensures CornerMatched(Inputs(), transform, pointSearchCornerInd1, pointSearchCornerInd2)
    {
      ghost var w := Inputs();
      var cornerPointsSharpNum := |cornerPointsSharp|;
      var ind1: seq<int> := [];
      var ind2: seq<int> := [];
      var i := 0;
      while i < cornerPointsSharpNum
        invariant 0 <= i <= cornerPointsSharpNum && |ind1| == i && |ind2| == i
        invariant forall k :: 0 <= k < i ==> CornerMatchedAt(w, transform, k, ind1[k], ind2[k])
      {
        var pointSel := ToStart(kernel, scanPeriod, transform, cornerPointsSharp[i]);
        var nn := NearestNeighbor(lastCornerKDTree, pointSel);
        var closest, second := Correspondence.FindEdgeCorrespondence(lastCornerCloud, pointSel, nn, |lastCornerCloud|);
        assert CornerMatchedAt(w, transform, i, closest, second);
        ind1 := ind1 + [closest];
        ind2 := ind2 + [second];
        i := i + 1;
      }
      pointSearchCornerInd1 := ind1;
      pointSearchCornerInd2 := ind2;
    }

    /**
     * `findPlaneCorrespondence`: for every flat point, the nearest reference
     * surface point, a second one on the same ring and a third on a
     * neighbouring ring.
     */
    method FindPlaneCorrespondence()
      requires Valid() && systemInited && ReferenceLarge()
      modifies this`pointSearchSurfInd1, this`pointSearchSurfInd2, this`pointSearchSurfInd3
      ensures Inputs() == old(Inputs()) && transform == old(transform)
      ensures SurfMatched(Inputs(), transform, pointSearchSurfInd1, pointSearchSurfInd2, pointSearchSurfInd3)
    {
      ghost var w := Inputs();
      var surfPointsFlatNum := |surfPointsFlat|;
      var ind1: seq<int> := [];
      var ind2: seq<int> := [];
      var ind3: seq<int> := [];
      var i := 0;
      while i < surfPointsFlatNum
        invariant 0 <= i <= surfPointsFlatNum && |ind1| == i && |ind2| == i && |ind3| == i
        invariant forall k :: 0 <= k < i ==> SurfMatchedAt(w, transform, k, ind1[k], ind2[k], ind3[k])
      {
        var pointSel := ToStart(kernel, scanPeriod, transform, surfPointsFlat[i]);
        var nn := NearestNeighbor(lastSurfaceKDTree, pointSel);
        var closest, sameRing, otherRing :=
          Correspondence.FindPlaneCorrespondence(lastSurfaceCloud, pointSel, nn, |lastSurfaceCloud|);
        assert SurfMatchedAt(w, transform, i, closest, sameRing, otherRing);
        ind1 := ind1 + [closest];
        ind2 := ind2 + [sameRing];
        ind3 := ind3 + [otherRing];
        i := i + 1;
      }
      pointSearchSurfInd1 := ind1;
      pointSearchSurfInd2 := ind2;
      pointSearchSurfInd3 := ind3;
    }

    /**
     * `computeCornerDistances`: refresh the edge correspondences on every
     * fifth iteration, then append the selected edge rows, in point order,
     * to the selected points and coefficients.
     */
    method ComputeCornerDistances(iterCount: nat)
      requires Valid() && systemInited && ReferenceLarge()
      requires iterCount % RefreshInterval != 0 ==>
                 CornerIndicesFit(Inputs(), pointSearchCornerInd1, pointSearchCornerInd2)
      modifies this`pointSearchCornerInd1, this`pointSearchCornerInd2, this`laserCloudOri, this`coeffSel
      ensures Inputs() == old(Inputs()) && transform == old(transform)
      ensures iterCount % RefreshInterval == 0 ==>
                CornerMatched(Inputs(), transform, pointSearchCornerInd1, pointSearchCornerInd2)
      ensures iterCount % RefreshInterval != 0 ==>
                pointSearchCornerInd1 == old(pointSearchCornerInd1)
                && pointSearchCornerInd2 == old(pointSearchCornerInd2)
      ensures CornerIndicesFit(Inputs(), pointSearchCornerInd1, pointSearchCornerInd2)
      ensures var rows := CornerRows(Inputs(), iterCount, transform,
                                     pointSearchCornerInd1, pointSearchCornerInd2);
              laserCloudOri == old(laserCloudOri) + Origins(Kept(rows))
              && coeffSel == old(coeffSel) + Coeffs(Kept(rows))
    {
      if iterCount % RefreshInterval == 0 {
        FindCornerCorrespondence();
        CornerMatchedFits(Inputs(), transform, pointSearchCornerInd1, pointSearchCornerInd2);
      }
      AppendCornerRows(iterCount);
    }

    /**
     * One sharp point of the distance loop of `computeCornerDistances`:
     * the point reprojected to the sweep start, its edge residual against
     * the two corner points, the weight, and the row that is appended when
     * the weight is above 0.1 and the distance is non-zero.
     */
    method EdgeTerm(iterCount: nat, t: Pose, sharp: seq<Point>, reference: seq<Point>,
                    ind1: seq<int>, ind2: seq<int>, i: nat, ghost w: Sweep)
      returns (row: Option<Selected>)
      requires w.kernel == kernel && w.period == scanPeriod
      requires w.sharp == sharp && w.lastCorner == reference
      requires CornerIndicesFit(w, ind1, ind2) && i < |sharp| && ind2[i] >= 0
      ensures row == CornerRow(w, iterCount, t, ind1, ind2, i)
    {
      var pointSel := ToStart(kernel, scanPeriod, t, sharp[i]);
      var tripod1 := reference[ind1[i]];
      var tripod2 := reference[ind2[i]];
      var r := kernel.edgeResidual(Position(pointSel), Position(tripod1), Position(tripod2));
      var s := if iterCount < FullWeightIterations then 1.0
               else 1.0 - WeightSlope * Abs(r.distance);
      if s <= WeightCutoff || r.distance == 0.0 {
        row := None;
      } else {
        row := Some(Selected(sharp[i], Coefficient(s, r)));
      }
    }

    /**
     * The distance loop of `computeCornerDistances`: for every sharp point
     * with a second corner, the edge residual against its two corners, the
     * weight, and the point and coefficient appended when kept.
     */
    method AppendCornerRows(iterCount: nat)
      requires CornerIndicesFit(Inputs(), pointSearchCornerInd1, pointSearchCornerInd2)
      modifies this`laserCloudOri, this`coeffSel
      ensures Inputs() == old(Inputs()) && transform == old(transform)
      ensures var rows := CornerRows(Inputs(), iterCount, transform,
                                     pointSearchCornerInd1, pointSearchCornerInd2);
              laserCloudOri == old(laserCloudOri) + Origins(Kept(rows))
              && coeffSel == old(coeffSel) + Coeffs(Kept(rows))
    {
      ghost var w := Inputs();
      var t, sharp, reference := transform, cornerPointsSharp, lastCornerCloud;
      var ind1, ind2 := pointSearchCornerInd1, pointSearchCornerInd2;
      var ori, coeffs := laserCloudOri, coeffSel;
      ghost var ori0, coeffs0 := ori, coeffs;
      ghost var rows := CornerRows(w, iterCount, t, ind1, ind2);
      var cornerPointsSharpNum := |sharp|;
      var i := 0;
      assert rows[..0] == [];
      while i < cornerPointsSharpNum
        invariant 0 <= i <= cornerPointsSharpNum
        invariant ori == ori0 + Origins(Kept(rows[..i]))
        invariant coeffs == coeffs0 + Coeffs(Kept(rows[..i]))
      {
        assert rows[i] == CornerRow(w, iterCount, t, ind1, ind2, i);
        BuffersOneMore(ori0, coeffs0, rows, i);
        if ind2[i] >= 0 {
          var row := EdgeTerm(iterCount, t, sharp, reference, ind1, ind2, i, w);
          if row.Some? {
            ori := ori + [row.value.point];
            coeffs := coeffs + [row.value.coeff];
          }
        } else {
          assert rows[i] == None;
        }
        i := i + 1;
      }
      assert rows[..i] == rows;
      laserCloudOri, coeffSel := ori, coeffs;
    }

    /**
     * `computePlaneDistances`: refresh the plane correspondences on every
     * fifth iteration, then append the selected plane rows, in point order.
     */
    method ComputePlaneDistances(iterCount: nat)
      requires Valid() && systemInited && ReferenceLarge()
      requires iterCount % RefreshInterval != 0 ==>
                 SurfIndicesFit(Inputs(), pointSearchSurfInd1, pointSearchSurfInd2, pointSearchSurfInd3)
      modifies this`pointSearchSurfInd1, this`pointSearchSurfInd2, this`pointSearchSurfInd3,
               this`laserCloudOri, this`coeffSel
      ensures Inputs() == old(Inputs()) && transform == old(transform)
      ensures iterCount % RefreshInterval == 0 ==>
                SurfMatched(Inputs(), transform, pointSearchSurfInd1, pointSearchSurfInd2, pointSearchSurfInd3)
      ensures iterCount % RefreshInterval != 0 ==>
                pointSearchSurfInd1 == old(pointSearchSurfInd1)
                && pointSearchSurfInd2 == old(pointSearchSurfInd2)
                && pointSearchSurfInd3 == old(pointSearchSurfInd3)
      ensures SurfIndicesFit(Inputs(), pointSearchSurfInd1, pointSearchSurfInd2, pointSearchSurfInd3)
      ensures var rows := SurfRows(Inputs(), iterCount, transform,
                                   pointSearchSurfInd1, pointSearchSurfInd2, pointSearchSurfInd3);
              laserCloudOri == old(laserCloudOri) + Origins(Kept(rows))
              && coeffSel == old(coeffSel) + Coeffs(Kept(rows))
    {
      if iterCount % RefreshInterval == 0 {
        FindPlaneCorrespondence();
        SurfMatchedFits(Inputs(), transform, pointSearchSurfInd1, pointSearchSurfInd2, pointSearchSurfInd3);
      }
      AppendSurfRows(iterCount);
    }

    /**
     * One flat point of the distance loop of `computePlaneDistances`: the
     * point reprojected to the sweep start, its plane residual against the
     * three surface points, its range, the weight, and the row that is
     * appended when the weight is above 0.1 and the distance is non-zero.
     */
    method PlaneTerm(iterCount: nat, t: Pose, flat: seq<Point>, reference: seq<Point>,
                     ind1: seq<int>, ind2: seq<int>, ind3: seq<int>, i: nat, ghost w: Sweep)
      returns (row: Option<Selected>)
      requires w.kernel == kernel && w.period == scanPeriod
      requires w.flat == flat && w.lastSurface == reference
      requires SurfIndicesFit(w, ind1, ind2, ind3) && i < |flat| && ind2[i] >= 0 && ind3[i] >= 0
      ensures row == SurfRow(w, iterCount, t, ind1, ind2, ind3, i)
    {
      var pointSel := ToStart(kernel, scanPeriod, t, flat[i]);
      var tripod1 := reference[ind1[i]];
      var tripod2 := reference[ind2[i]];
      var tripod3 := reference[ind3[i]];
      var r := kernel.planeResidual(Position(pointSel), Position(tripod1),
                                    Position(tripod2), Position(tripod3));
      var range := kernel.range(Position(pointSel));
      // From iteration 5 on, a zero range makes the weight −∞ (or NaN with
      // a zero distance): the point is dropped.
      if iterCount >= FullWeightIterations && range == 0.0 {
        row := None;
      } else {
        var s := if iterCount < FullWeightIterations then 1.0
                 else 1.0 - WeightSlope * Abs(r.distance) / range;
        if s <= WeightCutoff || r.distance == 0.0 {
          row := None;
        } else {
          row := Some(Selected(flat[i], Coefficient(s, r)));
        }
      }
    }

    /**
     * The distance loop of `computePlaneDistances`: for every flat point
     * with a second and third surface point, the plane residual, the range
     * of the point, the weight, and the point and coefficient appended when
     * kept.
     */
    method AppendSurfRows(iterCount: nat)
      requires SurfIndicesFit(Inputs(), pointSearchSurfInd1, pointSearchSurfInd2, pointSearchSurfInd3)
      modifies this`laserCloudOri, this`coeffSel
      ensures Inputs() == old(Inputs()) && transform == old(transform)
      ensures var rows := SurfRows(Inputs(), iterCount, transform,
                                   pointSearchSurfInd1, pointSearchSurfInd2, pointSearchSurfInd3);
              laserCloudOri == old(laserCloudOri) + Origins(Kept(rows))
              && coeffSel == old(coeffSel) + Coeffs(Kept(rows))
    {
      ghost var w := Inputs();
      var t, flat, reference := transform, surfPointsFlat, lastSurfaceCloud;
      var ind1, ind2, ind3 := pointSearchSurfInd1, pointSearchSurfInd2, pointSearchSurfInd3;
      var ori, coeffs := laserCloudOri, coeffSel;
      ghost var ori0, coeffs0 := ori, coeffs;
      ghost var rows := SurfRows(w, iterCount, t, ind1, ind2, ind3);
      var surfPointsFlatNum := |flat|;
      var i := 0;
      assert rows[..0] == [];
      while i < surfPointsFlatNum
        invariant 0 <= i <= surfPointsFlatNum
        invariant ori == ori0 + Origins(Kept(rows[..i]))
        invariant coeffs == coeffs0 + Coeffs(Kept(rows[..i]))
      {
        assert rows[i] == SurfRow(w, iterCount, t, ind1, ind2, ind3, i);
        BuffersOneMore(ori0, coeffs0, rows, i);
        if ind2[i] >= 0 && ind3[i] >= 0 {
          var row := PlaneTerm(iterCount, t, flat, reference, ind1, ind2, ind3, i, w);
          if row.Some? {
            ori := ori + [row.value.point];
            coeffs := coeffs + [row.value.coeff];
          }
        } else {
          assert rows[i] == None;
        }
        i := i + 1;
      }
      assert rows[..i] == rows;
      laserCloudOri, coeffSel := ori, coeffs;
    }

    /**
     * `checkDegeneration`: zero the eigenvector rows of the leading
     * eigenvalues below 10 (stopping at the first that is not), report
     * whether any was, and return the projection `V⁻¹ · V2`.
     */
    method CheckDegeneration(hessian: Mat6) returns (isDegenerate: bool, projection: Mat6)
      ensures isDegenerate == (kernel.eigen(hessian).values[0] < EigenThreshold)
      ensures isDegenerate <==> DegeneratePrefix(kernel.eigen(hessian).values) > 0
      ensures projection == Projection(kernel, hessian)
    {
      var eigen := kernel.eigen(hessian);
      var matE := eigen.values;
      var matV := eigen.vectors;
      var matV2 := matV;
      isDegenerate := false;
      var i := 0;
      while i < 6
        invariant 0 <= i <= 6
        invariant forall j :: 0 <= j < i ==> matE[j] < EigenThreshold
        invariant matV2 == MaskRows(matV, i)
        invariant isDegenerate == (i > 0)
      {
        if matE[i] < EigenThreshold {
          assert MaskRows(matV, i)[i := ZeroRow] == MaskRows(matV, i + 1);
          matV2 := matV2[i := ZeroRow];
          isDegenerate := true;
          i := i + 1;
        } else {
          break;
        }
      }
      assert i == DegeneratePrefix(matE);
      projection := kernel.inverseTimes(matV, matV2);
    }

    /**
     * The selection half of an optimisation iteration: clear the selected
     * points and coefficients, then gather the corner rows followed by the
     * plane rows. `m` is the set of correspondences used.
     */
    method SelectFeatures(iterCount: nat) returns (ghost m: Matches)
      requires Valid() && systemInited && ReferenceLarge()
      requires iterCount % RefreshInterval != 0 ==> MatchesFit(Inputs(), CurrentMatches())
      modifies this`laserCloudOri, this`coeffSel,
               this`pointSearchCornerInd1, this`pointSearchCornerInd2,
               this`pointSearchSurfInd1, this`pointSearchSurfInd2, this`pointSearchSurfInd3
      ensures Inputs() == old(Inputs()) && transform == old(transform)
      ensures m == CurrentMatches() && MatchesFit(Inputs(), m)
      ensures iterCount % RefreshInterval == 0 ==> Matched(Inputs(), transform, m)
      ensures iterCount % RefreshInterval != 0 ==> m == old(CurrentMatches())
      ensures laserCloudOri == Origins(SelectedRows(Inputs(), iterCount, transform, m))
      ensures coeffSel == Coeffs(SelectedRows(Inputs(), iterCount, transform, m))
    {
      ghost var w := Inputs();
      laserCloudOri := [];
      coeffSel := [];
      ComputeCornerDistances(iterCount);
      ghost var corner := Kept(CornerRows(w, iterCount, transform,
                                          pointSearchCornerInd1, pointSearchCornerInd2));
      assert laserCloudOri == [] + Origins(corner) && coeffSel == [] + Coeffs(corner);
      ghost var ori, cs := laserCloudOri, coeffSel;
      ComputePlaneDistances(iterCount);
      m := CurrentMatches();
      assert Inputs() == w;
      ghost var surf := Kept(SurfRows(w, iterCount, transform, m.surf1, m.surf2, m.surf3));
      assert laserCloudOri == ori + Origins(surf) && coeffSel == cs + Coeffs(surf);
      assert corner == Kept(CornerRows(w, iterCount, transform, m.corner1, m.corner2));
      SelectedRowsInOrder(w, iterCount, transform, m);
    }

    /**
     * One pass of the `performOptimization` loop body: select corner and
     * plane rows, and unless fewer than 10 were selected solve, decide
     * degeneracy on iteration 0, project, update the transform with
     * reset, and test for convergence.
     */
    method Iterate(iterCount: nat, isDegenerate: bool, matP: Mat6)
      returns (isDegenerate': bool, matP': Mat6, converged: bool, ghost e: Iteration)
      requires Valid() && systemInited && ReferenceLarge()
      requires iterCount % RefreshInterval != 0 ==> MatchesFit(Inputs(), CurrentMatches())
      modifies this`transform, this`laserCloudOri, this`coeffSel,
               this`pointSearchCornerInd1, this`pointSearchCornerInd2,
               this`pointSearchSurfInd1, this`pointSearchSurfInd2, this`pointSearchSurfInd3
      ensures Inputs() == old(Inputs())
      ensures IterationOk(Inputs(), iterCount, e, isDegenerate', matP')
      ensures MatchesFit(Inputs(), CurrentMatches())
      ensures e.before == old(transform) && e.after == transform
      ensures e.matches == CurrentMatches() && e.ori == laserCloudOri && e.coeff == coeffSel
      ensures iterCount % RefreshInterval != 0 ==> e.matches == old(CurrentMatches())
      ensures iterCount == 0 && e.update.Some? ==>
                isDegenerate' == (kernel.eigen(e.update.value.hessian).values[0] < EigenThreshold)
                && matP' == Projection(kernel, e.update.value.hessian)
      ensures !(iterCount == 0 && e.update.Some?) ==> isDegenerate' == isDegenerate && matP' == matP
      ensures converged == Stops(e)
    {
      ghost var start := transform;
      ghost var m := SelectFeatures(iterCount);
      isDegenerate', matP' := isDegenerate, matP;
      var pointSelNum := |laserCloudOri|;
      if pointSelNum < MinSelected {
        converged := false;
        e := Iteration(start, m, laserCloudOri, coeffSel, None, transform);
        return;
      }
      var matAtA := kernel.hessian(laserCloudOri, coeffSel, transform);
      var matAtB := kernel.gradient(laserCloudOri, coeffSel, transform);
      var matX := kernel.solve(matAtA, matAtB);
      if iterCount == 0 {
        isDegenerate', matP' := CheckDegeneration(matAtA);
      }
      var increment := matX;
      if isDegenerate' {
        increment := Project(matP', matX);
      }
      transform := ApplyIncrement(transform, increment);
      converged := Converged(increment);
      e := Iteration(start, m, laserCloudOri, coeffSel, Some(Update(matAtA, matX, increment)), transform);
    }

    /**
     * One pass of the loop of `performOptimization`: iteration `iterCount`
     * extends the run `log` so far, which has not stopped yet.
     */
    method OptimizationStep(iterCount: nat, isDegenerate: bool, matP: Mat6,
                            ghost w: Sweep, ghost start: Pose, ghost log: seq<Iteration>)
      returns (isDegenerate': bool, matP': Mat6, converged: bool, ghost log': seq<Iteration>)
      requires Valid() && systemInited && ReferenceLarge() && Inputs() == w
      requires iterCount == |log| && RunSoFar(w, start, log, isDegenerate, matP)
      requires |log| > 0 ==> !Stops(log[|log| - 1])
      requires transform == Final(start, log)
      requires |log| > 0 ==> CurrentMatches() == log[|log| - 1].matches
      modifies this`transform, this`laserCloudOri, this`coeffSel,
               this`pointSearchCornerInd1, this`pointSearchCornerInd2,
               this`pointSearchSurfInd1, this`pointSearchSurfInd2, this`pointSearchSurfInd3
      ensures Inputs() == w
      ensures |log'| == |log| + 1 && log'[..|log|] == log
      ensures RunSoFar(w, start, log', isDegenerate', matP')
      ensures converged == Stops(log'[|log|])
      ensures transform == Final(start, log')
      ensures laserCloudOri == log'[|log|].ori && coeffSel == log'[|log|].coeff
      ensures CurrentMatches() == log'[|log|].matches
    {
      ghost var e;
      isDegenerate', matP', converged, e := Iterate(iterCount, isDegenerate, matP);
      ExtendRun(w, start, log, e, isDegenerate, matP, isDegenerate', matP');
      log' := log + [e];
      assert log'[..|log|] == log;
    }

    /**
     * `performOptimization`: up to `maxIterations` Gauss-Newton
     * iterations from the current transform, leaving early right after the
     * first converged update. The ghost `log` records every iteration run.
     */
    method PerformOptimization() returns (ghost log: seq<Iteration>)
      requires Valid() && systemInited && ReferenceLarge()
      modifies this`transform, this`laserCloudOri, this`coeffSel,
               this`pointSearchCornerInd1, this`pointSearchCornerInd2,
               this`pointSearchSurfInd1, this`pointSearchSurfInd2, this`pointSearchSurfInd3
      ensures Inputs() == old(Inputs())
      ensures OptimizationLog(Inputs(), maxIterations, old(transform), log, transform)
      ensures |log| > 0 ==>
                var last := log[|log| - 1];
                laserCloudOri == last.ori && coeffSel == last.coeff && CurrentMatches() == last.matches
      ensures |log| == 0 ==>
                laserCloudOri == old(laserCloudOri) && coeffSel == old(coeffSel)
                && CurrentMatches() == old(CurrentMatches())
    {
      ghost var w := Inputs();
      ghost var start := transform;
      var isDegenerate := false;
      var matP := ZeroMatrix;
      log := [];
      var iterCount := 0;
      while iterCount < maxIterations
        invariant Inputs() == w
        invariant iterCount == |log| <= maxIterations
        invariant RunSoFar(w, start, log, isDegenerate, matP)
        invariant |log| > 0 ==> !Stops(log[|log| - 1])
        invariant transform == Final(start, log)
        invariant |log| > 0 ==>
                    var last := log[|log| - 1];
                    laserCloudOri == last.ori && coeffSel == last.coeff && CurrentMatches() == last.matches
        invariant |log| == 0 ==>
                    laserCloudOri == old(laserCloudOri) && coeffSel == old(coeffSel)
                    && CurrentMatches() == old(CurrentMatches())
      {
        var converged;
        isDegenerate, matP, converged, log := OptimizationStep(iterCount, isDegenerate, matP, w, start, log);
        if converged {
          break;
        }
        iterCount := iterCount + 1;
      }
      RunIsOptimization(w, maxIterations, start, log, isDegenerate, matP);
    }

    /**
     * `process`: the first call only takes the current less-sharp and
     * less-flat clouds as reference and folds the IMU start pitch and roll
     * into the cumulative pose. Every later call counts the sweep, applies
     * the constant-velocity prior, optimises when the reference clouds are
     * large enough, accumulates the cumulative pose, reprojects the
     * less-sharp and less-flat clouds to the sweep end, swaps them in as
     * the next reference and re-indexes the KD-trees when the new
     * reference clouds are large enough. The ghost `log` records the
     * iterations run.
     */
    method Process() returns (ghost log: seq<Iteration>)
      requires Valid()
      modifies this
      ensures Valid() && systemInited
      ensures !old(systemInited) ==> log == [] && State() == AfterFirstSweep(old(State()))
      ensures old(systemInited) ==>
                SweepOptimization(kernel, scanPeriod, maxIterations, old(State()), log)
                && State() == AfterReference(kernel, scanPeriod, AfterOptimization(scanPeriod, old(State()), log))
    {
      if !systemInited {
        log := [];
        FirstSweep();
      } else {
        log := BeginSweep();
        EndSweep();
      }
    }

    /** The first sweep, as a transition of the whole state. */
    method FirstSweep()
      requires !systemInited
      modifies this`systemInited, this`transformSum,
               this`cornerPointsLessSharp, this`lastCornerCloud,
               this`surfPointsLessFlat, this`lastSurfaceCloud,
               this`lastCornerKDTree, this`lastSurfaceKDTree
      ensures Valid() && State() == AfterFirstSweep(old(State()))
    {
      StartReference();
      IsAfterFirstSweep(old(State()), State());
    }

    /** The start of a later sweep, as a transition of the whole state. */
    method BeginSweep() returns (ghost log: seq<Iteration>)
      requires Valid() && systemInited
      modifies this`frameCount, this`transform, this`laserCloudOri, this`coeffSel,
               this`pointSearchCornerInd1, this`pointSearchCornerInd2,
               this`pointSearchSurfInd1, this`pointSearchSurfInd2, this`pointSearchSurfInd3
      ensures Valid() && systemInited
      ensures SweepOptimization(kernel, scanPeriod, maxIterations, old(State()), log)
      ensures State() == AfterOptimization(scanPeriod, old(State()), log)
    {
      log := OptimizeSweep();
      IsAfterOptimization(scanPeriod, old(State()), log, State());
    }

    /** The end of a later sweep, as a transition of the whole state. */
    method EndSweep()
      requires Valid() && systemInited
      modifies this`transformSum, this`cornerPointsLessSharp, this`lastCornerCloud,
               this`surfPointsLessFlat, this`lastSurfaceCloud,
               this`lastCornerKDTree, this`lastSurfaceKDTree
      ensures Valid() && systemInited
      ensures State() == AfterReference(kernel, scanPeriod, old(State()))
    {
      NextReference();
      IsAfterReference(kernel, scanPeriod, old(State()), State());
    }

    /**
     * The start of a later sweep: count it, apply the constant-velocity
     * prior, then optimise when the reference clouds are large enough.
     */
    method OptimizeSweep() returns (ghost log: seq<Iteration>)
      requires Valid() && systemInited
      modifies this`frameCount, this`transform, this`laserCloudOri, this`coeffSel,
               this`pointSearchCornerInd1, this`pointSearchCornerInd2,
               this`pointSearchSurfInd1, this`pointSearchSurfInd2, this`pointSearchSurfInd3
      ensures Valid() && systemInited
      ensures SweepOptimization(kernel, scanPeriod, maxIterations, old(State()), log)
      ensures frameCount == old(frameCount) + 1
      ensures Inputs() == old(Inputs())
      ensures transform == Final(VelocityPrior(old(transform), imu, scanPeriod), log)
      ensures |log| > 0 ==>
                var last := log[|log| - 1];
                laserCloudOri == last.ori && coeffSel == last.coeff && CurrentMatches() == last.matches
      ensures |log| == 0 ==>
                laserCloudOri == old(laserCloudOri) && coeffSel == old(coeffSel)
                && CurrentMatches() == old(CurrentMatches())
    {
      log := [];
      frameCount := frameCount + 1;
      transform := VelocityPrior(transform, imu, scanPeriod);
      if ReferenceLarge() {
        log := PerformOptimization();
      }
    }

    /**
     * The first sweep: the less-sharp and less-flat clouds become the
     * reference (swapped with the empty old reference), the KD-trees are
     * built on them, and the IMU start pitch and roll enter the cumulative
     * pose.
     */
    method StartReference()
      requires !systemInited
      modifies this`systemInited, this`transformSum,
               this`cornerPointsLessSharp, this`lastCornerCloud,
               this`surfPointsLessFlat, this`lastSurfaceCloud,
               this`lastCornerKDTree, this`lastSurfaceKDTree
      ensures Valid() && systemInited
      ensures transformSum == Bootstrap(old(transformSum), imu)
      ensures lastCornerCloud == old(cornerPointsLessSharp) && cornerPointsLessSharp == old(lastCornerCloud)
      ensures lastSurfaceCloud == old(surfPointsLessFlat) && surfPointsLessFlat == old(lastSurfaceCloud)
      ensures lastCornerKDTree == lastCornerCloud && lastSurfaceKDTree == lastSurfaceCloud
    {
      cornerPointsLessSharp, lastCornerCloud := lastCornerCloud, cornerPointsLessSharp;
      surfPointsLessFlat, lastSurfaceCloud := lastSurfaceCloud, surfPointsLessFlat;
      lastCornerKDTree := lastCornerCloud;
      lastSurfaceKDTree := lastSurfaceCloud;
      transformSum := transformSum.(rotX := transformSum.rotX + imu.pitchStart);
      transformSum := transformSum.(rotZ := transformSum.rotZ + imu.rollStart);
      systemInited := true;
    }

    /**
     * The end of a later sweep: the sweep transform is folded into the
     * cumulative pose, and the less-sharp and less-flat clouds are
     * reprojected to the sweep end and swapped in as the next reference;
     * the KD-trees are rebuilt only when the new reference is large enough.
     */
    method NextReference()
      requires Valid() && systemInited
      modifies this`transformSum, this`cornerPointsLessSharp, this`lastCornerCloud,
               this`surfPointsLessFlat, this`lastSurfaceCloud,
               this`lastCornerKDTree, this`lastSurfaceKDTree
      ensures Valid()
      ensures transformSum == Accumulate(kernel, old(transformSum), transform, imu)
      ensures lastCornerCloud == CloudToEnd(kernel, scanPeriod, transform, imu, old(cornerPointsLessSharp))
      ensures cornerPointsLessSharp == old(lastCornerCloud)
      ensures lastSurfaceCloud == CloudToEnd(kernel, scanPeriod, transform, imu, old(surfPointsLessFlat))
      ensures surfPointsLessFlat == old(lastSurfaceCloud)
      ensures ReferenceLarge() ==>
                lastCornerKDTree == lastCornerCloud && lastSurfaceKDTree == lastSurfaceCloud
      ensures !ReferenceLarge() ==>
                lastCornerKDTree == old(lastCornerKDTree) && lastSurfaceKDTree == old(lastSurfaceKDTree)
    {
      var sum := Accumulate(kernel, transformSum, transform, imu);
      var lessSharp, _ := TransformToEnd(cornerPointsLessSharp);
      var lessFlat, _ := TransformToEnd(surfPointsLessFlat);
      transformSum := sum;

      cornerPointsLessSharp, lastCornerCloud := lastCornerCloud, lessSharp;
      surfPointsLessFlat, lastSurfaceCloud := lastSurfaceCloud, lessFlat;

      if LargeReference(lessSharp, lessFlat) {
        lastCornerKDTree := lastCornerCloud;
        lastSurfaceKDTree := lastSurfaceCloud;
      }
    }
  }
}
