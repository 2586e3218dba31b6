/**
 * Motion compensation of the laser-odometry engine: reprojecting a point
 * of the current sweep to the sweep start (`transformToStart`) or to the
 * sweep end (`transformToEnd`), the constant-velocity prior, and the
 * accumulation of the sweep-to-sweep transform into the cumulative pose.
 * Rotations are the opaque kernels of `Geometry.Kernel`; what is modelled
 * is the arithmetic around them and, above all, what happens to the
 * intensity channel (scan ring + relative time within the sweep).
 */
module Motion {
  import opened Geometry

  /**
   * The per-sweep IMU summary (`_imuPitchStart` … `_imuRollEnd`,
   * `_imuShiftFromStart`, `_imuVeloFromStart`).
   */
  datatype Imu = Imu(
    pitchStart: real, yawStart: real, rollStart: real,
    pitchEnd: real, yawEnd: real, rollEnd: real,
    shiftFromStart: Vec3, veloFromStart: Vec3)

  const ZeroVec := Vec3(0.0, 0.0, 0.0)

  const ZeroImu := Imu(0.0, 0.0, 0.0, 0.0, 0.0, 0.0, ZeroVec, ZeroVec)

  /** Converting a whole number back through `static_cast<int>` gives it unchanged. */
  lemma TruncOfWhole(n: int)
    ensures Trunc(n as real) == n
  {
    if n < 0 {
      assert -(n as real) == (-n) as real;
    }
  }

  /** Fraction of the sweep elapsed at point `p`: relative time over the period. */
  function SweepFraction(period: Period, p: Point): real
  {
    (1.0 / period) * RelTime(p)
  }

  /**
   * `transformToStart`: undo the share `s` of the current transform that
   * had elapsed when `p` was measured. The intensity (ring and time) is
   * carried over unchanged.
   */
  function ToStart(k: Kernel, period: Period, t: Pose, p: Point): (r: Point)
    ensures r.intensity == p.intensity
    ensures Ring(r) == Ring(p) && RelTime(r) == RelTime(p)
  {
    var s := SweepFraction(period, p);
    var v := k.rotateZXY(Vec3(p.x - s * t.pos.x, p.y - s * t.pos.y, p.z - s * t.pos.z),
                         -s * t.rotZ, -s * t.rotX, -s * t.rotY);
    Point(v.x, v.y, v.z, p.intensity)
  }

  /**
   * One point of `transformToEnd`: reproject to the sweep start, then to
   * the sweep end, then correct for the IMU-measured non-linear motion.
   * The intensity keeps only the ring: the relative time is dropped.
   */
  function ToEnd(k: Kernel, period: Period, t: Pose, imu: Imu, p: Point): (r: Point)
    ensures r.intensity == Ring(p) as real
    ensures Ring(r) == Ring(p) && RelTime(r) == 0.0
  {
    var s := SweepFraction(period, p);
    var v0 := Vec3(p.x - s * t.pos.x, p.y - s * t.pos.y, p.z - s * t.pos.z);
    var v1 := k.rotateZXY(v0, -s * t.rotZ, -s * t.rotX, -s * t.rotY);
    var v2 := k.rotateYXZ(v1, t.rotY, t.rotX, t.rotZ);
    var v3 := Vec3(v2.x + (t.pos.x - imu.shiftFromStart.x),
                   v2.y + (t.pos.y - imu.shiftFromStart.y),
                   v2.z + (t.pos.z - imu.shiftFromStart.z));
    var v4 := k.rotateZXY(v3, imu.rollStart, imu.pitchStart, imu.yawStart);
    var v5 := k.rotateYXZ(v4, -imu.yawEnd, -imu.pitchEnd, -imu.rollEnd);
    TruncOfWhole(Ring(p));
    Point(v5.x, v5.y, v5.z, Ring(p) as real)
  }

  /** A whole cloud reprojected to the sweep end, point by point. */
  function CloudToEnd(k: Kernel, period: Period, t: Pose, imu: Imu, cloud: seq<Point>): (r: seq<Point>)
    ensures |r| == |cloud|
    ensures forall i :: 0 <= i < |cloud| ==> r[i] == ToEnd(k, period, t, imu, cloud[i])
  {
    seq(|cloud|, i requires 0 <= i < |cloud| => ToEnd(k, period, t, imu, cloud[i]))
  }

  /** The constant-velocity prior: the translation is moved back by velocity × period. */
  function VelocityPrior(t: Pose, imu: Imu, period: Period): (r: Pose)
    ensures r.rotX == t.rotX && r.rotY == t.rotY && r.rotZ == t.rotZ
    ensures r.pos.x == t.pos.x - imu.veloFromStart.x * period
    ensures r.pos.y == t.pos.y - imu.veloFromStart.y * period
    ensures r.pos.z == t.pos.z - imu.veloFromStart.z * period
  {
    t.(pos := Vec3(t.pos.x - imu.veloFromStart.x * period,
                   t.pos.y - imu.veloFromStart.y * period,
                   t.pos.z - imu.veloFromStart.z * period))
  }

  /**
   * The new cumulative pose after a sweep: compose the cumulative rotation
   * with the inverse sweep rotation (y angle scaled by 1.05), move the
   * translation by the rotated inverse sweep translation (z scaled by 1.05,
   * IMU shift removed), then plug in the IMU rotation change over the sweep.
   */
  function Accumulate(k: Kernel, sum: Pose, t: Pose, imu: Imu): Pose
  {
    var r := k.accumulateRotation(Euler(sum.rotX, sum.rotY, sum.rotZ),
                                  Euler(-t.rotX, -t.rotY * 1.05, -t.rotZ));
    var v := k.rotateZXY(Vec3(t.pos.x - imu.shiftFromStart.x,
                              t.pos.y - imu.shiftFromStart.y,
                              t.pos.z * 1.05 - imu.shiftFromStart.z),
                         r.z, r.x, r.y);
    var a := k.pluginIMURotation(r, Euler(imu.pitchStart, imu.yawStart, imu.rollStart),
                                 Euler(imu.pitchEnd, imu.yawEnd, imu.rollEnd));
    Pose(a.x, a.y, a.z, Vec3(sum.pos.x - v.x, sum.pos.y - v.y, sum.pos.z - v.z))
  }

  /** The cumulative pose after the first sweep: IMU start pitch and roll folded in. */
  function Bootstrap(sum: Pose, imu: Imu): (r: Pose)
    ensures r.rotX == sum.rotX + imu.pitchStart && r.rotZ == sum.rotZ + imu.rollStart
    ensures r.rotY == sum.rotY && r.pos == sum.pos
  {
    sum.(rotX := sum.rotX + imu.pitchStart, rotZ := sum.rotZ + imu.rollStart)
  }
}
