/**
 * Value types shared by the laser-odometry model: points with a
 * ring-and-time intensity, poses, the finite/non-finite distinction of
 * single-precision arithmetic, and the bundle of geometric and
 * linear-algebra kernels that the engine calls but that are not part of
 * this model (rotations, residual geometry, normal equations, eigen
 * decomposition).
 */
module Geometry {

  datatype Option<T> = None | Some(value: T)

  datatype Vec3 = Vec3(x: real, y: real, z: real)

  /** A lidar feature point; `intensity` = ring id + relative time. */
  datatype Point = Point(x: real, y: real, z: real, intensity: real)

  /** Rotation angles about x, y and z, in radians. */
  datatype Euler = Euler(x: real, y: real, z: real)

  /** A 6-DoF pose: three Euler angles (radians) and a translation. */
  datatype Pose = Pose(rotX: real, rotY: real, rotZ: real, pos: Vec3)

  const ZeroPose := Pose(0.0, 0.0, 0.0, Vec3(0.0, 0.0, 0.0))

  /** A float value as seen by `std::isfinite`: a real, or NaN/infinity. */
  datatype F = Fin(v: real) | NonFinite

  type Vec6 = s: seq<F> | |s| == 6
    witness [Fin(0.0), Fin(0.0), Fin(0.0), Fin(0.0), Fin(0.0), Fin(0.0)]

  type Row6 = s: seq<real> | |s| == 6 witness [0.0, 0.0, 0.0, 0.0, 0.0, 0.0]

  type Mat6 = m: seq<Row6> | |m| == 6
    witness var z: Row6 := [0.0, 0.0, 0.0, 0.0, 0.0, 0.0]; [z, z, z, z, z, z]

  const ZeroRow: Row6 := [0.0, 0.0, 0.0, 0.0, 0.0, 0.0]

  const ZeroMatrix: Mat6 := [ZeroRow, ZeroRow, ZeroRow, ZeroRow, ZeroRow, ZeroRow]

  /** A length: a non-negative real. */
  type Length = r: real | 0.0 <= r

  /** A sweep period in seconds: a positive real. */
  type Period = r: real | 0.0 < r witness 0.1

  /** Point-to-edge or point-to-plane residual: unit normal and distance. */
  datatype Residual = Residual(normal: Vec3, distance: real)

  /** Eigenvalues (ascending) and eigenvectors of a symmetric 6x6 matrix. */
  datatype EigenPairs = EigenPairs(values: Row6, vectors: Mat6)

  /**
   * The numeric kernels the engine calls. Each is a pure function of its
   * arguments; none of them is modelled here.
   *  - rotateZXY(v, rz, rx, ry) / rotateYXZ(v, ry, rx, rz): rotate a vector
   *    by the three angles in the named composition order;
   *  - accumulateRotation(c, l): Euler angles of R(c)·R(l);
   *  - pluginIMURotation(bc, bl, al): Euler angles of R(bc)·R(bl)^T·R(al);
   *  - edgeResidual(i, j, l) and planeResidual(i, j, l, m): the residual
   *    of point i against the line j-l or the plane j-l-m;
   *  - range(v): the divisor of the plane weight, the square root of
   *    `calcPointDistance(v)`, a non-negative real;
   *  - hessian / gradient: AᵗA and Aᵗb assembled from the selected points,
   *    their coefficients and the current transform;
   *  - solve: the column-pivoting QR solution of AᵗA x = Aᵗb;
   *  - eigen: the self-adjoint eigen decomposition;
   *  - inverseTimes(V, V2): V⁻¹·V2.
   */
  datatype Kernel = Kernel(
    rotateZXY: (Vec3, real, real, real) -> Vec3,
    rotateYXZ: (Vec3, real, real, real) -> Vec3,
    accumulateRotation: (Euler, Euler) -> Euler,
    pluginIMURotation: (Euler, Euler, Euler) -> Euler,
    edgeResidual: (Vec3, Vec3, Vec3) -> Residual,
    planeResidual: (Vec3, Vec3, Vec3, Vec3) -> Residual,
    range: Vec3 -> Length,
    hessian: (seq<Point>, seq<Point>, Pose) -> Mat6,
    gradient: (seq<Point>, seq<Point>, Pose) -> Row6,
    solve: (Mat6, Row6) -> Vec6,
    eigen: Mat6 -> EigenPairs,
    inverseTimes: (Mat6, Mat6) -> Mat6)

  function Position(p: Point): Vec3 { Vec3(p.x, p.y, p.z) }

  function Abs(r: real): real { if r < 0.0 then -r else r }

  /** `static_cast<int>` of a float: truncation toward zero. */
  function Trunc(r: real): (n: int)
    ensures 0.0 <= r ==> n as real <= r < n as real + 1.0
    ensures r < 0.0 ==> n as real - 1.0 < r <= n as real
  {
    if r >= 0.0 then r.Floor else -((-r).Floor)
  }

  /** `calcSquaredDiff`: squared Euclidean distance of two points. */
  function SqDist(a: Point, b: Point): real
  {
    (a.x - b.x) * (a.x - b.x) + (a.y - b.y) * (a.y - b.y) + (a.z - b.z) * (a.z - b.z)
  }

  /** The scan ring of a point: the integer part of its intensity. */
  function Ring(p: Point): int { Trunc(p.intensity) }

  /** The relative time of a point: the fractional part of its intensity. */
  function RelTime(p: Point): real { p.intensity - Trunc(p.intensity) as real }
}
