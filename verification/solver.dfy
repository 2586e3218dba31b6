/**
 * The numeric decisions of one Gauss-Newton step that are not linear
 * algebra: which eigen-directions count as degenerate, how a possibly
 * non-finite increment is projected and applied to the transform with
 * per-component reset, and when the increment is small enough to stop.
 */
module Solver {
  import opened Geometry

  /** An eigenvalue below this marks a degenerate direction. */
  const EigenThreshold: real := 10.0

  /** `_deltaRAbort` (degrees) and `_deltaTAbort` (centimetres). */
  const DeltaRAbort: real := 0.1
  const DeltaTAbort: real := 0.1

  /** The value of π used by `rad2deg`. */
  const Pi: real := 3.14159265358979323846

  /**
   * Length of the longest prefix of `values` whose entries are all below
   * the threshold (eigenvalues are sorted ascending, so these are the
   * degenerate directions).
   */
  function DegeneratePrefix(values: Row6): (k: nat)
    ensures k <= 6
    ensures forall i :: 0 <= i < k ==> values[i] < EigenThreshold
    ensures k < 6 ==> values[k] >= EigenThreshold
  {
    PrefixFrom(values, 0)
  }

  function PrefixFrom(values: Row6, i: nat): (k: nat)
    requires i <= 6
    requires forall j :: 0 <= j < i ==> values[j] < EigenThreshold
    ensures i <= k <= 6
    ensures forall j :: 0 <= j < k ==> values[j] < EigenThreshold
    ensures k < 6 ==> values[k] >= EigenThreshold
    decreases 6 - i
  {
    if i == 6 || values[i] >= EigenThreshold then i else PrefixFrom(values, i + 1)
  }

  /** `matV2`: the eigenvector matrix with its first `k` rows set to zero. */
  function MaskRows(v: Mat6, k: nat): (m: Mat6)
    ensures forall i :: 0 <= i < 6 && i < k ==> m[i] == ZeroRow
    ensures forall i :: k <= i < 6 ==> m[i] == v[i]
  {
    seq(6, i requires 0 <= i < 6 => if i < k then ZeroRow else v[i])
  }

  /** The projection `matV⁻¹ · matV2` that removes the degenerate directions. */
  function Projection(kernel: Kernel, hessian: Mat6): Mat6
  {
    var e := kernel.eigen(hessian);
    kernel.inverseTimes(e.vectors, MaskRows(e.vectors, DegeneratePrefix(e.values)))
  }

  predicate AllFinite(x: Vec6)
  {
    forall i :: 0 <= i < 6 ==> x[i].Fin?
  }

  function Dot(row: Row6, x: Vec6): real
    requires AllFinite(x)
  {
    row[0] * x[0].v + row[1] * x[1].v + row[2] * x[2].v
    + row[3] * x[3].v + row[4] * x[4].v + row[5] * x[5].v
  }

  /**
   * `matP * matX`. A NaN or infinite entry of `x` meets every row (a zero
   * coefficient times NaN or infinity is NaN), so it spreads to every entry.
   */
  function Project(p: Mat6, x: Vec6): (r: Vec6)
    ensures AllFinite(r) <==> AllFinite(x)
    ensures !AllFinite(x) ==> forall i :: 0 <= i < 6 ==> r[i] == NonFinite
    ensures AllFinite(x) ==> forall i :: 0 <= i < 6 ==> r[i] == Fin(Dot(p[i], x))
  {
    if AllFinite(x) then seq(6, i requires 0 <= i < 6 => Fin(Dot(p[i], x)))
    else
      var r: Vec6 := seq(6, i => NonFinite);
      assert r[0] == NonFinite;
      r
  }

  /**
   * One transform component after `component += increment` followed by
   * the reset of a non-finite result to zero.
   */
  function Step(current: real, increment: F): real
  {
    match increment
    case Fin(d) => current + d
    case NonFinite => 0.0
  }

  /**
   * The update of the six transform components by the increment
   * (rotations x, y, z, then translations x, y, z), each reset
   * independently when it is not finite.
   */
  function ApplyIncrement(t: Pose, x: Vec6): (r: Pose)
    ensures x[0].Fin? ==> r.rotX == t.rotX + x[0].v
    ensures x[1].Fin? ==> r.rotY == t.rotY + x[1].v
    ensures x[2].Fin? ==> r.rotZ == t.rotZ + x[2].v
    ensures x[3].Fin? ==> r.pos.x == t.pos.x + x[3].v
    ensures x[4].Fin? ==> r.pos.y == t.pos.y + x[4].v
    ensures x[5].Fin? ==> r.pos.z == t.pos.z + x[5].v
    ensures x[0] == NonFinite ==> r.rotX == 0.0
    ensures x[1] == NonFinite ==> r.rotY == 0.0
    ensures x[2] == NonFinite ==> r.rotZ == 0.0
    ensures x[3] == NonFinite ==> r.pos.x == 0.0
    ensures x[4] == NonFinite ==> r.pos.y == 0.0
    ensures x[5] == NonFinite ==> r.pos.z == 0.0
  {
    Pose(Step(t.rotX, x[0]), Step(t.rotY, x[1]), Step(t.rotZ, x[2]),
         Vec3(Step(t.pos.x, x[3]), Step(t.pos.y, x[4]), Step(t.pos.z, x[5])))
  }

  function Rad2Deg(r: real): real { r * 180.0 / Pi }

  /** Square of `deltaR`: the rotation increment in degrees, squared norm. */
  function RotationStepSq(x: Vec6): real
    requires AllFinite(x)
  {
    Rad2Deg(x[0].v) * Rad2Deg(x[0].v) + Rad2Deg(x[1].v) * Rad2Deg(x[1].v)
    + Rad2Deg(x[2].v) * Rad2Deg(x[2].v)
  }

  /** Square of `deltaT`: the translation increment in centimetres, squared norm. */
  function TranslationStepSq(x: Vec6): real
    requires AllFinite(x)
  {
    (x[3].v * 100.0) * (x[3].v * 100.0) + (x[4].v * 100.0) * (x[4].v * 100.0)
    + (x[5].v * 100.0) * (x[5].v * 100.0)
  }

  /**
   * The early-stop test `deltaR < 0.1 && deltaT < 0.1`, with both sides
   * squared (the norms are non-negative). A NaN or infinite entry makes a
   * norm NaN or infinite, and then the test fails.
   */
  predicate Converged(x: Vec6)
  {
    AllFinite(x)
    && RotationStepSq(x) < DeltaRAbort * DeltaRAbort
    && TranslationStepSq(x) < DeltaTAbort * DeltaTAbort
  }

  lemma SameSignProduct(x: real, y: real)
    ensures (x >= 0.0 && y >= 0.0) || (x <= 0.0 && y <= 0.0) ==> x * y >= 0.0
  {
    if x <= 0.0 && y <= 0.0 {
      assert x * y == (-x) * (-y);
    }
  }

  lemma SquareBound(a: real, b: real)
    requires b > 0.0 && a * a < b * b
    ensures -b < a < b
  {
    assert (a - b) * (a + b) == a * a - b * b;
    SameSignProduct(a - b, a + b);
  }

  /**
   * A converged increment moves every component by less than 0.1 degree
   * (as radians) or 1 millimetre, and no component is reset.
   */
  lemma {:induction false} ConvergedStepIsSmall(t: Pose, x: Vec6)
    requires Converged(x)
    ensures forall i :: 0 <= i < 3 ==> -0.1 < Rad2Deg(x[i].v) < 0.1
    ensures forall i :: 3 <= i < 6 ==> -0.001 < x[i].v < 0.001
    ensures ApplyIncrement(t, x) ==
              Pose(t.rotX + x[0].v, t.rotY + x[1].v, t.rotZ + x[2].v,
                   Vec3(t.pos.x + x[3].v, t.pos.y + x[4].v, t.pos.z + x[5].v))
  {
    forall i | 0 <= i < 3
      ensures -0.1 < Rad2Deg(x[i].v) < 0.1
    {
      var d := Rad2Deg(x[i].v);
      assert d * d <= RotationStepSq(x);
      SquareBound(d, 0.1);
    }
    forall i | 3 <= i < 6
      ensures -0.001 < x[i].v < 0.001
    {
      var c := x[i].v * 100.0;
      assert c * c <= TranslationStepSq(x);
      SquareBound(c, 0.1);
    }
  }
}
