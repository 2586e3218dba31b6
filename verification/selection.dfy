/**
 * The selection filter of `computeCornerDistances` and
 * `computePlaneDistances`: from a point's residual, a weight that
 * down-weights large distances after the first iterations, and the rule
 * that keeps a point (weight above 0.1, non-zero distance). Kept points are
 * appended, in input order, to two parallel buffers: the original points
 * and their weighted coefficients.
 */
module Selection {
  import opened Geometry

  /** Iterations during which every correspondence has weight 1. */
  const FullWeightIterations: nat := 5
  /** Slope of the distance-based down-weighting. */
  const WeightSlope: real := 1.8
  /** A point whose weight is at most this is dropped. */
  const WeightCutoff: real := 0.1

  /** A kept point: the original point and its coefficient (s·normal, s·distance). */
  datatype Selected = Selected(point: Point, coeff: Point)

  function Coefficient(s: real, r: Residual): Point
  {
    Point(s * r.normal.x, s * r.normal.y, s * r.normal.z, s * r.distance)
  }

  /** Weight of an edge residual at distance `d`. */
  function EdgeWeight(iterCount: nat, d: real): real
  {
    if iterCount < FullWeightIterations then 1.0 else 1.0 - WeightSlope * Abs(d)
  }

  /** Weight of a plane residual at distance `d` for a point at range `range` > 0. */
  function PlaneWeight(iterCount: nat, d: real, range: real): real
    requires iterCount < FullWeightIterations || range > 0.0
  {
    if iterCount < FullWeightIterations then 1.0 else 1.0 - WeightSlope * Abs(d) / range
  }

  /**
   * The edge filter for one point with a valid correspondence: kept exactly
   * when the distance is non-zero and, from iteration 5 on, below 0.5 (the
   * weight 1 − 1.8·|d| is then above 0.1).
   */
  function EdgeRow(iterCount: nat, p: Point, r: Residual): (row: Option<Selected>)
    ensures row.Some? <==>
              r.distance != 0.0 && (iterCount < FullWeightIterations || Abs(r.distance) < 0.5)
    ensures row.Some? ==> row.value.point == p
    ensures row.Some? ==> WeightCutoff < EdgeWeight(iterCount, r.distance) <= 1.0
    ensures row.Some? ==> row.value.coeff == Coefficient(EdgeWeight(iterCount, r.distance), r)
  {
    var s := EdgeWeight(iterCount, r.distance);
    if s <= WeightCutoff || r.distance == 0.0 then None
    else Some(Selected(p, Coefficient(s, r)))
  }

  /**
   * The plane filter for one point with a valid correspondence at range
   * `range` (a Euclidean norm, so never negative): kept exactly when the
   * distance is non-zero and, from iteration 5 on, below half the range.
   * A point at range 0 is dropped from iteration 5 on: its single-precision
   * weight is −∞ (or NaN with a zero distance).
   */
  function PlaneRow(iterCount: nat, p: Point, r: Residual, range: real): (row: Option<Selected>)
    requires range >= 0.0
    ensures row.Some? <==>
              r.distance != 0.0 &&
              (iterCount < FullWeightIterations || Abs(r.distance) < 0.5 * range)
    ensures row.Some? ==> row.value.point == p
    ensures row.Some? ==> WeightCutoff < PlaneWeight(iterCount, r.distance, range) <= 1.0
    ensures row.Some? ==> row.value.coeff == Coefficient(PlaneWeight(iterCount, r.distance, range), r)
  {
    if iterCount >= FullWeightIterations && range == 0.0 then None
    else
      var s := PlaneWeight(iterCount, r.distance, range);
      assert iterCount >= FullWeightIterations ==>
               (s > WeightCutoff <==> Abs(r.distance) < 0.5 * range) by {
        if iterCount >= FullWeightIterations { ScaledCutoff(Abs(r.distance), range); }
      }
      if s <= WeightCutoff || r.distance == 0.0 then None
      else Some(Selected(p, Coefficient(s, r)))
  }

  /** 1 − 1.8·a/range exceeds 0.1 exactly when a is below half the range. */
  lemma ScaledCutoff(a: real, range: real)
    requires range > 0.0
    ensures 1.0 - WeightSlope * a / range > WeightCutoff <==> a < 0.5 * range
  {
    var q := a / range;
    assert WeightSlope * a / range == 1.8 * q;
    var t := q - 0.5;
    assert a - 0.5 * range == t * range;
    SignOfProduct(t, range);
  }

  lemma SignOfProduct(x: real, y: real)
    requires y > 0.0
    ensures x < 0.0 <==> x * y < 0.0
  {
    if x < 0.0 {
      assert (-x) * y > 0.0;
    } else {
      assert x * y >= 0.0;
    }
  }

  /** The kept rows, in order. */
  function Kept(rows: seq<Option<Selected>>): (kept: seq<Selected>)
    ensures |kept| <= |rows|
  {
    if rows == [] then []
    else (match rows[0] case Some(x) => [x] case None => []) + Kept(rows[1..])
  }

  /** Filtering a concatenation keeps the order: the first part's rows precede the second's. */
  lemma {:induction false} KeptAppend(a: seq<Option<Selected>>, b: seq<Option<Selected>>)
    ensures Kept(a + b) == Kept(a) + Kept(b)
  {
    if a == [] {
      assert a + b == b;
    } else {
      assert (a + b)[1..] == a[1..] + b;
      KeptAppend(a[1..], b);
    }
  }

  /** Filtering one more row appends that row's selection, if any. */
  lemma {:induction false} KeptSnoc(rows: seq<Option<Selected>>, i: nat)
    requires i < |rows|
    ensures Kept(rows[..i + 1]) == Kept(rows[..i]) + (if rows[i].Some? then [rows[i].value] else [])
  {
    assert rows[..i + 1] == rows[..i] + [rows[i]];
    KeptAppend(rows[..i], [rows[i]]);
    assert [rows[i]][1..] == [];
  }

  /** Every kept row comes from a `Some` of the input. */
  lemma {:induction false} KeptFromInput(rows: seq<Option<Selected>>, x: Selected)
    requires x in Kept(rows)
    ensures Some(x) in rows
  {
    if rows[0] != Some(x) {
      KeptFromInput(rows[1..], x);
    }
  }

  /** The original points of the kept rows (`_laserCloudOri`). */
  function Origins(rows: seq<Selected>): (pts: seq<Point>)
    ensures |pts| == |rows|
    ensures forall i :: 0 <= i < |rows| ==> pts[i] == rows[i].point
  {
    if rows == [] then [] else [rows[0].point] + Origins(rows[1..])
  }

  /** The coefficients of the kept rows (`_coeffSel`). */
  function Coeffs(rows: seq<Selected>): (cs: seq<Point>)
    ensures |cs| == |rows|
    ensures forall i :: 0 <= i < |rows| ==> cs[i] == rows[i].coeff
  {
    if rows == [] then [] else [rows[0].coeff] + Coeffs(rows[1..])
  }

  lemma OriginsAppend(a: seq<Selected>, b: seq<Selected>)
    ensures Origins(a + b) == Origins(a) + Origins(b)
  {
    assert forall i :: 0 <= i < |a + b| ==> Origins(a + b)[i] == (Origins(a) + Origins(b))[i];
  }

  lemma CoeffsAppend(a: seq<Selected>, b: seq<Selected>)
    ensures Coeffs(a + b) == Coeffs(a) + Coeffs(b)
  {
    assert forall i :: 0 <= i < |a + b| ==> Coeffs(a + b)[i] == (Coeffs(a) + Coeffs(b))[i];
  }

  /**
   * The buffers after one more row: its point and coefficient are appended
   * when the row is kept, and nothing is otherwise.
   */
  lemma {:induction false} SelectOneMore(rows: seq<Option<Selected>>, i: nat)
    requires i < |rows|
    ensures rows[i].Some? ==>
              Origins(Kept(rows[..i + 1])) == Origins(Kept(rows[..i])) + [rows[i].value.point]
              && Coeffs(Kept(rows[..i + 1])) == Coeffs(Kept(rows[..i])) + [rows[i].value.coeff]
    ensures rows[i].None? ==>
              Origins(Kept(rows[..i + 1])) == Origins(Kept(rows[..i]))
              && Coeffs(Kept(rows[..i + 1])) == Coeffs(Kept(rows[..i]))
  {
    KeptSnoc(rows, i);
    if rows[i].Some? {
      OriginsAppend(Kept(rows[..i]), [rows[i].value]);
      CoeffsAppend(Kept(rows[..i]), [rows[i].value]);
    } else {
      assert Kept(rows[..i + 1]) == Kept(rows[..i]);
    }
  }

  /**
   * The buffers, holding `ori` and `coeffs` before the loop, after one more
   * row: they grow by that row's point and coefficient exactly when it is kept.
   */
  lemma {:induction false} BuffersOneMore(ori: seq<Point>, coeffs: seq<Point>, rows: seq<Option<Selected>>, i: nat)
    requires i < |rows|
    ensures ori + Origins(Kept(rows[..i + 1])) ==
              ori + Origins(Kept(rows[..i])) + (if rows[i].Some? then [rows[i].value.point] else [])
    ensures coeffs + Coeffs(Kept(rows[..i + 1])) ==
              coeffs + Coeffs(Kept(rows[..i])) + (if rows[i].Some? then [rows[i].value.coeff] else [])
  {
    SelectOneMore(rows, i);
  }

  /** Appending to a buffer that already holds a prefix. */
  lemma AppendAssoc(a: seq<Point>, b: seq<Point>, c: seq<Point>)
    ensures a + b + c == a + (b + c)
  {
  }
}
