/**
 * Nearest-feature correspondence search against the previous sweep's
 * reference cloud: the index scans of `findCornerCorrespondence` and
 * `findPlaneCorrespondence` for one feature point.
 *
 * Starting from the nearest neighbour `c` (ring `ring0`), the reference
 * cloud is scanned forward (c+1, c+2, ...) until a point lies more than
 * 2.5 rings above `ring0`, then backward (c-1, c-2, ...) until a point lies
 * more than 2.5 rings below. Among the points visited, a running arg-min of
 * the squared distance to the query (starting at the cap 25) selects
 *  - an ADJACENT-ring point: ring above `ring0` going forward, below going
 *    backward (the second edge point, the third plane point);
 *  - a SAME-ring point: ring at most `ring0` going forward, at least
 *    `ring0` going backward (the second plane point).
 */
module Correspondence {
  import opened Geometry

  /** Squared-distance cap: 5 m. */
  const MaxSqDist: real := 25.0
  /** Ring window for the index scans. */
  const RingWindow: real := 2.5

  /** Result of the nearest-neighbour query: index and squared distance. */
  datatype Neighbor = Neighbor(index: int, sqDis: real)

  datatype Role = AdjacentRing | SameRing

  /** The nearest point of a non-empty cloud (the first one on ties). */
  function NearestNeighbor(cloud: seq<Point>, q: Point): (nn: Neighbor)
    requires |cloud| > 0
    ensures 0 <= nn.index < |cloud| && nn.sqDis == SqDist(cloud[nn.index], q)
    ensures forall k :: 0 <= k < |cloud| ==> nn.sqDis <= SqDist(cloud[k], q)
    decreases |cloud|
  {
    if |cloud| == 1 then Neighbor(0, SqDist(cloud[0], q))
    else
      var best := NearestNeighbor(cloud[..|cloud| - 1], q);
      var last := SqDist(cloud[|cloud| - 1], q);
      if last < best.sqDis then Neighbor(|cloud| - 1, last) else best
  }

  predicate AboveWindow(ring: int, ring0: int) { ring as real > ring0 as real + RingWindow }

  predicate BelowWindow(ring: int, ring0: int) { (ring as real) < ring0 as real - RingWindow }

  /** Where the forward scan starting at `j` stops: the bound, or the first point above the window. */
  function ForwardEnd(ref: seq<Point>, ring0: int, j: nat, bound: nat): (e: nat)
    requires bound <= |ref|
    ensures j <= e && (e == j || e <= bound)
    ensures e < bound ==> AboveWindow(Ring(ref[e]), ring0)
    ensures forall k :: j <= k < e ==> !AboveWindow(Ring(ref[k]), ring0)
    decreases bound - j
  {
    if j >= bound then j
    else if AboveWindow(Ring(ref[j]), ring0) then j
    else ForwardEnd(ref, ring0, j + 1, bound)
  }

  /** Where the backward scan starting at `j` stops: -1, or the first point below the window. */
  function BackwardEnd(ref: seq<Point>, ring0: int, j: int): (e: int)
    requires -1 <= j < |ref|
    ensures -1 <= e <= j
    ensures e >= 0 ==> BelowWindow(Ring(ref[e]), ring0)
    ensures forall k :: e < k <= j ==> !BelowWindow(Ring(ref[k]), ring0)
    decreases j + 1
  {
    if j < 0 then -1
    else if BelowWindow(Ring(ref[j]), ring0) then j
    else BackwardEnd(ref, ring0, j - 1)
  }

  /** Whether the ring of reference point `k` qualifies it for `role`. */
  predicate Eligible(ref: seq<Point>, ring0: int, c: int, role: Role, k: int)
    requires 0 <= k < |ref|
  {
    var r := Ring(ref[k]);
    match role
    case AdjacentRing => (k > c && r > ring0) || (k < c && r < ring0)
    case SameRing => (k > c && r <= ring0) || (k < c && r >= ring0)
  }

  /** Point `k` was visited by a forward scan ending before `fe` or a backward scan ending after `be`. */
  predicate Visited(c: int, fe: int, be: int, k: int) { c < k < fe || be < k < c }

  /** Point `a` is visited before point `b` (forward scan first, then backward). */
  predicate ScanBefore(c: int, a: int, b: int) { c < a < b || b < c < a || b < a < c }

  predicate Considered(ref: seq<Point>, ring0: int, c: int, fe: int, be: int, role: Role, k: int)
  {
    0 <= k < |ref| && Visited(c, fe, be, k) && Eligible(ref, ring0, c, role, k)
  }

  /**
   * `ind`/`d` is the running arg-min over the considered points: -1 with
   * the cap if no considered point is closer than the cap, otherwise a
   * considered point at distance `d` < cap that no considered point beats,
   * and that every considered point visited earlier is strictly farther than.
   */
  ghost predicate RunningBest(ref: seq<Point>, q: Point, ring0: int, c: int, fe: int, be: int,
                              role: Role, ind: int, d: real)
  {
    && d <= MaxSqDist
    && (ind == -1 ==> d == MaxSqDist)
    && (ind != -1 ==>
          && Considered(ref, ring0, c, fe, be, role, ind)
          && d == SqDist(ref[ind], q) && d < MaxSqDist)
    && (forall k :: Considered(ref, ring0, c, fe, be, role, k) ==> d <= SqDist(ref[k], q))
    && (ind != -1 ==>
          forall k :: Considered(ref, ring0, c, fe, be, role, k) && ScanBefore(c, k, ind) ==>
                        d < SqDist(ref[k], q))
  }

  /** `ind` is what the two scans around `c` (forward scan bounded by `bound`) select for `role`. */
  ghost predicate IsBestMatch(ref: seq<Point>, q: Point, c: int, bound: nat, role: Role, ind: int)
    requires 0 <= c < |ref| && bound <= |ref|
  {
    var ring0 := Ring(ref[c]);
    RunningBest(ref, q, ring0, c, ForwardEnd(ref, ring0, c + 1, bound),
                BackwardEnd(ref, ring0, c - 1), role, ind,
                if 0 <= ind < |ref| then SqDist(ref[ind], q) else MaxSqDist)
  }

  /** The edge correspondence (`ind1`, `ind2`) of query `q` with nearest neighbour `nn`. */
  ghost predicate EdgeCorrespondence(ref: seq<Point>, q: Point, nn: Neighbor, bound: nat,
                                     ind1: int, ind2: int)
    requires bound <= |ref|
  {
    if nn.sqDis >= MaxSqDist then ind1 == -1 && ind2 == -1
    else
      && 0 <= nn.index < |ref| && ind1 == nn.index
      && IsBestMatch(ref, q, ind1, bound, AdjacentRing, ind2)
  }

  /** The plane correspondence (`ind1`, `ind2`, `ind3`) of query `q` with nearest neighbour `nn`. */
  ghost predicate PlaneCorrespondence(ref: seq<Point>, q: Point, nn: Neighbor, bound: nat,
                                      ind1: int, ind2: int, ind3: int)
    requires bound <= |ref|
  {
    if nn.sqDis >= MaxSqDist then ind1 == -1 && ind2 == -1 && ind3 == -1
    else
      && 0 <= nn.index < |ref| && ind1 == nn.index
      && IsBestMatch(ref, q, ind1, bound, SameRing, ind2)
      && IsBestMatch(ref, q, ind1, bound, AdjacentRing, ind3)
  }

  /** Before the backward scan starts, its visited range (c - 1, c) is as empty as (c, c). */
  lemma BackwardScanStarts(ref: seq<Point>, q: Point, ring0: int, c: int, fe: int, role: Role,
                           ind: int, d: real)
    requires RunningBest(ref, q, ring0, c, fe, c, role, ind, d)
    ensures RunningBest(ref, q, ring0, c, fe, c - 1, role, ind, d)
  {
    forall k ensures Considered(ref, ring0, c, fe, c - 1, role, k) == Considered(ref, ring0, c, fe, c, role, k) {
    }
  }

  /** Folds the visit of point `j` into the running best. */
  lemma VisitStep(ref: seq<Point>, q: Point, ring0: int, c: int, fe: int, be: int, role: Role,
                  ind: int, d: real, j: int, fe': int, be': int, ind': int, d': real)
    requires 0 <= j < |ref| && j != c
    requires RunningBest(ref, q, ring0, c, fe, be, role, ind, d)
    requires (j > c && fe' == j + 1 && fe == j && be' == be && be' == c)
          || (j < c && be' == j - 1 && be == j && fe' == fe)
    requires if Eligible(ref, ring0, c, role, j) && SqDist(ref[j], q) < d
             then ind' == j && d' == SqDist(ref[j], q)
             else ind' == ind && d' == d
    ensures RunningBest(ref, q, ring0, c, fe', be', role, ind', d')
  {
    forall k | Considered(ref, ring0, c, fe', be', role, k)
      ensures d' <= SqDist(ref[k], q)
      ensures ind' != -1 && ScanBefore(c, k, ind') ==> d' < SqDist(ref[k], q)
    {
      if k != j {
        assert Considered(ref, ring0, c, fe, be, role, k);
      }
    }
  }

  /**
   * The forward scan of `findCornerCorrespondence`: from `c + 1` up to
   * `bound`, stopping above the ring window, keeping the closest point on a
   * higher ring.
   */
  method EdgeScanForward(ref: seq<Point>, q: Point, c: nat, ring0: int, bound: nat)
    returns (minInd: int, minSqDis: real)
    requires c < |ref| && bound <= |ref|
    ensures RunningBest(ref, q, ring0, c, ForwardEnd(ref, ring0, c + 1, bound), c,
                        AdjacentRing, minInd, minSqDis)
  {
    minInd, minSqDis := -1, MaxSqDist;
    ghost var fe := ForwardEnd(ref, ring0, c + 1, bound);
    var j := c + 1;
    while j < bound
      invariant c + 1 <= j <= fe
      invariant ForwardEnd(ref, ring0, j, bound) == fe
      invariant RunningBest(ref, q, ring0, c, j, c, AdjacentRing, minInd, minSqDis)
      decreases bound - j
    {
      var scanId := Ring(ref[j]);
      if AboveWindow(scanId, ring0) {
        break;
      }
      ghost var ind0, dis0 := minInd, minSqDis;
      if scanId <= ring0 {
        VisitStep(ref, q, ring0, c, j, c, AdjacentRing, ind0, dis0, j, j + 1, c, minInd, minSqDis);
        j := j + 1;
        continue;
      }
      var pointSqDis := SqDist(ref[j], q);
      if pointSqDis < minSqDis {
        minSqDis := pointSqDis;
        minInd := j;
      }
      VisitStep(ref, q, ring0, c, j, c, AdjacentRing, ind0, dis0, j, j + 1, c, minInd, minSqDis);
      j := j + 1;
    }
  }

  /**
   * The backward scan of `findCornerCorrespondence`: from `c - 1` down to
   * 0, stopping below the ring window, continuing the running minimum of
   * the forward scan (which ended at `fe`) over points on a lower ring.
   */
  method EdgeScanBackward(ref: seq<Point>, q: Point, c: nat, ring0: int, fe: nat,
                          ind0: int, dis0: real)
    returns (minInd: int, minSqDis: real)
    requires c < fe <= |ref|
    requires RunningBest(ref, q, ring0, c, fe, c, AdjacentRing, ind0, dis0)
    ensures RunningBest(ref, q, ring0, c, fe, BackwardEnd(ref, ring0, c - 1),
                        AdjacentRing, minInd, minSqDis)
  {
    minInd, minSqDis := ind0, dis0;
    BackwardScanStarts(ref, q, ring0, c, fe, AdjacentRing, ind0, dis0);
    ghost var be := BackwardEnd(ref, ring0, c - 1);
    var j := c - 1;
    while j >= 0
      invariant be <= j <= c - 1
      invariant BackwardEnd(ref, ring0, j) == be
      invariant RunningBest(ref, q, ring0, c, fe, j, AdjacentRing, minInd, minSqDis)
    {
      var scanId := Ring(ref[j]);
      if BelowWindow(scanId, ring0) {
        break;
      }
      ghost var ind1, dis1 := minInd, minSqDis;
      if scanId >= ring0 {
        VisitStep(ref, q, ring0, c, fe, j, AdjacentRing, ind1, dis1, j, fe, j - 1, minInd, minSqDis);
        j := j - 1;
        continue;
      }
      var pointSqDis := SqDist(ref[j], q);
      if pointSqDis < minSqDis {
        minSqDis := pointSqDis;
        minInd := j;
      }
      VisitStep(ref, q, ring0, c, fe, j, AdjacentRing, ind1, dis1, j, fe, j - 1, minInd, minSqDis);
      j := j - 1;
    }
  }

  /**
   * `findCornerCorrespondence` for one corner point: `q` is the point
   * reprojected to the sweep start, `nn` the nearest-neighbour result and
   * `bound` the exclusive upper bound of the forward scan.
   */
  method FindEdgeCorrespondence(ref: seq<Point>, q: Point, nn: Neighbor, bound: nat)
    returns (ind1: int, ind2: int)
    requires bound <= |ref|
    requires nn.sqDis < MaxSqDist ==> 0 <= nn.index < |ref|
    ensures EdgeCorrespondence(ref, q, nn, bound, ind1, ind2)
  {
    if nn.sqDis >= MaxSqDist {
      return -1, -1;
    }
    var c := nn.index;
    var ring0 := Ring(ref[c]);
    var minInd, minSqDis := EdgeScanForward(ref, q, c, ring0, bound);
    minInd, minSqDis := EdgeScanBackward(ref, q, c, ring0, ForwardEnd(ref, ring0, c + 1, bound),
                                         minInd, minSqDis);
    ind1 := c;
    ind2 := minInd;
  }

  /**
   * The forward scan of `findPlaneCorrespondence`: from `c + 1` up to
   * `bound`, stopping above the ring window; a point on a ring at most
   * `ring0` competes for the second plane point, one on a higher ring for
   * the third.
   */
  method PlaneScanForward(ref: seq<Point>, q: Point, c: nat, ring0: int, bound: nat)
    returns (minInd2: int, minSqDis2: real, minInd3: int, minSqDis3: real)
    requires c < |ref| && bound <= |ref|
    ensures RunningBest(ref, q, ring0, c, ForwardEnd(ref, ring0, c + 1, bound), c,
                        SameRing, minInd2, minSqDis2)
    ensures RunningBest(ref, q, ring0, c, ForwardEnd(ref, ring0, c + 1, bound), c,
                        AdjacentRing, minInd3, minSqDis3)
  {
    minInd2, minSqDis2 := -1, MaxSqDist;
    minInd3, minSqDis3 := -1, MaxSqDist;
    ghost var fe := ForwardEnd(ref, ring0, c + 1, bound);
    var j := c + 1;
    while j < bound
      invariant c + 1 <= j <= fe
      invariant ForwardEnd(ref, ring0, j, bound) == fe
      invariant RunningBest(ref, q, ring0, c, j, c, SameRing, minInd2, minSqDis2)
      invariant RunningBest(ref, q, ring0, c, j, c, AdjacentRing, minInd3, minSqDis3)
      decreases bound - j
    {
      var scanId := Ring(ref[j]);
      if AboveWindow(scanId, ring0) {
        break;
      }
      ghost var ind2, dis2, ind3, dis3 := minInd2, minSqDis2, minInd3, minSqDis3;
      var pointSqDis := SqDist(ref[j], q);
      if scanId <= ring0 {
        if pointSqDis < minSqDis2 {
          minSqDis2 := pointSqDis;
          minInd2 := j;
        }
      } else {
        if pointSqDis < minSqDis3 {
          minSqDis3 := pointSqDis;
          minInd3 := j;
        }
      }
      VisitStep(ref, q, ring0, c, j, c, SameRing, ind2, dis2, j, j + 1, c, minInd2, minSqDis2);
      VisitStep(ref, q, ring0, c, j, c, AdjacentRing, ind3, dis3, j, j + 1, c, minInd3, minSqDis3);
      j := j + 1;
    }
  }

  /**
   * The backward scan of `findPlaneCorrespondence`: from `c - 1` down to 0,
   * stopping below the ring window; a point on a ring at least `ring0`
   * competes for the second plane point, one on a lower ring for the third.
   */
  method PlaneScanBackward(ref: seq<Point>, q: Point, c: nat, ring0: int, fe: nat,
                           ind2: int, dis2: real, ind3: int, dis3: real)
    returns (minInd2: int, minSqDis2: real, minInd3: int, minSqDis3: real)
    requires c < fe <= |ref|
    requires RunningBest(ref, q, ring0, c, fe, c, SameRing, ind2, dis2)
    requires RunningBest(ref, q, ring0, c, fe, c, AdjacentRing, ind3, dis3)
    ensures RunningBest(ref, q, ring0, c, fe, BackwardEnd(ref, ring0, c - 1),
                        SameRing, minInd2, minSqDis2)
    ensures RunningBest(ref, q, ring0, c, fe, BackwardEnd(ref, ring0, c - 1),
                        AdjacentRing, minInd3, minSqDis3)
  {
    minInd2, minSqDis2, minInd3, minSqDis3 := ind2, dis2, ind3, dis3;
    BackwardScanStarts(ref, q, ring0, c, fe, SameRing, ind2, dis2);
    BackwardScanStarts(ref, q, ring0, c, fe, AdjacentRing, ind3, dis3);
    ghost var be := BackwardEnd(ref, ring0, c - 1);
    var j := c - 1;
    while j >= 0
      invariant be <= j <= c - 1
      invariant BackwardEnd(ref, ring0, j) == be
      invariant RunningBest(ref, q, ring0, c, fe, j, SameRing, minInd2, minSqDis2)
      invariant RunningBest(ref, q, ring0, c, fe, j, AdjacentRing, minInd3, minSqDis3)
    {
      var scanId := Ring(ref[j]);
      if BelowWindow(scanId, ring0) {
        break;
      }
      ghost var i2, d2, i3, d3 := minInd2, minSqDis2, minInd3, minSqDis3;
      var pointSqDis := SqDist(ref[j], q);
      if scanId >= ring0 {
        if pointSqDis < minSqDis2 {
          minSqDis2 := pointSqDis;
          minInd2 := j;
        }
      } else {
        if pointSqDis < minSqDis3 {
          minSqDis3 := pointSqDis;
          minInd3 := j;
        }
      }
      VisitStep(ref, q, ring0, c, fe, j, SameRing, i2, d2, j, fe, j - 1, minInd2, minSqDis2);
      VisitStep(ref, q, ring0, c, fe, j, AdjacentRing, i3, d3, j, fe, j - 1, minInd3, minSqDis3);
      j := j - 1;
    }
  }

  /**
   * `findPlaneCorrespondence` for one planar point: `q` is the point
   * reprojected to the sweep start, `nn` the nearest-neighbour result and
   * `bound` the exclusive upper bound of the forward scan.
   */
  method FindPlaneCorrespondence(ref: seq<Point>, q: Point, nn: Neighbor, bound: nat)
    returns (ind1: int, ind2: int, ind3: int)
    requires bound <= |ref|
    requires nn.sqDis < MaxSqDist ==> 0 <= nn.index < |ref|
    ensures PlaneCorrespondence(ref, q, nn, bound, ind1, ind2, ind3)
  {
    if nn.sqDis >= MaxSqDist {
      return -1, -1, -1;
    }
    var c := nn.index;
    var ring0 := Ring(ref[c]);
    var minInd2, minSqDis2, minInd3, minSqDis3 := PlaneScanForward(ref, q, c, ring0, bound);
    minInd2, minSqDis2, minInd3, minSqDis3 :=
      PlaneScanBackward(ref, q, c, ring0, ForwardEnd(ref, ring0, c + 1, bound),
                        minInd2, minSqDis2, minInd3, minSqDis3);
    ind1 := c;
    ind2 := minInd2;
    ind3 := minInd3;
  }

  /**
   * A selected point is an in-range index other than `c`, closer than the
   * cap, not beyond the 2.5-ring window in its scan direction; an adjacent-ring point lies one or
   * two rings away, a same-ring point lies at or below `ring0` when found
   * forward and at or above it when found backward.
   */
  lemma BestMatchFacts(ref: seq<Point>, q: Point, c: int, bound: nat, role: Role, ind: int)
    requires 0 <= c < |ref| && bound <= |ref|
    requires IsBestMatch(ref, q, c, bound, role, ind) && ind != -1
    ensures 0 <= ind < |ref| && ind != c && SqDist(ref[ind], q) < MaxSqDist
    ensures role == AdjacentRing ==> (1 <= Ring(ref[ind]) - Ring(ref[c]) <= 2 || 1 <= Ring(ref[c]) - Ring(ref[ind]) <= 2)
    ensures role == SameRing && ind > c ==> Ring(ref[ind]) <= Ring(ref[c])
    ensures role == SameRing && ind < c ==> Ring(ref[ind]) >= Ring(ref[c])
    ensures ind > c ==> !AboveWindow(Ring(ref[ind]), Ring(ref[c]))
    ensures ind < c ==> !BelowWindow(Ring(ref[ind]), Ring(ref[c]))
  {
    var ring0 := Ring(ref[c]);
    var fe := ForwardEnd(ref, ring0, c + 1, bound);
    var be := BackwardEnd(ref, ring0, c - 1);
    assert Considered(ref, ring0, c, fe, be, role, ind);
    if ind > c {
      assert c + 1 <= ind < fe;
    } else {
      assert be < ind <= c - 1;
    }
  }

  /** When the reference rings ascend with the index, the second plane point lies on the ring of the first. */
  lemma SortedRingsGiveSameRing(ref: seq<Point>, q: Point, c: int, bound: nat, ind: int)
    requires 0 <= c < |ref| && bound <= |ref|
    requires forall a, b :: 0 <= a < b < |ref| ==> Ring(ref[a]) <= Ring(ref[b])
    requires IsBestMatch(ref, q, c, bound, SameRing, ind) && ind != -1
    ensures Ring(ref[ind]) == Ring(ref[c])
  {
    BestMatchFacts(ref, q, c, bound, SameRing, ind);
    if ind > c {
      assert Ring(ref[c]) <= Ring(ref[ind]);
    } else {
      assert Ring(ref[ind]) <= Ring(ref[c]);
    }
  }

  /** The scans determine their result: at most one index satisfies `IsBestMatch`. */
  lemma BestMatchUnique(ref: seq<Point>, q: Point, c: int, bound: nat, role: Role, a: int, b: int)
    requires 0 <= c < |ref| && bound <= |ref|
    requires IsBestMatch(ref, q, c, bound, role, a)
    requires IsBestMatch(ref, q, c, bound, role, b)
    ensures a == b
  {
    var ring0 := Ring(ref[c]);
    var fe := ForwardEnd(ref, ring0, c + 1, bound);
    var be := BackwardEnd(ref, ring0, c - 1);
    if a != -1 && b != -1 {
      assert Considered(ref, ring0, c, fe, be, role, a);
      assert Considered(ref, ring0, c, fe, be, role, b);
      assert a == b || ScanBefore(c, a, b) || ScanBefore(c, b, a);
    }
  }

  /** An edge pair: `ind2` valid implies `ind1` valid, distinct, and one or two rings apart. */
  lemma EdgeCorrespondenceFacts(ref: seq<Point>, q: Point, nn: Neighbor, bound: nat,
                                ind1: int, ind2: int)
    requires bound <= |ref|
    requires EdgeCorrespondence(ref, q, nn, bound, ind1, ind2)
    ensures nn.sqDis >= MaxSqDist ==> ind1 == -1 && ind2 == -1
    ensures nn.sqDis < MaxSqDist ==> ind1 == nn.index
    ensures ind2 == -1 || (ind2 >= 0 && ind1 >= 0)
    ensures ind2 >= 0 ==> ind1 < |ref| && ind2 < |ref| && ind2 != ind1
    ensures ind2 >= 0 ==> (1 <= Ring(ref[ind2]) - Ring(ref[ind1]) <= 2 || 1 <= Ring(ref[ind1]) - Ring(ref[ind2]) <= 2)
    ensures ind2 >= 0 ==> SqDist(ref[ind2], q) < MaxSqDist
  {
    if nn.sqDis < MaxSqDist && ind2 != -1 {
      BestMatchFacts(ref, q, ind1, bound, AdjacentRing, ind2);
    }
  }

  /** A plane triple: valid `ind2`/`ind3` imply valid `ind1`; `ind3` is one or two rings away. */
  lemma PlaneCorrespondenceFacts(ref: seq<Point>, q: Point, nn: Neighbor, bound: nat,
                                 ind1: int, ind2: int, ind3: int)
    requires bound <= |ref|
    requires PlaneCorrespondence(ref, q, nn, bound, ind1, ind2, ind3)
    ensures nn.sqDis >= MaxSqDist ==> ind1 == -1 && ind2 == -1 && ind3 == -1
    ensures nn.sqDis < MaxSqDist ==> ind1 == nn.index
    ensures ind2 == -1 || (0 <= ind1 < |ref| && 0 <= ind2 < |ref| && ind2 != ind1)
    ensures ind3 == -1 || (0 <= ind1 < |ref| && 0 <= ind3 < |ref| && ind3 != ind1)
    ensures ind2 > ind1 >= 0 ==> Ring(ref[ind2]) <= Ring(ref[ind1])
    ensures 0 <= ind2 < ind1 ==> Ring(ref[ind2]) >= Ring(ref[ind1])
    ensures ind3 >= 0 ==> (1 <= Ring(ref[ind3]) - Ring(ref[ind1]) <= 2 || 1 <= Ring(ref[ind1]) - Ring(ref[ind3]) <= 2)
    ensures ind2 >= 0 ==> SqDist(ref[ind2], q) < MaxSqDist
    ensures ind3 >= 0 ==> SqDist(ref[ind3], q) < MaxSqDist
  {
    if nn.sqDis < MaxSqDist {
      if ind2 != -1 {
        BestMatchFacts(ref, q, ind1, bound, SameRing, ind2);
      }
      if ind3 != -1 {
        BestMatchFacts(ref, q, ind1, bound, AdjacentRing, ind3);
      }
    }
  }

  /**
   * The reference indices the forward scan reads when, as written, its
   * bound is the current sweep's feature count `bound` rather than the
   * reference size: from `j` while `j < bound`, stopping after a point
   * above the ring window. A read past the end of `ref` is undefined
   * behaviour and ends the sequence.
   */
  function ForwardReadsAsWritten(ref: seq<Point>, ring0: int, j: nat, bound: nat): (visited: seq<nat>)
    ensures |visited| <= bound - j || (|visited| == 0 && bound <= j)
    decreases bound - j
  {
    if j >= bound then []
    else if j >= |ref| then [j]
    else if AboveWindow(Ring(ref[j]), ring0) then [j]
    else [j] + ForwardReadsAsWritten(ref, ring0, j + 1, bound)
  }

  /**
   * As written, with 11 reference points (all on ring 0), 13 current
   * corner points and the nearest neighbour at index 10, the forward scan
   * reads reference index 11, past the end of the reference cloud.
   */
  lemma AsWrittenForwardScanReadsPastEnd()
    ensures var ref := seq(11, i => Point(0.0, 0.0, 0.0, 0.0));
            var visited := ForwardReadsAsWritten(ref, 0, 11, 13);
            |visited| > 0 && visited[0] >= |ref|
  {
  }

  /** With the bound capped at the reference size, every read of the forward scan is in range. */
  lemma {:induction false} ForwardReadsInRange(ref: seq<Point>, ring0: int, j: nat, bound: nat)
    requires bound <= |ref|
    ensures forall k :: k in ForwardReadsAsWritten(ref, ring0, j, bound) ==> k < |ref|
    decreases bound - j
  {
    if j < bound && !AboveWindow(Ring(ref[j]), ring0) {
      ForwardReadsInRange(ref, ring0, j + 1, bound);
    }
  }
}
