/**
 * What one Gauss-Newton optimisation of `BasicLaserOdometry` sees and
 * does, stated on values: the inputs that stay fixed during it, the
 * correspondences of every feature point, the rows each iteration
 * selects, and the log of iterations that the optimisation leaves
 * behind. The class in module `Odometry` is proved against these.
 */
module Frames {
  import opened Geometry
  import opened Correspondence
  import opened Selection
  import opened Motion
  import opened Solver

  /** Correspondences are searched again on iterations 0, 5, 10, … */
  const RefreshInterval: nat := 5

  /** Fewer selected points than this and the iteration solves nothing. */
  const MinSelected: nat := 10

  /**
   * The inputs of one optimisation: the kernels, the sweep period, the
   * sharp and flat points of the current sweep, the reference clouds of
   * the previous sweep, and the clouds the two KD-trees last indexed.
   */
  datatype Sweep = Sweep(
    kernel: Kernel, period: Period,
    sharp: seq<Point>, flat: seq<Point>,
    lastCorner: seq<Point>, lastSurface: seq<Point>,
    cornerTree: seq<Point>, surfTree: seq<Point>)

  /**
   * The correspondence indices (`_pointSearchCornerInd1/2`,
   * `_pointSearchSurfInd1/2/3`).
   */
  datatype Matches = Matches(
    corner1: seq<int>, corner2: seq<int>,
    surf1: seq<int>, surf2: seq<int>, surf3: seq<int>)

  /** Sharp point `i`'s edge correspondence `(ind1, ind2)`, searched from transform `t`. */
  ghost predicate CornerMatchedAt(w: Sweep, t: Pose, i: nat, ind1: int, ind2: int)
    requires i < |w.sharp| && |w.cornerTree| > 0
  {
    var q := ToStart(w.kernel, w.period, t, w.sharp[i]);
    EdgeCorrespondence(w.lastCorner, q, NearestNeighbor(w.cornerTree, q), |w.lastCorner|, ind1, ind2)
  }

  /** Every sharp point's edge correspondence, searched from transform `t`. */
  ghost predicate CornerMatched(w: Sweep, t: Pose, ind1: seq<int>, ind2: seq<int>)
  {
    |ind1| == |w.sharp| && |ind2| == |w.sharp| && |w.cornerTree| > 0 &&
    forall i :: 0 <= i < |w.sharp| ==> CornerMatchedAt(w, t, i, ind1[i], ind2[i])
  }

  /** Flat point `i`'s plane correspondence `(ind1, ind2, ind3)`, searched from transform `t`. */
  ghost predicate SurfMatchedAt(w: Sweep, t: Pose, i: nat, ind1: int, ind2: int, ind3: int)
    requires i < |w.flat| && |w.surfTree| > 0
  {
    var q := ToStart(w.kernel, w.period, t, w.flat[i]);
    PlaneCorrespondence(w.lastSurface, q, NearestNeighbor(w.surfTree, q), |w.lastSurface|,
                        ind1, ind2, ind3)
  }

  /** Every flat point's plane correspondence, searched from transform `t`. */
  ghost predicate SurfMatched(w: Sweep, t: Pose, ind1: seq<int>, ind2: seq<int>, ind3: seq<int>)
  {
    |ind1| == |w.flat| && |ind2| == |w.flat| && |ind3| == |w.flat| && |w.surfTree| > 0 &&
    forall i :: 0 <= i < |w.flat| ==> SurfMatchedAt(w, t, i, ind1[i], ind2[i], ind3[i])
  }

  ghost predicate Matched(w: Sweep, t: Pose, m: Matches)
  {
    CornerMatched(w, t, m.corner1, m.corner2) && SurfMatched(w, t, m.surf1, m.surf2, m.surf3)
  }

  /** The index arrays cover the sweep and every valid entry reads inside the reference. */
  predicate CornerIndicesFit(w: Sweep, ind1: seq<int>, ind2: seq<int>)
  {
    |ind1| == |w.sharp| && |ind2| == |w.sharp| &&
    forall i :: 0 <= i < |w.sharp| && ind2[i] >= 0 ==>
      0 <= ind1[i] < |w.lastCorner| && ind2[i] < |w.lastCorner|
  }

  predicate SurfIndicesFit(w: Sweep, ind1: seq<int>, ind2: seq<int>, ind3: seq<int>)
  {
    |ind1| == |w.flat| && |ind2| == |w.flat| && |ind3| == |w.flat| &&
    forall i :: 0 <= i < |w.flat| && ind2[i] >= 0 && ind3[i] >= 0 ==>
      0 <= ind1[i] < |w.lastSurface| && ind2[i] < |w.lastSurface| && ind3[i] < |w.lastSurface|
  }

  predicate MatchesFit(w: Sweep, m: Matches)
  {
    CornerIndicesFit(w, m.corner1, m.corner2) && SurfIndicesFit(w, m.surf1, m.surf2, m.surf3)
  }

  /** Found edge correspondences only ever index into the reference cloud. */
  lemma {:induction false} CornerMatchedFits(w: Sweep, t: Pose, ind1: seq<int>, ind2: seq<int>)
    requires CornerMatched(w, t, ind1, ind2)
    ensures CornerIndicesFit(w, ind1, ind2)
  {
    forall i | 0 <= i < |w.sharp| && ind2[i] >= 0
      ensures 0 <= ind1[i] < |w.lastCorner| && ind2[i] < |w.lastCorner|
    {
      assert CornerMatchedAt(w, t, i, ind1[i], ind2[i]);
      var q := ToStart(w.kernel, w.period, t, w.sharp[i]);
      EdgeCorrespondenceFacts(w.lastCorner, q, NearestNeighbor(w.cornerTree, q),
                              |w.lastCorner|, ind1[i], ind2[i]);
    }
  }

  /** Found plane correspondences only ever index into the reference cloud. */
  lemma {:induction false} SurfMatchedFits(w: Sweep, t: Pose, ind1: seq<int>, ind2: seq<int>, ind3: seq<int>)
    requires SurfMatched(w, t, ind1, ind2, ind3)
    ensures SurfIndicesFit(w, ind1, ind2, ind3)
  {
    forall i | 0 <= i < |w.flat| && ind2[i] >= 0 && ind3[i] >= 0
      ensures 0 <= ind1[i] < |w.lastSurface| && ind2[i] < |w.lastSurface| && ind3[i] < |w.lastSurface|
    {
      assert SurfMatchedAt(w, t, i, ind1[i], ind2[i], ind3[i]);
      var q := ToStart(w.kernel, w.period, t, w.flat[i]);
      PlaneCorrespondenceFacts(w.lastSurface, q, NearestNeighbor(w.surfTree, q),
                               |w.lastSurface|, ind1[i], ind2[i], ind3[i]);
    }
  }

  /** The edge row of sharp point `i`: none without a second corner point. */
  function CornerRow(w: Sweep, iterCount: nat, t: Pose, ind1: seq<int>, ind2: seq<int>, i: nat): Option<Selected>
    requires CornerIndicesFit(w, ind1, ind2) && i < |w.sharp|
  {
    if ind2[i] < 0 then None
    else
      var q := ToStart(w.kernel, w.period, t, w.sharp[i]);
      EdgeRow(iterCount, w.sharp[i],
              w.kernel.edgeResidual(Position(q), Position(w.lastCorner[ind1[i]]),
                                    Position(w.lastCorner[ind2[i]])))
  }

  /** The edge rows of the first `n` sharp points, in order. */
  function CornerRowsUpTo(w: Sweep, iterCount: nat, t: Pose, ind1: seq<int>, ind2: seq<int>, n: nat): (rows: seq<Option<Selected>>)
    requires CornerIndicesFit(w, ind1, ind2) && n <= |w.sharp|
    ensures |rows| == n
    ensures forall i :: 0 <= i < n ==> rows[i] == CornerRow(w, iterCount, t, ind1, ind2, i)
    decreases n
  {
    if n == 0 then [] else CornerRowsUpTo(w, iterCount, t, ind1, ind2, n - 1) + [CornerRow(w, iterCount, t, ind1, ind2, n - 1)]
  }

  function CornerRows(w: Sweep, iterCount: nat, t: Pose, ind1: seq<int>, ind2: seq<int>): (rows: seq<Option<Selected>>)
    requires CornerIndicesFit(w, ind1, ind2)
    ensures |rows| == |w.sharp|
    ensures forall i :: 0 <= i < |w.sharp| ==> rows[i] == CornerRow(w, iterCount, t, ind1, ind2, i)
  {
    CornerRowsUpTo(w, iterCount, t, ind1, ind2, |w.sharp|)
  }

  /** The plane row of flat point `i`: none without both further surface points. */
  function SurfRow(w: Sweep, iterCount: nat, t: Pose, ind1: seq<int>, ind2: seq<int>, ind3: seq<int>, i: nat): Option<Selected>
    requires SurfIndicesFit(w, ind1, ind2, ind3) && i < |w.flat|
  {
    if ind2[i] < 0 || ind3[i] < 0 then None
    else
      var q := ToStart(w.kernel, w.period, t, w.flat[i]);
      PlaneRow(iterCount, w.flat[i],
               w.kernel.planeResidual(Position(q), Position(w.lastSurface[ind1[i]]),
                                      Position(w.lastSurface[ind2[i]]),
                                      Position(w.lastSurface[ind3[i]])),
               w.kernel.range(Position(q)))
  }

  /** The plane rows of the first `n` flat points, in order. */
  function SurfRowsUpTo(w: Sweep, iterCount: nat, t: Pose, ind1: seq<int>, ind2: seq<int>, ind3: seq<int>, n: nat): (rows: seq<Option<Selected>>)
    requires SurfIndicesFit(w, ind1, ind2, ind3) && n <= |w.flat|
    ensures |rows| == n
    ensures forall i :: 0 <= i < n ==> rows[i] == SurfRow(w, iterCount, t, ind1, ind2, ind3, i)
    decreases n
  {
    if n == 0 then [] else SurfRowsUpTo(w, iterCount, t, ind1, ind2, ind3, n - 1) + [SurfRow(w, iterCount, t, ind1, ind2, ind3, n - 1)]
  }

  function SurfRows(w: Sweep, iterCount: nat, t: Pose, ind1: seq<int>, ind2: seq<int>, ind3: seq<int>): (rows: seq<Option<Selected>>)
    requires SurfIndicesFit(w, ind1, ind2, ind3)
    ensures |rows| == |w.flat|
    ensures forall i :: 0 <= i < |w.flat| ==> rows[i] == SurfRow(w, iterCount, t, ind1, ind2, ind3, i)
  {
    SurfRowsUpTo(w, iterCount, t, ind1, ind2, ind3, |w.flat|)
  }

  /**
   * Every kept corner row is the row of a sharp point that has a second
   * corner point; by `EdgeRow`, its distance is non-zero and its weight
   * above 0.1.
   */
  lemma {:induction false} KeptCornerRowValid(w: Sweep, iterCount: nat, t: Pose, ind1: seq<int>, ind2: seq<int>, x: Selected)
    requires CornerIndicesFit(w, ind1, ind2)
    requires x in Kept(CornerRows(w, iterCount, t, ind1, ind2))
    ensures exists i :: 0 <= i < |w.sharp| && CornerRow(w, iterCount, t, ind1, ind2, i) == Some(x)
                        && ind2[i] >= 0 && 0 <= ind1[i] < |w.lastCorner| && x.point == w.sharp[i]
  {
    var rows := CornerRows(w, iterCount, t, ind1, ind2);
    KeptFromInput(rows, x);
    var i :| 0 <= i < |rows| && rows[i] == Some(x);
    assert CornerRow(w, iterCount, t, ind1, ind2, i) == Some(x);
  }

  /**
   * Every kept plane row is the row of a flat point that has a second and
   * a third surface point; by `PlaneRow`, its distance is non-zero and its
   * weight above 0.1.
   */
  lemma {:induction false} KeptSurfRowValid(w: Sweep, iterCount: nat, t: Pose, ind1: seq<int>, ind2: seq<int>, ind3: seq<int>, x: Selected)
    requires SurfIndicesFit(w, ind1, ind2, ind3)
    requires x in Kept(SurfRows(w, iterCount, t, ind1, ind2, ind3))
    ensures exists i :: 0 <= i < |w.flat| && SurfRow(w, iterCount, t, ind1, ind2, ind3, i) == Some(x)
                        && ind2[i] >= 0 && ind3[i] >= 0 && 0 <= ind1[i] < |w.lastSurface|
                        && x.point == w.flat[i]
  {
    var rows := SurfRows(w, iterCount, t, ind1, ind2, ind3);
    KeptFromInput(rows, x);
    var i :| 0 <= i < |rows| && rows[i] == Some(x);
    assert SurfRow(w, iterCount, t, ind1, ind2, ind3, i) == Some(x);
  }

  /** The rows one iteration selects: kept corner rows, then kept plane rows. */
  function SelectedRows(w: Sweep, iterCount: nat, t: Pose, m: Matches): seq<Selected>
    requires MatchesFit(w, m)
  {
    Kept(CornerRows(w, iterCount, t, m.corner1, m.corner2)
         + SurfRows(w, iterCount, t, m.surf1, m.surf2, m.surf3))
  }

  /**
   * Buffers cleared and then filled with the corner rows followed by the
   * plane rows hold exactly the selected rows.
   */
  lemma {:induction false} SelectedRowsInOrder(w: Sweep, iterCount: nat, t: Pose, m: Matches)
    requires MatchesFit(w, m)
    ensures var corner := Kept(CornerRows(w, iterCount, t, m.corner1, m.corner2));
            var surf := Kept(SurfRows(w, iterCount, t, m.surf1, m.surf2, m.surf3));
            Origins(SelectedRows(w, iterCount, t, m)) == [] + Origins(corner) + Origins(surf)
            && Coeffs(SelectedRows(w, iterCount, t, m)) == [] + Coeffs(corner) + Coeffs(surf)
  {
    var cornerRows := CornerRows(w, iterCount, t, m.corner1, m.corner2);
    var surfRows := SurfRows(w, iterCount, t, m.surf1, m.surf2, m.surf3);
    KeptAppend(cornerRows, surfRows);
    OriginsAppend(Kept(cornerRows), Kept(surfRows));
    CoeffsAppend(Kept(cornerRows), Kept(surfRows));
    assert [] + Origins(Kept(cornerRows)) == Origins(Kept(cornerRows));
    assert [] + Coeffs(Kept(cornerRows)) == Coeffs(Kept(cornerRows));
  }

  /** The linear-algebra result of an iteration that had enough rows. */
  datatype Update = Update(hessian: Mat6, raw: Vec6, increment: Vec6)

  /**
   * One iteration: the transform before it, the correspondences it used,
   * the selected points and coefficients, the update (none when fewer than
   * 10 points were selected) and the transform after it.
   */
  datatype Iteration = Iteration(
    before: Pose, matches: Matches, ori: seq<Point>, coeff: seq<Point>,
    update: Option<Update>, after: Pose)

  /**
   * Iteration `iterCount` done right: fresh correspondences on refresh
   * iterations; the selected rows of those correspondences; a solve only
   * with at least 10 rows; the increment projected when the optimisation is
   * degenerate; the transform updated with per-component reset, or left
   * alone when nothing was solved.
   */
  ghost predicate IterationOk(w: Sweep, iterCount: nat, e: Iteration, degenerate: bool, projection: Mat6)
  {
    MatchesFit(w, e.matches)
    && (iterCount % RefreshInterval == 0 ==> Matched(w, e.before, e.matches))
    && e.ori == Origins(SelectedRows(w, iterCount, e.before, e.matches))
    && e.coeff == Coeffs(SelectedRows(w, iterCount, e.before, e.matches))
    && (e.update.None? <==> |e.ori| < MinSelected)
    && (e.update.None? ==> e.after == e.before)
    && (e.update.Some? ==>
          var u := e.update.value;
          u.hessian == w.kernel.hessian(e.ori, e.coeff, e.before)
          && u.raw == w.kernel.solve(u.hessian, w.kernel.gradient(e.ori, e.coeff, e.before))
          && u.increment == (if degenerate then Project(projection, u.raw) else u.raw)
          && e.after == ApplyIncrement(e.before, u.increment))
  }

  /** The early stop: an update whose increment is below both thresholds. */
  predicate Stops(e: Iteration)
  {
    e.update.Some? && Converged(e.update.value.increment)
  }

  /**
   * Degeneracy is decided once, by the first iteration and only if it
   * solved; it is false for the whole run when the first iteration was
   * skipped.
   */
  ghost function RunDegenerate(w: Sweep, log: seq<Iteration>): bool
  {
    |log| > 0 && log[0].update.Some?
    && w.kernel.eigen(log[0].update.value.hessian).values[0] < EigenThreshold
  }

  ghost function RunProjection(w: Sweep, log: seq<Iteration>): Mat6
  {
    if |log| > 0 && log[0].update.Some? then Projection(w.kernel, log[0].update.value.hessian)
    else ZeroMatrix
  }

  /** Every iteration of `log` done right, under one degeneracy decision. */
  ghost predicate AllIterationsOk(w: Sweep, log: seq<Iteration>, degenerate: bool, projection: Mat6)
  {
    forall k {:trigger IterationOk(w, k, log[k], degenerate, projection)} :: 0 <= k < |log| ==>
      IterationOk(w, k, log[k], degenerate, projection)
  }

  /** The first iteration starts from `start`, every other one where the previous ended. */
  predicate Chained(start: Pose, log: seq<Iteration>)
  {
    (|log| > 0 ==> log[0].before == start)
    && forall k :: 0 < k < |log| ==> log[k].before == log[k - 1].after
  }

  /** Between refresh iterations the correspondences are carried over unchanged. */
  predicate Carried(log: seq<Iteration>)
  {
    forall k :: 0 < k < |log| && k % RefreshInterval != 0 ==> log[k].matches == log[k - 1].matches
  }

  /** No iteration but possibly the last one converged. */
  predicate NoEarlyStop(log: seq<Iteration>)
  {
    forall k :: 0 <= k < |log| - 1 ==> !Stops(log[k])
  }

  /** The transform after the iterations of `log`, from `start`. */
  function Final(start: Pose, log: seq<Iteration>): Pose
  {
    if |log| == 0 then start else log[|log| - 1].after
  }

  /**
   * A whole optimisation from transform `start` ending in transform `end`:
   * every iteration done right, chained, correspondences carried between
   * refreshes; at most `maxIterations` iterations (at least one when the
   * cap allows); stopping before the cap exactly right after the first
   * converged update.
   */
  ghost predicate OptimizationLog(w: Sweep, maxIterations: nat, start: Pose, log: seq<Iteration>, end: Pose)
  {
    AllIterationsOk(w, log, RunDegenerate(w, log), RunProjection(w, log))
    && Chained(start, log)
    && Carried(log)
    && NoEarlyStop(log)
    && |log| <= maxIterations
    && (maxIterations > 0 ==> |log| > 0)
    && (|log| < maxIterations ==> |log| > 0 && Stops(log[|log| - 1]))
    && end == Final(start, log)
  }

  /**
   * Appending one more iteration done right keeps every iteration of the
   * log done right.
   */
  lemma {:induction false} ExtendIterationsOk(w: Sweep, log: seq<Iteration>, e: Iteration,
                                              degenerate: bool, projection: Mat6)
    requires AllIterationsOk(w, log, degenerate, projection)
    requires IterationOk(w, |log|, e, degenerate, projection)
    ensures AllIterationsOk(w, log + [e], degenerate, projection)
  {
    forall k | 0 <= k < |log| + 1
      ensures IterationOk(w, k, (log + [e])[k], degenerate, projection)
    {
      if k < |log| {
        assert (log + [e])[k] == log[k];
      }
    }
  }

  /**
   * Appending an iteration that starts where the log ended, and that keeps
   * the correspondences unless it refreshes them, keeps the log chained and
   * carried; when no earlier iteration converged, none but the last does.
   */
  lemma {:induction false} ExtendChain(start: Pose, log: seq<Iteration>, e: Iteration)
    requires Chained(start, log) && e.before == Final(start, log)
    requires Carried(log)
    requires 0 < |log| && |log| % RefreshInterval != 0 ==> e.matches == log[|log| - 1].matches
    requires NoEarlyStop(log) && (0 < |log| ==> !Stops(log[|log| - 1]))
    ensures Chained(start, log + [e]) && Carried(log + [e]) && NoEarlyStop(log + [e])
    ensures Final(start, log + [e]) == e.after && (log + [e])[|log|] == e
    ensures 0 < |log| ==> (log + [e])[0] == log[0]
  {
    var next := log + [e];
    forall k | 0 <= k < |next| - 1
      ensures !Stops(next[k])
    {
      assert next[k] == log[k];
    }
    forall k | 0 < k < |next|
      ensures next[k].before == next[k - 1].after
    {
      if k < |log| {
        assert next[k] == log[k] && next[k - 1] == log[k - 1];
      }
    }
    forall k | 0 < k < |next| && k % RefreshInterval != 0
      ensures next[k].matches == next[k - 1].matches
    {
      if k < |log| {
        assert next[k] == log[k] && next[k - 1] == log[k - 1];
      }
    }
  }

  /**
   * The iterations run so far, from `start`: every one done right under the
   * degeneracy decision of the first, chained, correspondences carried, no
   * early stop, and the last correspondences indexing the reference.
   */
  ghost predicate RunSoFar(w: Sweep, start: Pose, log: seq<Iteration>, degenerate: bool, projection: Mat6)
  {
    AllIterationsOk(w, log, degenerate, projection)
    && degenerate == RunDegenerate(w, log) && projection == RunProjection(w, log)
    && Chained(start, log) && Carried(log) && NoEarlyStop(log)
    && (|log| > 0 ==> MatchesFit(w, log[|log| - 1].matches))
  }

  /**
   * One more iteration extends a run that has not stopped, the first one
   * fixing the degeneracy decision.
   */
  lemma {:induction false} ExtendRun(w: Sweep, start: Pose, log: seq<Iteration>, e: Iteration,
                                     degenerate: bool, projection: Mat6,
                                     degenerate': bool, projection': Mat6)
    requires RunSoFar(w, start, log, degenerate, projection)
    requires |log| > 0 ==> !Stops(log[|log| - 1])
    requires IterationOk(w, |log|, e, degenerate', projection')
    requires e.before == Final(start, log)
    requires 0 < |log| && |log| % RefreshInterval != 0 ==> e.matches == log[|log| - 1].matches
    requires |log| == 0 && e.update.Some? ==>
               degenerate' == (w.kernel.eigen(e.update.value.hessian).values[0] < EigenThreshold)
               && projection' == Projection(w.kernel, e.update.value.hessian)
    requires !(|log| == 0 && e.update.Some?) ==> degenerate' == degenerate && projection' == projection
    ensures RunSoFar(w, start, log + [e], degenerate', projection')
    ensures Final(start, log + [e]) == e.after && (log + [e])[|log|] == e
  {
    ExtendIterationsOk(w, log, e, degenerate', projection');
    ExtendChain(start, log, e);
  }

  /** A run that ended at the cap or right after a converged update is a whole optimisation. */
  lemma RunIsOptimization(w: Sweep, maxIterations: nat, start: Pose, log: seq<Iteration>,
                          degenerate: bool, projection: Mat6)
    requires RunSoFar(w, start, log, degenerate, projection)
    requires |log| <= maxIterations && (maxIterations > 0 ==> |log| > 0)
    requires |log| < maxIterations ==> |log| > 0 && Stops(log[|log| - 1])
    ensures OptimizationLog(w, maxIterations, start, log, Final(start, log))
  {
  }

  /** The transform applying, in order, the increment of every iteration that solved. */
  function Composed(start: Pose, log: seq<Iteration>): Pose
    decreases |log|
  {
    if |log| == 0 then start
    else
      var prev := Composed(start, log[..|log| - 1]);
      match log[|log| - 1].update
      case None => prev
      case Some(u) => ApplyIncrement(prev, u.increment)
  }

  /**
   * The transform an optimisation ends in is its start transform with the
   * increments of the iterations that solved applied in order; iterations
   * skipped for lack of points leave no trace.
   */
  lemma {:induction false} FinalIsComposed(w: Sweep, start: Pose, log: seq<Iteration>,
                                           degenerate: bool, projection: Mat6)
    requires AllIterationsOk(w, log, degenerate, projection) && Chained(start, log)
    ensures Final(start, log) == Composed(start, log)
    decreases |log|
  {
    if |log| > 0 {
      var n := |log| - 1;
      var prefix := log[..n];
      assert IterationOk(w, n, log[n], degenerate, projection);
      assert AllIterationsOk(w, prefix, degenerate, projection) by {
        forall k | 0 <= k < n
          ensures IterationOk(w, k, prefix[k], degenerate, projection)
        {
          assert prefix[k] == log[k];
        }
      }
      assert Chained(start, prefix) by {
        forall k | 0 < k < n
          ensures prefix[k].before == prefix[k - 1].after
        {
          assert prefix[k] == log[k] && prefix[k - 1] == log[k - 1];
        }
      }
      FinalIsComposed(w, start, prefix, degenerate, projection);
    }
  }

  /** `k - k % RefreshInterval` is the last refresh iteration at or before `k`. */
  lemma LastRefresh(k: nat)
    ensures 0 <= k - k % RefreshInterval <= k
    ensures (k - k % RefreshInterval) % RefreshInterval == 0
    ensures k % RefreshInterval != 0 ==>
              k > 0 && (k - 1) - (k - 1) % RefreshInterval == k - k % RefreshInterval
  {
  }

  /** Iteration `k` uses the correspondences of the last refresh iteration at or before it. */
  lemma {:induction false} MatchesSinceRefresh(log: seq<Iteration>, k: nat)
    requires Carried(log) && k < |log|
    ensures log[k].matches == log[k - k % RefreshInterval].matches
    decreases k
  {
    LastRefresh(k);
    if k % RefreshInterval != 0 {
      MatchesSinceRefresh(log, k - 1);
    }
  }

  lemma RefreshIterationMatched(w: Sweep, j: nat, e: Iteration, degenerate: bool, projection: Mat6)
    requires IterationOk(w, j, e, degenerate, projection) && j % RefreshInterval == 0
    ensures Matched(w, e.before, e.matches)
  {
  }

  /**
   * The correspondences used by iteration `k` are the ones found, from the
   * transform of that time, by the last refresh iteration at or before `k`.
   */
  lemma {:induction false} MatchesFromLastRefresh(w: Sweep, log: seq<Iteration>, degenerate: bool, projection: Mat6, k: nat)
    requires AllIterationsOk(w, log, degenerate, projection) && Carried(log) && k < |log|
    ensures Matched(w, log[k - k % RefreshInterval].before, log[k].matches)
  {
    var j := k - k % RefreshInterval;
    LastRefresh(k);
    MatchesSinceRefresh(log, k);
    var e := log[j];
    assert e.matches == log[k].matches;
    assert IterationOk(w, j, log[j], degenerate, projection);
    RefreshIterationMatched(w, j, e, degenerate, projection);
  }

  /**
   * When the first iteration selects fewer than 10 points, the run is
   * never degenerate: every later update is applied unprojected.
   */
  lemma {:induction false} SkippedStartIsNeverDegenerate(w: Sweep, log: seq<Iteration>)
    requires AllIterationsOk(w, log, RunDegenerate(w, log), RunProjection(w, log))
    requires |log| > 0 && |log[0].ori| < MinSelected
    ensures forall k :: 0 <= k < |log| && log[k].update.Some? ==>
              log[k].update.value.increment == log[k].update.value.raw
  {
    assert IterationOk(w, 0, log[0], RunDegenerate(w, log), RunProjection(w, log));
    forall k | 0 <= k < |log| && log[k].update.Some?
      ensures log[k].update.value.increment == log[k].update.value.raw
    {
      assert IterationOk(w, k, log[k], RunDegenerate(w, log), RunProjection(w, log));
    }
  }
}
