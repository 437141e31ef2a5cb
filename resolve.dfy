/**
 * `find_center_cluster`: turn the window's weighted submissions into one
 * action. Each submission is expanded into `n` copies of its point(s), weight
 * is tallied per kind, the first kind with the largest tally wins, and the
 * winning kind's point cloud is reduced to one point.
 *
 * For clicks the reduction (DBSCAN with eps 150 and min_samples 1, the most
 * populated cluster, its mean) belongs to a foreign library: it is the
 * parameter `cluster`, of which only one thing is assumed, that it returns a
 * point of the convex hull of a non-empty cloud. Drag endpoints are the plain
 * means of their clouds, as the source computes them.
 */
module Resolve {
  import opened Wrappers
  import opened Geometry
  import opened Ingest

  /** The result dictionary: `{"type", "x", "y"}` or `{"type": "drag", "start", "end"}`. */
  datatype Action = ClickAction(kind: Kind, at: Point) | DragAction(start: Point, end: Point)

  /** An action, or the exception (an unbound local) that the poll loop catches. */
  datatype Outcome = Emitted(action: Action) | Raised

  /** The three point clouds: left and right clicks share one, drags fill two. */
  datatype Part = Clicks | Starts | Ends

  /** A collaborator that maps a non-empty cloud into its convex hull. */
  ghost predicate StaysInHull(cluster: seq<Point> -> Point) {
    forall c :: c != [] ==> InHull(cluster(c), c)
  }

  /**
   * The action's point lies in the convex hull of the click cloud, or its
   * start and end in the hulls of the start and end clouds.
   */
  ghost predicate DrawnFromClouds(es: seq<PendingAction>, a: Action)
    requires AllShaped(es)
  {
    match a
    case ClickAction(_, p) => InHull(p, Cloud(es, Clicks))
    case DragAction(s, e) => InHull(s, Cloud(es, Starts)) && InHull(e, Cloud(es, Ends))
  }

  /** Every submission weighs at least one, as with non-negative boosts. */
  predicate AllWeighted(es: seq<PendingAction>) {
    forall i :: 0 <= i < |es| ==> es[i].n >= 1
  }

  predicate NoNegativeWeight(es: seq<PendingAction>) {
    forall i :: 0 <= i < |es| ==> es[i].n >= 0
  }

  /**
   * `click_counts[kind]`: the weight of the window's submissions of that kind.
   * With weights of at least one it is zero exactly when no submission has
   * that kind.
   */
  function Tally(es: seq<PendingAction>, k: Kind): (r: int)
    ensures NoNegativeWeight(es) ==> r >= 0
    ensures AllWeighted(es) ==> (r == 0 <==> forall i :: 0 <= i < |es| ==> es[i].click != k)
  {
    if es == [] then 0
    else
      var a := es[|es| - 1];
      Tally(es[..|es| - 1], k) + (if a.click == k then a.n else 0)
  }

  /** The point a submission adds to cloud `part`, if any. */
  function PointFor(a: PendingAction, part: Part): Option<Point>
    requires Shaped(a.click, a.coords)
  {
    match part
    case Clicks => if a.click != Drag then Some(a.coords.p) else None
    case Starts => if a.click == Drag then Some(a.coords.start) else None
    case Ends => if a.click == Drag then Some(a.coords.end) else None
  }

  /** `[point] * n` for the cloud the submission feeds, nothing for the others. */
  function Contribution(a: PendingAction, part: Part): seq<Point>
    requires Shaped(a.click, a.coords)
  {
    match PointFor(a, part)
    case Some(p) => Copies(p, a.n)
    case None => []
  }

  /** The cloud `part`: each submission contributes `n` copies of its point. */
  function Cloud(es: seq<PendingAction>, part: Part): seq<Point>
    requires AllShaped(es)
  {
    if es == [] then []
    else Cloud(es[..|es| - 1], part) + Contribution(es[|es| - 1], part)
  }

  /** The weight the cloud `part` should carry: the sum of `n` over the submissions that feed it. */
  function PartWeight(es: seq<PendingAction>, part: Part): int {
    match part
    case Clicks => Tally(es, Left) + Tally(es, Right)
    case _ => Tally(es, Drag)
  }

  /** `n * point` for the cloud the submission feeds, the origin for the others. */
  function Weighted(a: PendingAction, part: Part): Point
    requires Shaped(a.click, a.coords)
  {
    match PointFor(a, part)
    case Some(p) => Point(a.n as real * p.x, a.n as real * p.y)
    case None => Point(0.0, 0.0)
  }

  /** The weighted sum `n * point` over the submissions feeding cloud `part`. */
  function Moment(es: seq<PendingAction>, part: Part): Point
    requires AllShaped(es)
  {
    if es == [] then Point(0.0, 0.0)
    else
      var m, w := Moment(es[..|es| - 1], part), Weighted(es[|es| - 1], part);
      Point(m.x + w.x, m.y + w.y)
  }

  /** The start and end of the last drag in the window, which the loop leaves in `x_start` .. `y_end`. */
  function LastDrag(es: seq<PendingAction>): Option<(Point, Point)>
    requires AllShaped(es)
  {
    if es == [] then None
    else
      var a := es[|es| - 1];
      if a.click == Drag then Some((a.coords.start, a.coords.end)) else LastDrag(es[..|es| - 1])
  }

  /** `es[i]` is a drag and no later submission is one. */
  predicate IsLastDrag(es: seq<PendingAction>, i: int)
    requires AllShaped(es) && 0 <= i < |es|
  {
    es[i].click == Drag && es[i].coords.Span? && forall j :: i < j < |es| ==> es[j].click != Drag
  }

  /** Every point of a cloud is the point some submission of the window feeds it. */
  lemma {:induction false} CloudPointsSubmitted(es: seq<PendingAction>, part: Part)
    requires AllShaped(es)
    ensures forall q :: q in Cloud(es, part) ==> exists i :: 0 <= i < |es| && PointFor(es[i], part) == Some(q)
    decreases |es|
  {
    if es != [] {
      var init, last := es[..|es| - 1], |es| - 1;
      CloudPointsSubmitted(init, part);
      forall q | q in Cloud(es, part)
        ensures exists i :: 0 <= i < |es| && PointFor(es[i], part) == Some(q)
      {
        if q in Cloud(init, part) {
          var i :| 0 <= i < |init| && PointFor(init[i], part) == Some(q);
          assert es[i] == init[i];
        } else {
          assert q in Contribution(es[last], part);
          assert PointFor(es[last], part) == Some(q);
        }
      }
    }
  }

  /**
   * `LastDrag` finds nothing exactly when the window holds no drag, and
   * otherwise the endpoints of a drag that no later submission follows.
   */
  lemma {:induction false} LastDragIsLast(es: seq<PendingAction>)
    requires AllShaped(es)
    ensures LastDrag(es).None? <==> forall i :: 0 <= i < |es| ==> es[i].click != Drag
    ensures LastDrag(es).Some? ==>
              exists i :: 0 <= i < |es| && IsLastDrag(es, i)
                          && LastDrag(es).value == (es[i].coords.start, es[i].coords.end)
    decreases |es|
  {
    if es != [] {
      var init, last := es[..|es| - 1], |es| - 1;
      LastDragIsLast(init);
      if es[last].click == Drag {
        assert IsLastDrag(es, last);
      } else {
        assert forall i :: 0 <= i < |init| ==> es[i] == init[i];
        if LastDrag(init).Some? {
          var i :| 0 <= i < |init| && IsLastDrag(init, i)
                   && LastDrag(init).value == (init[i].coords.start, init[i].coords.end);
          assert IsLastDrag(es, i);
        }
      }
    }
  }

  function Rank(k: Kind): nat {
    match k
    case Left => 0
    case Right => 1
    case Drag => 2
  }

  function Pick(k: Kind, left: int, right: int, drag: int): int {
    match k
    case Left => left
    case Right => right
    case Drag => drag
  }

  /**
   * `max(click_counts, key=click_counts.get)` over the dict built in the order
   * left, right, drag: the first kind whose tally is maximal.
   */
  function Winner(left: int, right: int, drag: int): (w: Kind)
    ensures forall k :: Pick(k, left, right, drag) <= Pick(w, left, right, drag)
    ensures forall k :: Rank(k) < Rank(w) ==> Pick(k, left, right, drag) < Pick(w, left, right, drag)
  {
    if left >= right && left >= drag then Left
    else if right >= drag then Right
    else Drag
  }

  /**
   * What `find_center_cluster` returns. A drag endpoint is the mean of its
   * cloud, or, when that cloud is empty, the last drag's endpoint left over
   * from the loop; with neither the variable is unbound and the call raises.
   */
  function Resolution(es: seq<PendingAction>, cluster: seq<Point> -> Point): (r: Outcome)
    requires AllShaped(es)
    ensures r.Emitted? && r.action.ClickAction? ==>
              r.action.kind == Winner(Tally(es, Left), Tally(es, Right), Tally(es, Drag)) != Drag
              && Cloud(es, Clicks) != []
    ensures r.Emitted? && r.action.DragAction? ==>
              Winner(Tally(es, Left), Tally(es, Right), Tally(es, Drag)) == Drag
    ensures r.Raised? <==>
              if Winner(Tally(es, Left), Tally(es, Right), Tally(es, Drag)) == Drag
              then (Cloud(es, Starts) == [] || Cloud(es, Ends) == []) && LastDrag(es).None?
              else Cloud(es, Clicks) == []
  {
    var w := Winner(Tally(es, Left), Tally(es, Right), Tally(es, Drag));
    if w == Drag then
      var last := LastDrag(es);
      var starts, ends := Cloud(es, Starts), Cloud(es, Ends);
      var start := if starts != [] then Some(Mean(starts)) else if last.Some? then Some(last.value.0) else None;
      var end := if ends != [] then Some(Mean(ends)) else if last.Some? then Some(last.value.1) else None;
      if start.Some? && end.Some? then Emitted(DragAction(start.value, end.value)) else Raised
    else
      var clicks := Cloud(es, Clicks);
      if clicks != [] then Emitted(ClickAction(w, cluster(clicks))) else Raised
  }

  /** What the loop leaves in `x_start, y_start` and `x_end, y_end`: unbound without a drag. */
  function LeftOver(last: Option<(Point, Point)>): (Option<Point>, Option<Point>) {
    match last
    case None => (None, None)
    case Some((s, e)) => (Some(s), Some(e))
  }

  /**
   * The loop of `find_center_cluster`: one pass over the window fills the
   * three clouds and the three tallies and leaves the last drag's endpoints.
   */
  method Pass(es: seq<PendingAction>)
    returns (clicks: seq<Point>, starts: seq<Point>, ends: seq<Point>,
             left: int, right: int, drag: int, startAt: Option<Point>, endAt: Option<Point>)
    requires AllShaped(es)
    ensures clicks == Cloud(es, Clicks) && starts == Cloud(es, Starts) && ends == Cloud(es, Ends)
    ensures left == Tally(es, Left) && right == Tally(es, Right) && drag == Tally(es, Drag)
    ensures (startAt, endAt) == LeftOver(LastDrag(es))
  {
    clicks, starts, ends := [], [], [];
    left, right, drag := 0, 0, 0;
    startAt, endAt := None, None;
    for i := 0 to |es|
      invariant clicks == Cloud(es[..i], Clicks)
      invariant starts == Cloud(es[..i], Starts)
      invariant ends == Cloud(es[..i], Ends)
      invariant left == Tally(es[..i], Left)
      invariant right == Tally(es[..i], Right)
      invariant drag == Tally(es[..i], Drag)
      invariant (startAt, endAt) == LeftOver(LastDrag(es[..i]))
    {
      var a := es[i];
      ExtendWindow(es, i);
      if a.click == Drag {
        startAt, endAt := Some(a.coords.start), Some(a.coords.end);
        starts := starts + Copies(a.coords.start, a.n);
        ends := ends + Copies(a.coords.end, a.n);
        drag := drag + a.n;
      } else {
        clicks := clicks + Copies(a.coords.p, a.n);
        if a.click == Left {
          left := left + a.n;
        } else {
          right := right + a.n;
        }
      }
    }
    assert es[..|es|] == es;
  }

  /** `find_center_cluster`: one pass over the window, then the winner and its point(s). */
  method FindCenterCluster(es: seq<PendingAction>, cluster: seq<Point> -> Point) returns (out: Outcome)
    requires AllShaped(es)
    ensures out == Resolution(es, cluster)
  {
    var clicks, starts, ends, left, right, drag, startAt, endAt := Pass(es);
    var winner := Winner(left, right, drag);
    var center: Option<Point> := None;
    if |clicks| > 0 {
      center := Some(cluster(clicks));
    }
    if |starts| > 0 {
      startAt := Some(Mean(starts));
    }
    if |ends| > 0 {
      endAt := Some(Mean(ends));
    }
    if winner == Drag {
      if startAt.Some? && endAt.Some? {
        out := Emitted(DragAction(startAt.value, endAt.value));
      } else {
        out := Raised;
      }
    } else if center.Some? {
      out := Emitted(ClickAction(winner, center.value));
    } else {
      out := Raised;
    }
  }

  /** What one more submission adds to each cloud, each tally and the last drag. */
  lemma ExtendWindow(es: seq<PendingAction>, i: nat)
    requires AllShaped(es) && i < |es|
    ensures var a, before, after := es[i], es[..i], es[..i + 1];
      && Cloud(after, Clicks) == Cloud(before, Clicks) + (if a.click != Drag then Copies(a.coords.p, a.n) else [])
      && Cloud(after, Starts) == Cloud(before, Starts) + (if a.click == Drag then Copies(a.coords.start, a.n) else [])
      && Cloud(after, Ends) == Cloud(before, Ends) + (if a.click == Drag then Copies(a.coords.end, a.n) else [])
      && (forall k :: Tally(after, k) == Tally(before, k) + (if a.click == k then a.n else 0))
      && LastDrag(after) == (if a.click == Drag then Some((a.coords.start, a.coords.end)) else LastDrag(before))
  {
    var after := es[..i + 1];
    assert after[..|after| - 1] == es[..i] && after[|after| - 1] == es[i];
  }

  /**
   * Expanding each submission into `n` copies gives each cloud exactly the
   * weight of the submissions that feed it.
   */
  lemma {:induction false} CloudSizeIsWeight(es: seq<PendingAction>, part: Part)
    requires AllShaped(es) && NoNegativeWeight(es)
    ensures |Cloud(es, part)| == PartWeight(es, part)
    decreases |es|
  {
    if es != [] {
      CloudSizeIsWeight(es[..|es| - 1], part);
    }
  }

  /**
   * Duplication realises weighting: the cloud's coordinate sums are the
   * weighted sums `n * point` over the submissions.
   */
  lemma {:induction false} CloudSumIsMoment(es: seq<PendingAction>, part: Part)
    requires AllShaped(es) && NoNegativeWeight(es)
    ensures SumX(Cloud(es, part)) == Moment(es, part).x
    ensures SumY(Cloud(es, part)) == Moment(es, part).y
    decreases |es|
  {
    if es != [] {
      var init, a := es[..|es| - 1], es[|es| - 1];
      CloudSumIsMoment(init, part);
      SumsOfConcat(Cloud(init, part), Contribution(a, part));
      ContributionSum(a, part);
    }
  }

  lemma ContributionSum(a: PendingAction, part: Part)
    requires Shaped(a.click, a.coords) && a.n >= 0
    ensures SumX(Contribution(a, part)) == Weighted(a, part).x
    ensures SumY(Contribution(a, part)) == Weighted(a, part).y
  {
    match PointFor(a, part)
    case Some(p) => SumsOfCopies(p, a.n);
    case None =>
  }

  /** A drag endpoint is the weighted average of the submitted endpoints. */
  lemma MeanIsWeightedAverage(es: seq<PendingAction>, part: Part)
    requires AllShaped(es) && NoNegativeWeight(es)
    requires Cloud(es, part) != []
    ensures PartWeight(es, part) > 0
    ensures Mean(Cloud(es, part))
              == Point(Moment(es, part).x / PartWeight(es, part) as real,
                       Moment(es, part).y / PartWeight(es, part) as real)
  {
    CloudSizeIsWeight(es, part);
    CloudSumIsMoment(es, part);
  }

  /** With every weight at least one, the three tallies add up to at least the number of submissions. */
  lemma {:induction false} TalliesCoverWindow(es: seq<PendingAction>)
    requires AllWeighted(es)
    ensures Tally(es, Left) + Tally(es, Right) + Tally(es, Drag) >= |es|
    ensures Tally(es, Left) >= 0 && Tally(es, Right) >= 0 && Tally(es, Drag) >= 0
    decreases |es|
  {
    if es != [] {
      TalliesCoverWindow(es[..|es| - 1]);
    }
  }

  /**
   * On a non-empty window whose weights are all at least one, the winning
   * kind's cloud is not empty, so nothing raises: an action of the winning
   * kind is emitted. (The `None` branch of the source cannot be reached: the
   * winner is always one of the three kinds.)
   */
  lemma ResolutionEmits(es: seq<PendingAction>, cluster: seq<Point> -> Point)
    requires AllShaped(es) && AllWeighted(es) && es != []
    ensures Resolution(es, cluster).Emitted?
    ensures var w := Winner(Tally(es, Left), Tally(es, Right), Tally(es, Drag));
      match Resolution(es, cluster).action
      case ClickAction(k, _) => k == w && k != Drag
      case DragAction(_, _) => w == Drag
  {
    TalliesCoverWindow(es);
    CloudSizeIsWeight(es, Clicks);
    CloudSizeIsWeight(es, Starts);
  }

  /**
   * Every emitted point is a point of the convex hull of the cloud it was
   * drawn from: the click cloud's for a click, the start and end clouds' for
   * a drag.
   */
  lemma EmittedInHull(es: seq<PendingAction>, cluster: seq<Point> -> Point)
    requires AllShaped(es) && AllWeighted(es) && StaysInHull(cluster)
    ensures Resolution(es, cluster).Emitted? ==> DrawnFromClouds(es, Resolution(es, cluster).action)
  {
    TalliesCoverWindow(es);
    CloudSizeIsWeight(es, Starts);
    CloudSizeIsWeight(es, Ends);
    var starts, ends := Cloud(es, Starts), Cloud(es, Ends);
    if starts != [] {
      MeanInHull(starts);
    }
    if ends != [] {
      MeanInHull(ends);
    }
  }
}
