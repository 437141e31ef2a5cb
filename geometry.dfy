/**
 * Points, the monitor's bounding box, the mapping of normalised coordinates
 * onto the monitor, and the arithmetic mean of a point cloud.
 * Coordinates are reals; floating-point rounding is not modelled.
 */
module Geometry {

  datatype Point = Point(x: real, y: real)

  /**
   * The chosen monitor's bounding box. The source stores it as
   * `[x, x + width, y, y + height]`; the model keeps origin and size, so
   * `bounding_box[1] - bounding_box[0]` is `width`.
   */
  datatype Box = Box(x: real, width: real, y: real, height: real)

  /** The half-open range `0 <= c < 1` every submitted coordinate must lie in. */
  predicate InUnit(c: real) {
    0.0 <= c < 1.0
  }

  predicate PointInUnit(p: Point) {
    InUnit(p.x) && InUnit(p.y)
  }

  /** True when `p` lies on the monitor: `[x, x + width) x [y, y + height)`. */
  predicate OnMonitor(p: Point, box: Box) {
    box.x <= p.x < box.x + box.width && box.y <= p.y < box.y + box.height
  }

  predicate NonDegenerate(box: Box) {
    0.0 < box.width && 0.0 < box.height
  }

  /** One axis of the mapping: the fraction `c` of a span of length `w` starting at `lo`. */
  function Scale(c: real, lo: real, w: real): real {
    c * w + lo
  }


  lemma ScaleInRange(c: real, lo: real, w: real)
    requires InUnit(c) && 0.0 < w
    ensures lo <= Scale(c, lo, w) < lo + w
  {
  }

  lemma ScaleMonotone(c: real, d: real, lo: real, w: real)
    requires c <= d && 0.0 <= w
    ensures Scale(c, lo, w) <= Scale(d, lo, w)
  {
  }

  lemma SquareInUnit(c: real)
    requires InUnit(c)
    ensures InUnit(c * c) && c * c <= c
  {
  }

  lemma EaseAxisBelow(c: real, lo: real, w: real)
    requires InUnit(c) && 0.0 < w
    ensures Scale(c * c, lo, w) <= Scale(c, lo, w)
  {
    SquareInUnit(c);
    ScaleMonotone(c * c, c, lo, w);
  }

  /**
   * Click mapping: each coordinate is squared before scaling, easing clicks
   * toward the box's low edges. A click in the unit square lands on the monitor.
   */
  function EasePoint(p: Point, box: Box): (r: Point)
    ensures PointInUnit(p) && NonDegenerate(box) ==> OnMonitor(r, box)
  {
    if PointInUnit(p) && NonDegenerate(box) then
      SquareInUnit(p.x);
      SquareInUnit(p.y);
      ScaleInRange(p.x * p.x, box.x, box.width);
      ScaleInRange(p.y * p.y, box.y, box.height);
      Point(Scale(p.x * p.x, box.x, box.width), Scale(p.y * p.y, box.y, box.height))
    else
      Point(Scale(p.x * p.x, box.x, box.width), Scale(p.y * p.y, box.y, box.height))
  }

  /** Drag mapping: a plain linear scale onto the box. An endpoint in the unit square lands on the monitor. */
  function ScalePoint(p: Point, box: Box): (r: Point)
    ensures PointInUnit(p) && NonDegenerate(box) ==> OnMonitor(r, box)
  {
    if PointInUnit(p) && NonDegenerate(box) then
      ScaleInRange(p.x, box.x, box.width);
      ScaleInRange(p.y, box.y, box.height);
      Point(Scale(p.x, box.x, box.width), Scale(p.y, box.y, box.height))
    else
      Point(Scale(p.x, box.x, box.width), Scale(p.y, box.y, box.height))
  }

  /** The click mapping never places a point further from the low edges than the linear one does. */
  lemma EaseBelowScale(p: Point, box: Box)
    requires PointInUnit(p) && NonDegenerate(box)
    ensures EasePoint(p, box).x <= ScalePoint(p, box).x
    ensures EasePoint(p, box).y <= ScalePoint(p, box).y
  {
    EaseAxisBelow(p.x, box.x, box.width);
    EaseAxisBelow(p.y, box.y, box.height);
  }

  function SumX(ps: seq<Point>): real {
    if ps == [] then 0.0 else ps[0].x + SumX(ps[1..])
  }

  function SumY(ps: seq<Point>): real {
    if ps == [] then 0.0 else ps[0].y + SumY(ps[1..])
  }


  lemma {:induction false} SumsOfConcat(a: seq<Point>, b: seq<Point>)
    ensures SumX(a + b) == SumX(a) + SumX(b)
    ensures SumY(a + b) == SumY(a) + SumY(b)
  {
    if a == [] {
      assert a + b == b;
    } else {
      assert (a + b)[1..] == a[1..] + b;
      SumsOfConcat(a[1..], b);
    }
  }

  /** `[p] * n`: Python repeats a one-element list `n` times, and yields `[]` for `n <= 0`. */
  function Copies(p: Point, n: int): (r: seq<Point>)
    ensures n <= 0 ==> r == []
    ensures n > 0 ==> |r| == n
    ensures forall q :: q in r ==> q == p
  {
    seq(if n > 0 then n else 0, _ => p)
  }

  /**
   * `np.mean(points, axis=0)`. The mean of a cloud of identical points is
   * that point.
   */
  function Mean(ps: seq<Point>): (r: Point)
    requires ps != []
    ensures (forall i :: 0 <= i < |ps| ==> ps[i] == ps[0]) ==> r == ps[0]
  {
    if forall i :: 0 <= i < |ps| ==> ps[i] == ps[0] then
      assert ps == Copies(ps[0], |ps|);
      SumsOfCopies(ps[0], |ps|);
      Point(SumX(ps) / |ps| as real, SumY(ps) / |ps| as real)
    else
      Point(SumX(ps) / |ps| as real, SumY(ps) / |ps| as real)
  }

  /** `n` copies of a point weigh exactly `n` times the point. */
  lemma {:induction false} SumsOfCopies(p: Point, n: nat)
    ensures SumX(Copies(p, n)) == n as real * p.x
    ensures SumY(Copies(p, n)) == n as real * p.y
  {
    if n > 0 {
      assert Copies(p, n)[1..] == Copies(p, n - 1);
      SumsOfCopies(p, n - 1);
    }
  }

  function Total(w: seq<real>): real {
    if w == [] then 0.0 else w[0] + Total(w[1..])
  }

  function DotX(w: seq<real>, ps: seq<Point>): real
    requires |w| == |ps|
  {
    if ps == [] then 0.0 else w[0] * ps[0].x + DotX(w[1..], ps[1..])
  }

  function DotY(w: seq<real>, ps: seq<Point>): real
    requires |w| == |ps|
  {
    if ps == [] then 0.0 else w[0] * ps[0].y + DotY(w[1..], ps[1..])
  }

  /** `w` holds non-negative weights summing to one whose combination of `ps` is `p`. */
  predicate IsConvexCombination(w: seq<real>, ps: seq<Point>, p: Point) {
    && |w| == |ps|
    && (forall i :: 0 <= i < |w| ==> w[i] >= 0.0)
    && Total(w) == 1.0
    && DotX(w, ps) == p.x
    && DotY(w, ps) == p.y
  }

  /** `p` lies in the convex hull of the cloud `ps`. */
  ghost predicate InHull(p: Point, ps: seq<Point>) {
    exists w :: IsConvexCombination(w, ps, p)
  }

  lemma {:induction false} UniformWeights(w: seq<real>, ps: seq<Point>, k: real)
    requires |w| == |ps|
    requires forall i :: 0 <= i < |w| ==> w[i] == k
    ensures Total(w) == |w| as real * k
    ensures DotX(w, ps) == k * SumX(ps)
    ensures DotY(w, ps) == k * SumY(ps)
  {
    if ps != [] {
      UniformWeights(w[1..], ps[1..], k);
    }
  }

  /** The mean of a non-empty cloud is a point of its convex hull (equal weights `1/|ps|`). */
  lemma MeanInHull(ps: seq<Point>)
    requires ps != []
    ensures InHull(Mean(ps), ps)
  {
    var n := |ps| as real;
    var k := 1.0 / n;
    var w := seq(|ps|, _ => k);
    UniformWeights(w, ps, k);
    assert k * SumX(ps) == SumX(ps) / n;
    assert k * SumY(ps) == SumY(ps) / n;
    assert IsConvexCombination(w, ps, Mean(ps));
  }
}
