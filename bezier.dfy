/**
 * The cutscene curve evaluator of camera.py: a de Casteljau-style recursion
 * over the control points, evaluated one coordinate at a time, and the
 * sampler that turns control points into a list of curve points.
 *
 * `round(..., 5)` depends on binary floating point; here it is the parameter
 * `round`, and every property that needs something of it says so.
 */
module Bezier {

  /** A two-component position: a control point, a curve sample or a scroll. */
  datatype Point = Point(x: real, y: real) {
    function Plus(other: Point): Point {
      Point(x + other.x, y + other.y)
    }
  }

  /** Which coordinate to evaluate (`x_or_y` in the source). */
  datatype Axis = X | Y

  function Coord(p: Point, axis: Axis): real {
    match axis
    case X => p.x
    case Y => p.y
  }

  /**
   * `_bezier_curve_point`: a single point is its own coordinate; otherwise the
   * rounded blend of the curve without the last point, weighted `1 - t`, and
   * the curve without the first point, weighted `t`. An empty list makes the
   * source recurse forever, hence the precondition.
   */
  function CurvePoint(pts: seq<Point>, t: real, axis: Axis, round: real -> real): (c: real)
    requires |pts| >= 1
    ensures (forall i :: 0 <= i < |pts| ==> Coord(pts[i], axis) == Coord(pts[0], axis))
            && round(Coord(pts[0], axis)) == Coord(pts[0], axis)
            ==> c == Coord(pts[0], axis)
    decreases |pts|
  {
    if |pts| == 1 then Coord(pts[0], axis)
    else
      assert pts[1..][0] == pts[1];
      round(Blend(CurvePoint(pts[..|pts| - 1], t, axis, round), CurvePoint(pts[1..], t, axis, round), t))
  }

  /** The weighted sum of the two sub-curves: `a * (1 - t) + b * t`. */
  function Blend(a: real, b: real, t: real): real {
    a * (1.0 - t) + b * t
  }

  /** One control point gives that point's coordinate for every `t`, unrounded. */
  lemma SinglePointIsConstant(p: Point, t: real, axis: Axis, round: real -> real)
    ensures CurvePoint([p], t, axis, round) == Coord(p, axis)
  {
  }

  /** Two control points give the rounded linear interpolation between them. */
  lemma TwoPointsInterpolate(a: Point, b: Point, t: real, axis: Axis, round: real -> real)
    ensures CurvePoint([a, b], t, axis, round)
            == round(Blend(Coord(a, axis), Coord(b, axis), t))
  {
    assert [a, b][..1] == [a];
    assert [a, b][1..] == [b];
  }

  /**
   * At `t = 0` the curve starts at the first control point, provided rounding
   * leaves that coordinate alone (it already has at most five decimals).
   */
  lemma {:induction false} StartsAtFirstPoint(pts: seq<Point>, axis: Axis, round: real -> real)
    requires |pts| >= 1
    requires round(Coord(pts[0], axis)) == Coord(pts[0], axis)
    ensures CurvePoint(pts, 0.0, axis, round) == Coord(pts[0], axis)
  {
    if |pts| > 1 {
      var prefix := pts[..|pts| - 1];
      assert prefix[0] == pts[0];
      StartsAtFirstPoint(prefix, axis, round);
    }
  }

  /** At `t = 1` the curve ends at the last control point, under the same proviso. */
  lemma {:induction false} EndsAtLastPoint(pts: seq<Point>, axis: Axis, round: real -> real)
    requires |pts| >= 1
    requires round(Coord(pts[|pts| - 1], axis)) == Coord(pts[|pts| - 1], axis)
    ensures CurvePoint(pts, 1.0, axis, round) == Coord(pts[|pts| - 1], axis)
  {
    if |pts| > 1 {
      var suffix := pts[1..];
      assert suffix[|suffix| - 1] == pts[|pts| - 1];
      EndsAtLastPoint(suffix, axis, round);
    }
  }

  /** `round` never reverses the order of two values (true of rounding to five decimals). */
  ghost predicate Monotone(round: real -> real) {
    forall a: real, b: real :: a <= b ==> round(a) <= round(b)
  }

  /** A blend of two values in `[lo, hi]` with a weight in `[0, 1]` stays in `[lo, hi]`. */
  lemma BlendWithin(a: real, b: real, t: real, lo: real, hi: real)
    requires 0.0 <= t <= 1.0
    requires lo <= a <= hi && lo <= b <= hi
    ensures lo <= Blend(a, b, t) <= hi
  {
    var u := 1.0 - t;
    ScaledGap(a, lo, u);
    ScaledGap(b, lo, t);
    ScaledGap(hi, a, u);
    ScaledGap(hi, b, t);
  }

  /** `(p - q) * w == p * w - q * w`, and it is non-negative when `q <= p` and `w >= 0`. */
  lemma ScaledGap(p: real, q: real, w: real)
    ensures (p - q) * w == p * w - q * w
    ensures q <= p && w >= 0.0 ==> p * w - q * w >= 0.0
  {
  }

  /**
   * Convex hull: for `t` in `[0, 1]` every evaluated coordinate lies between
   * any bounds of the control coordinates that rounding keeps fixed.
   */
  lemma {:induction false} WithinHull(pts: seq<Point>, t: real, axis: Axis, round: real -> real, lo: real, hi: real)
    requires |pts| >= 1 && 0.0 <= t <= 1.0
    requires forall i :: 0 <= i < |pts| ==> lo <= Coord(pts[i], axis) <= hi
    requires Monotone(round) && round(lo) == lo && round(hi) == hi
    ensures lo <= CurvePoint(pts, t, axis, round) <= hi
  {
    if |pts| > 1 {
      var prefix, suffix := pts[..|pts| - 1], pts[1..];
      assert forall i :: 0 <= i < |prefix| ==> prefix[i] == pts[i];
      assert forall i :: 0 <= i < |suffix| ==> suffix[i] == pts[i + 1];
      WithinHull(prefix, t, axis, round, lo, hi);
      WithinHull(suffix, t, axis, round, lo, hi);
      var a, b := CurvePoint(prefix, t, axis, round), CurvePoint(suffix, t, axis, round);
      BlendWithin(a, b, t, lo, hi);
      var m := Blend(a, b, t);
      assert round(lo) <= round(m) <= round(hi);
    }
  }

  /** Both coordinates of the curve at `t`, as `bezier_curve` pairs them. */
  function Sample(pts: seq<Point>, t: real, round: real -> real): Point
    requires |pts| >= 1
  {
    Point(CurvePoint(pts, t, X, round), CurvePoint(pts, t, Y, round))
  }

  /** The parameter value of the `i`-th sample: `t = i * speed`. */
  function Param(i: nat, speed: real): real {
    i as real * speed
  }

  /**
   * The curve as a list of `n` samples appended for `t = 0, speed, 2*speed, ...`.
   * The source derives `n` from `speed` in floating point; here it is given.
   */
  function Curve(pts: seq<Point>, speed: real, n: nat, round: real -> real): (r: seq<Point>)
    requires n > 0 ==> |pts| >= 1
    ensures |r| == n
    ensures forall i :: 0 <= i < n ==> r[i] == Sample(pts, Param(i, speed), round)
  {
    if n == 0 then []
    else
      var init := Curve(pts, speed, n - 1, round);
      init + [Sample(pts, Param(n - 1, speed), round)]
  }

  /** A single control point gives a curve that stays on that point. */
  lemma ConstantCurve(p: Point, speed: real, n: nat, round: real -> real)
    ensures forall i :: 0 <= i < n ==> Curve([p], speed, n, round)[i] == p
  {
    forall i | 0 <= i < n ensures Curve([p], speed, n, round)[i] == p {
      SinglePointIsConstant(p, Param(i, speed), X, round);
      SinglePointIsConstant(p, Param(i, speed), Y, round);
    }
  }

  /** `bezier_curve`: the accumulate loop, one sample per parameter value, in increasing `t`. */
  method BezierCurve(defPoints: seq<Point>, speed: real, n: nat, round: real -> real) returns (points: seq<Point>)
    requires n > 0 ==> |defPoints| >= 1
    ensures |points| == n
    ensures forall i :: 0 <= i < n ==> points[i] == Sample(defPoints, Param(i, speed), round)
    ensures points == Curve(defPoints, speed, n, round)
  {
    points := [];
    for i := 0 to n
      invariant |points| == i
      invariant forall j :: 0 <= j < i ==> points[j] == Sample(defPoints, Param(j, speed), round)
    {
      var t := Param(i, speed);
      points := points + [Point(CurvePoint(defPoints, t, X, round), CurvePoint(defPoints, t, Y, round))];
    }
  }
}
