/**
 * The geometric leaf of the engine: pen samples (class `t`), the square-root
 * based distance, the velocity between two samples, and the cubic Bezier
 * segment (class `e`) with its control-point construction and length.
 *
 * The only square root the engine takes is `Math.sqrt(dx * dx + dy * dy)`.
 * It is a parameter `h: Hypot` here; `IsNorm(h)` states the two facts about
 * that square root the lemmas need, and the lemmas that need them require it.
 */
module Geometry {
  import opened Wrappers

  /** A pen sample: position, pressure and a timestamp in milliseconds. */
  datatype Point = Point(x: real, y: real, pressure: real, time: int)

  /** A bare coordinate pair: all a control point carries that is ever read. */
  datatype Vec = Vec(x: real, y: real)

  /** Stands for `(dx, dy) => Math.sqrt(dx * dx + dy * dy)`. */
  type Hypot = (real, real) -> real

  /**
   * What the lemmas use of the square root of `dx² + dy²`: it is never
   * negative, and it is 0 exactly on the zero vector.
   */
  ghost predicate IsNorm(h: Hypot) {
    forall dx: real, dy: real :: 0.0 <= h(dx, dy) && (h(dx, dy) == 0.0 <==> dx == 0.0 && dy == 0.0)
  }

  /**
   * The constructor `new t(x, y, pressure, time)`. `pressure || 0` is the
   * identity on reals; `time || Date.now()` replaces a zero time by the clock.
   */
  function NewPoint(x: real, y: real, pressure: real, time: int, now: int): (p: Point)
    ensures p.x == x && p.y == y && p.pressure == pressure
    ensures time != 0 ==> p.time == time
    ensures time == 0 ==> p.time == now
  {
    Point(x, y, pressure, if time != 0 then time else now)
  }

  /** `p.distanceTo(q)`: with a true norm, never negative and 0 exactly at the same position. */
  function DistanceTo(p: Point, q: Point, h: Hypot): (d: real)
    ensures IsNorm(h) ==> 0.0 <= d && (d == 0.0 <==> SamePlace(p, q))
  {
    h(p.x - q.x, p.y - q.y)
  }

  /** Two samples at the same position (pressure and time may differ). */
  predicate SamePlace(p: Point, q: Point) {
    p.x == q.x && p.y == q.y
  }

  /**
   * `p.velocityFrom(q)`: distance per millisecond from `q` to `p`, and 0 when
   * both carry the same timestamp, so equal times never divide by zero.
   */
  function VelocityFrom(p: Point, q: Point, h: Hypot): (v: real)
    ensures p.time == q.time ==> v == 0.0
    ensures p.time != q.time ==> v * (p.time - q.time) as real == DistanceTo(p, q, h)
    ensures 0.0 <= DistanceTo(p, q, h) && q.time <= p.time ==> 0.0 <= v
  {
    if p.time != q.time then DistanceTo(p, q, h) / (p.time - q.time) as real else 0.0
  }

  lemma MulNonNegative(a: real, b: real)
    requires 0.0 <= a && 0.0 <= b
    ensures 0.0 <= a * b
  {
  }

  /** `point(t, start, c1, c2, end)`: one coordinate of a cubic Bezier. */
  function BezierPoint(t: real, start: real, c1: real, c2: real, end: real): (r: real)
    ensures t == 0.0 ==> r == start
    ensures t == 1.0 ==> r == end
  {
    start * (1.0 - t) * (1.0 - t) * (1.0 - t)
    + 3.0 * c1 * (1.0 - t) * (1.0 - t) * t
    + 3.0 * c2 * (1.0 - t) * t * t
    + end * t * t * t
  }

  /** Read backwards, the curve is the one with its points in reverse order. */
  lemma BezierReversed(t: real, start: real, c1: real, c2: real, end: real)
    ensures BezierPoint(1.0 - t, end, c2, c1, start) == BezierPoint(t, start, c1, c2, end)
  {
    var u := 1.0 - t;
    assert 1.0 - u == t;
  }

  /** The point at fraction t of the way from a to b. */
  function Lerp(a: real, b: real, t: real): real {
    a + (b - a) * t
  }

  lemma LerpBetween(a: real, b: real, t: real, lo: real, hi: real)
    requires 0.0 <= t <= 1.0 && lo <= a <= hi && lo <= b <= hi
    ensures lo <= Lerp(a, b, t) <= hi
  {
    var d := b - a;
    assert d * (1.0 - t) == d - d * t;
    if a <= b {
      MulNonNegative(d, t);
      MulNonNegative(d, 1.0 - t);
    } else {
      MulNonNegative(-d, t);
      MulNonNegative(-d, 1.0 - t);
      assert (-d) * t == -(d * t);
      assert (-d) * (1.0 - t) == -(d * (1.0 - t));
    }
  }

  /** The pair `{c1, c2}` that `calculateControlPoints` returns. */
  datatype Controls = Controls(c1: Vec, c2: Vec)

  /**
   * `calculateControlPoints(p1, p2, p3)`: the control points on either side
   * of `p2`. When both chords have length 0 the blend ratio is 0/0 = NaN and
   * `new t(NaN, NaN)` throws; that outcome is `None`.
   *
   * The pair is parallel to the chord p1 -> p3 at half its length (so the
   * curve's tangent at `p2` follows its neighbours), and `p2` divides the
   * segment c1 -> c2 in the ratio of the two chord lengths.
   */
  function ControlPoints(p1: Point, p2: Point, p3: Point, h: Hypot): (r: Option<Controls>)
    ensures r.None? <==> DistanceTo(p1, p2, h) + DistanceTo(p2, p3, h) == 0.0
    ensures r.Some? ==>
      r.value.c2.x - r.value.c1.x == (p3.x - p1.x) / 2.0 &&
      r.value.c2.y - r.value.c1.y == (p3.y - p1.y) / 2.0
    ensures r.Some? ==>
      var (d1, d2) := (DistanceTo(p1, p2, h), DistanceTo(p2, p3, h));
      (d1 + d2) * (p2.x - r.value.c1.x) == d1 * (r.value.c2.x - r.value.c1.x) &&
      (d1 + d2) * (p2.y - r.value.c1.y) == d1 * (r.value.c2.y - r.value.c1.y)
  {
    var m1 := Vec((p1.x + p2.x) / 2.0, (p1.y + p2.y) / 2.0);
    var m2 := Vec((p2.x + p3.x) / 2.0, (p2.y + p3.y) / 2.0);
    var l1 := h(p1.x - p2.x, p1.y - p2.y);
    var l2 := h(p2.x - p3.x, p2.y - p3.y);
    if l1 + l2 == 0.0 then None
    else
      var k := l2 / (l1 + l2);
      var cm := Vec(m2.x + (m1.x - m2.x) * k, m2.y + (m1.y - m2.y) * k);
      var tx := p2.x - cm.x;
      var ty := p2.y - cm.y;
      assert (l1 + l2) * k == l2;
      assert (l1 + l2) * (1.0 - k) == l1;
      Some(Controls(Vec(m1.x + tx, m1.y + ty), Vec(m2.x + tx, m2.y + ty)))
  }

  /**
   * A cubic Bezier segment with the stroke widths at its two ends. The
   * source's constructor takes `(startPoint, control2, control1, endPoint,
   * startWidth, endWidth)`, in that order.
   */
  datatype Curve = Curve(startPoint: Point, control1: Vec, control2: Vec, endPoint: Point,
                         startWidth: real, endWidth: real)

  /**
   * `fromPoints(w, widths)`: the segment from `w[1]` to `w[2]` of the window
   * `w`. Its `control2` is the `c2` of (w0, w1, w2) and its `control1` the
   * `c1` of (w1, w2, w3), as the constructor's argument order makes them.
   * `None` when either control-point construction throws.
   */
  function FromPoints(w: seq<Point>, startWidth: real, endWidth: real, h: Hypot): (r: Option<Curve>)
    requires |w| >= 4
    ensures r.Some? ==>
      r.value.startPoint == w[1] && r.value.endPoint == w[2] &&
      r.value.startWidth == startWidth && r.value.endWidth == endWidth
    ensures r.None? <==>
      DistanceTo(w[0], w[1], h) + DistanceTo(w[1], w[2], h) == 0.0 ||
      DistanceTo(w[1], w[2], h) + DistanceTo(w[2], w[3], h) == 0.0
  {
    match (ControlPoints(w[0], w[1], w[2], h), ControlPoints(w[1], w[2], w[3], h))
    case (Some(first), Some(second)) =>
      Some(Curve(w[1], second.c1, first.c2, w[2], startWidth, endWidth))
    case _ => None
  }

  /** The curve's x coordinate at parameter t, as `point` evaluates it. */
  function CurveX(c: Curve, t: real): real {
    BezierPoint(t, c.startPoint.x, c.control1.x, c.control2.x, c.endPoint.x)
  }

  function CurveY(c: Curve, t: real): real {
    BezierPoint(t, c.startPoint.y, c.control1.y, c.control2.y, c.endPoint.y)
  }

  /** The sum of the first k of the ten chords that `length()` adds up. */
  function Chords(c: Curve, h: Hypot, k: nat): real
    requires k <= 10
  {
    if k == 0 then 0.0
    else
      Chords(c, h, k - 1)
      + h(CurveX(c, k as real / 10.0) - CurveX(c, (k - 1) as real / 10.0),
          CurveY(c, k as real / 10.0) - CurveY(c, (k - 1) as real / 10.0))
  }

  /** `length()`: the polyline through the curve at t = 0, 0.1, ..., 1. */
  function Length(c: Curve, h: Hypot): real {
    Chords(c, h, 10)
  }

  /** `length()`, as the source computes it: an eleven-sample loop. */
  method CurveLength(c: Curve, h: Hypot) returns (len: real)
    ensures len == Length(c, h)
  {
    var px, py := 0.0, 0.0;
    len := 0.0;
    for s := 0 to 11
      invariant 0 < s ==> px == CurveX(c, (s - 1) as real / 10.0) && py == CurveY(c, (s - 1) as real / 10.0)
      invariant len == Chords(c, h, if s == 0 then 0 else s - 1)
    {
      var t := s as real / 10.0;
      var x := BezierPoint(t, c.startPoint.x, c.control1.x, c.control2.x, c.endPoint.x);
      var y := BezierPoint(t, c.startPoint.y, c.control1.y, c.control2.y, c.endPoint.y);
      if s > 0 {
        len := len + h(x - px, y - py);
      }
      px, py := x, y;
    }
  }

  lemma {:induction false} ChordsNonNegative(c: Curve, h: Hypot, k: nat)
    requires k <= 10
    requires forall dx: real, dy: real :: 0.0 <= h(dx, dy)
    ensures 0.0 <= Chords(c, h, k)
  {
    if k > 0 {
      ChordsNonNegative(c, h, k - 1);
    }
  }

  /** A curve whose four points coincide has length 0. */
  lemma {:induction false} PointCurveHasNoLength(c: Curve, h: Hypot, k: nat)
    requires IsNorm(h)
    requires k <= 10
    requires c.control1 == Vec(c.startPoint.x, c.startPoint.y) && c.control2 == c.control1
    requires SamePlace(c.startPoint, c.endPoint)
    ensures Chords(c, h, k) == 0.0
  {
    if k > 0 {
      PointCurveHasNoLength(c, h, k - 1);
      var t1, t0 := k as real / 10.0, (k - 1) as real / 10.0;
      BezierConstant(t1, c.startPoint.x);
      BezierConstant(t0, c.startPoint.x);
      BezierConstant(t1, c.startPoint.y);
      BezierConstant(t0, c.startPoint.y);
      assert CurveX(c, t1) - CurveX(c, t0) == 0.0;
      assert CurveY(c, t1) - CurveY(c, t0) == 0.0;
      assert h(0.0, 0.0) == 0.0;
    }
  }

  lemma BezierConstant(t: real, a: real)
    ensures BezierPoint(t, a, a, a, a) == a
  {
    var u := 1.0 - t;
    assert u * u * u + 3.0 * u * u * t + 3.0 * u * t * t + t * t * t == (u + t) * (u + t) * (u + t);
    assert BezierPoint(t, a, a, a, a) == a * (u * u * u + 3.0 * u * u * t + 3.0 * u * t * t + t * t * t);
  }
}
