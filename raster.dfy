/**
 * How `_drawCurve` turns one Bezier segment into filled disks: `2 *
 * ceil(length())` samples, each a disk on the curve whose radius moves from
 * the start width towards the end width along `o³`, capped at `maxWidth`.
 * The canvas calls (`arc`, `fill`) are replaced by the disks they would draw.
 */
module Raster {
  import opened Wrappers
  import opened Geometry

  /** One `arc` of `_drawCurveSegment`: a filled circle. */
  datatype Disk = Disk(x: real, y: real, r: real)

  /** `Math.ceil` on a real. */
  function Ceil(x: real): (n: int)
    ensures (n as real - 1.0) < x <= n as real
  {
    -((-x).Floor)
  }

  /** The sample count `2 * Math.ceil(curve.length())`. */
  function Steps(len: real): (n: int)
    ensures 0.0 <= len ==> 0 <= n
    ensures 0.0 < len ==> 2 <= n
    ensures n % 2 == 0
  {
    2 * Ceil(len)
  }

  /**
   * One coordinate of sample `o` (= i / n) as the loop body of `_drawCurve`
   * computes it, with the cubic weights expanded inline.
   */
  function Expanded(o: real, p0: real, p1: real, p2: real, p3: real): real {
    var h := o * o;
    var r := h * o;
    var a := 1.0 - o;
    var cc := a * a;
    var d3 := cc * a;
    d3 * p0 + 3.0 * cc * o * p1 + 3.0 * a * h * p2 + r * p3
  }

  /** The inline expansion is the polynomial `point` evaluates. */
  lemma ExpandedIsPoint(o: real, p0: real, p1: real, p2: real, p3: real)
    ensures Expanded(o, p0, p1, p2, p3) == BezierPoint(o, p0, p1, p2, p3)
  {
  }

  /** The radius of sample `o`: `min(startWidth + o³ · (endWidth - startWidth), maxWidth)`. */
  function Radius(o: real, startWidth: real, endWidth: real, maxWidth: real): (r: real)
    ensures r <= maxWidth
  {
    Min(startWidth + o * o * o * (endWidth - startWidth), maxWidth)
  }

  /** The disk drawn for sample `o` of curve `c`. */
  function SegmentDisk(c: Curve, o: real, maxWidth: real): Disk {
    Disk(Expanded(o, c.startPoint.x, c.control1.x, c.control2.x, c.endPoint.x),
         Expanded(o, c.startPoint.y, c.control1.y, c.control2.y, c.endPoint.y),
         Radius(o, c.startWidth, c.endWidth, maxWidth))
  }

  /** The disks `_drawCurve` draws with `n` samples, in drawing order. */
  function CurveDisks(c: Curve, n: int, maxWidth: real): (ds: seq<Disk>)
    ensures |ds| == if n > 0 then n else 0
  {
    if n <= 0 then []
    else seq(n, i requires 0 <= i < n => SegmentDisk(c, i as real / n as real, maxWidth))
  }

  /** Each disk is centred on the curve as `point` evaluates it. */
  lemma SegmentDiskOnCurve(c: Curve, o: real, maxWidth: real)
    ensures SegmentDisk(c, o, maxWidth).x == CurveX(c, o)
    ensures SegmentDisk(c, o, maxWidth).y == CurveY(c, o)
  {
    ExpandedIsPoint(o, c.startPoint.x, c.control1.x, c.control2.x, c.endPoint.x);
    ExpandedIsPoint(o, c.startPoint.y, c.control1.y, c.control2.y, c.endPoint.y);
  }

  /** Every disk is at most `maxWidth` wide, whatever the widths of the curve. */
  lemma DisksNeverExceedMaxWidth(c: Curve, n: int, maxWidth: real)
    ensures forall d :: d in CurveDisks(c, n, maxWidth) ==> d.r <= maxWidth
  {
  }

  /** The first disk sits on the start point, with the start width (capped). */
  lemma FirstDiskAtStart(c: Curve, n: int, maxWidth: real)
    requires 0 < n
    ensures CurveDisks(c, n, maxWidth)[0] ==
      Disk(c.startPoint.x, c.startPoint.y, Min(c.startWidth, maxWidth))
  {
    var d := CurveDisks(c, n, maxWidth)[0];
    assert d == SegmentDisk(c, 0.0, maxWidth);
  }

  lemma CubeInUnit(o: real)
    requires 0.0 <= o <= 1.0
    ensures 0.0 <= o * o * o <= 1.0
  {
    var h := o * o;
    MulNonNegative(o, o);
    assert h <= 1.0 by {
      assert o * (1.0 - o) >= 0.0 by { MulNonNegative(o, 1.0 - o); }
      assert h == o - o * (1.0 - o);
    }
    MulNonNegative(h, o);
    assert h * (1.0 - o) >= 0.0 by { MulNonNegative(h, 1.0 - o); }
    assert h * o == h - h * (1.0 - o);
  }

  /**
   * When neither end width exceeds `maxWidth`, every radius lies between the
   * two end widths: the cap never bites and the width moves monotonically
   * from one end to the other.
   */
  lemma RadiusBetweenEndWidths(o: real, startWidth: real, endWidth: real, maxWidth: real)
    requires 0.0 <= o <= 1.0
    requires startWidth <= maxWidth && endWidth <= maxWidth
    ensures Min(startWidth, endWidth) <= Radius(o, startWidth, endWidth, maxWidth) <= Max(startWidth, endWidth)
  {
    var r := o * o * o;
    CubeInUnit(o);
    LerpBetween(startWidth, endWidth, r, Min(startWidth, endWidth), Max(startWidth, endWidth));
    assert Lerp(startWidth, endWidth, r) == startWidth + r * (endWidth - startWidth);
  }

  /**
   * With non-negative end widths and a non-negative cap, no radius is
   * negative: the canvas accepts every `arc` `_drawCurve` issues.
   */
  lemma RadiusNonNegative(o: real, startWidth: real, endWidth: real, maxWidth: real)
    requires 0.0 <= o <= 1.0
    requires 0.0 <= startWidth && 0.0 <= endWidth && 0.0 <= maxWidth
    ensures 0.0 <= Radius(o, startWidth, endWidth, maxWidth)
  {
    var r := o * o * o;
    CubeInUnit(o);
    LerpBetween(startWidth, endWidth, r, 0.0, Max(startWidth, endWidth));
    assert Lerp(startWidth, endWidth, r) == startWidth + r * (endWidth - startWidth);
  }

  /** No disk of a segment with non-negative widths and cap has a negative radius. */
  lemma DisksNonNegative(c: Curve, n: int, maxWidth: real)
    requires 0.0 <= c.startWidth && 0.0 <= c.endWidth && 0.0 <= maxWidth
    ensures forall d :: d in CurveDisks(c, n, maxWidth) ==> 0.0 <= d.r
  {
    var ds := CurveDisks(c, n, maxWidth);
    forall i | 0 <= i < |ds|
      ensures 0.0 <= ds[i].r
    {
      var o := i as real / n as real;
      assert 0.0 <= o <= 1.0;
      RadiusNonNegative(o, c.startWidth, c.endWidth, maxWidth);
    }
  }
}
