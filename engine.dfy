/**
 * The stroke engine of the pad (class `s`) as functions on its state: the
 * segment tracker (`_reset`, `_addPoint`, `_calculateCurveWidths`), the
 * stroke lifecycle (`_strokeBegin`, `_strokeUpdate`, `_strokeEnd`, `clear`)
 * and replay (`_fromData`, `fromData`). The canvas is the list of draw events
 * the pad has issued. The `Pads` module runs the same steps imperatively and
 * is proved to compute exactly these functions.
 *
 * An exception that escapes an operation is the outcome `ok == false`,
 * together with the state as it was when the exception was thrown.
 */
module Engine {
  import opened Wrappers
  import opened Geometry
  import opened Styles
  import opened Raster

  /** A pen sample in canvas coordinates: position and pressure. */
  datatype Sample = Sample(x: real, y: real, pressure: real)

  /** One entry of the pad's data: the group's options and its recorded points. */
  datatype Group = Group(style: StyleOverride, points: seq<Point>)

  /** What the pad has drawn, in order; it stands for the canvas. */
  datatype DrawEvent =
    | Wipe(color: string, mode: string)
    | Dot(color: string, mode: string, disk: Disk)
    | Stroke(color: string, mode: string, curve: Curve, disks: seq<Disk>)

  /** `_lastPoints`, `_lastVelocity`, `_lastWidth`. */
  datatype Tracker = Tracker(lastPoints: seq<Point>, lastVelocity: real, lastWidth: real)

  /**
   * The pad's state: `_data`, the tracker, `_drawingStroke`, `_isEmpty`, the
   * canvas's `globalCompositeOperation` and the events drawn so far.
   */
  datatype State = State(data: seq<Group>, tracker: Tracker, drawing: bool, isEmpty: bool,
                         mode: string, events: seq<DrawEvent>)

  /** What `_addPoint` returns: `null`, a curve, or an exception. */
  datatype Added = NoCurve | NewCurve(curve: Curve) | Threw

  datatype Addition = Addition(tracker: Tracker, added: Added)

  /** An operation's outcome: the new state, and false when an exception escaped. */
  datatype Step = Step(state: State, ok: bool)

  function Last<T>(s: seq<T>): T
    requires |s| > 0
  {
    s[|s| - 1]
  }

  /** `_reset(style)`'s effect on the tracker. */
  function Reset(s: Style): (t: Tracker)
    ensures t.lastPoints == [] && t.lastVelocity == 0.0 && t.lastWidth == ResetWidth(s)
    ensures s.minWidth <= s.maxWidth ==> s.minWidth <= t.lastWidth <= s.maxWidth
  {
    Tracker([], 0.0, ResetWidth(s))
  }

  /**
   * `_calculateCurveWidths(start, end)`: the filtered velocity and the new
   * width become the tracker's; the curve runs from the old width to the new.
   */
  function CurveWidths(t: Tracker, start: Point, end: Point, s: Style, h: Hypot): (r: Tracker)
    ensures r.lastPoints == t.lastPoints
    ensures r.lastVelocity == BlendedVelocity(s.velocityFilterWeight, VelocityFrom(end, start, h), t.lastVelocity)
    ensures r.lastWidth == StrokeWidth(r.lastVelocity, s) && s.minWidth <= r.lastWidth
    ensures 0.0 <= r.lastVelocity && 0.0 <= s.maxWidth && s.minWidth <= s.maxWidth ==> r.lastWidth <= s.maxWidth
  {
    var v := BlendedVelocity(s.velocityFilterWeight, VelocityFrom(end, start, h), t.lastVelocity);
    Tracker(t.lastPoints, v, StrokeWidth(v, s))
  }

  /**
   * `_addPoint(p)`: push `p`; once the window holds more than two points,
   * duplicate the first point when there are exactly three, build the curve
   * from the four-point window and drop the oldest point.
   */
  function AddPoint(t: Tracker, p: Point, s: Style, h: Hypot): (r: Addition)
    ensures |t.lastPoints| < 2 ==> r == Addition(t.(lastPoints := t.lastPoints + [p]), NoCurve)
    ensures 2 <= |t.lastPoints| ==> !r.added.NoCurve?
    ensures r.added.NewCurve? && |t.lastPoints| == 2 ==>
      r.tracker.lastPoints == t.lastPoints + [p] &&
      r.added.curve.startPoint == t.lastPoints[0] && r.added.curve.endPoint == t.lastPoints[1]
    ensures r.added.NewCurve? && |t.lastPoints| == 3 ==>
      r.tracker.lastPoints == t.lastPoints[1..] + [p] &&
      r.added.curve.startPoint == t.lastPoints[1] && r.added.curve.endPoint == t.lastPoints[2]
    ensures r.added.NewCurve? ==>
      r.added.curve.startWidth == t.lastWidth && r.added.curve.endWidth == r.tracker.lastWidth
    ensures 2 <= |t.lastPoints| ==> s.minWidth <= r.tracker.lastWidth
    ensures 2 <= |t.lastPoints| <= 3 ==>
      var lp := t.lastPoints;
      r.tracker.lastVelocity ==
        BlendedVelocity(s.velocityFilterWeight, VelocityFrom(lp[|lp| - 1], lp[|lp| - 2], h), t.lastVelocity) &&
      r.tracker.lastWidth == StrokeWidth(r.tracker.lastVelocity, s)
  {
    var w := t.lastPoints + [p];
    if |w| <= 2 then Addition(t.(lastPoints := w), NoCurve)
    else
      var window := if |w| == 3 then [w[0]] + w else w;
      var t1 := CurveWidths(t.(lastPoints := window), window[1], window[2], s, h);
      match FromPoints(window, t.lastWidth, t1.lastWidth, h)
      case None => Addition(t1, Threw)
      case Some(c) => Addition(t1.(lastPoints := window[1..]), NewCurve(c))
  }

  /** Consecutive points of `ps` are at different positions. */
  predicate Spread(ps: seq<Point>) {
    forall i :: 0 < i < |ps| ==> !SamePlace(ps[i - 1], ps[i])
  }

  /**
   * With a true norm, `_addPoint` can only throw when the two newest points
   * of its window sit at the same position.
   */
  lemma AddPointThrowsOnlyOnRepeat(t: Tracker, p: Point, s: Style, h: Hypot)
    requires IsNorm(h)
    requires 2 <= |t.lastPoints| <= 3
    requires !SamePlace(t.lastPoints[|t.lastPoints| - 2], t.lastPoints[|t.lastPoints| - 1])
    ensures AddPoint(t, p, s, h).added.NewCurve?
  {
    var w := t.lastPoints + [p];
    var window := if |w| == 3 then [w[0]] + w else w;
    assert window[1] == t.lastPoints[|t.lastPoints| - 2] && window[2] == t.lastPoints[|t.lastPoints| - 1];
    assert DistanceTo(window[1], window[2], h) != 0.0;
    assert 0.0 <= DistanceTo(window[0], window[1], h) && 0.0 <= DistanceTo(window[2], window[3], h);
  }

  /** The curves and tracker after `_addPoint` of each point of `ps` in turn, stopping at a throw. */
  datatype Fed = Fed(tracker: Tracker, curves: seq<Curve>, ok: bool)

  function Feed(t: Tracker, ps: seq<Point>, s: Style, h: Hypot): Fed
    decreases |ps|
  {
    if ps == [] then Fed(t, [], true)
    else
      var f := Feed(t, ps[..|ps| - 1], s, h);
      if !f.ok then f else FeedOne(f, Last(ps), s, h)
  }

  /** Feeding one point more, after a feed that did not throw. */
  lemma FeedSnoc(t: Tracker, ps: seq<Point>, p: Point, s: Style, h: Hypot)
    requires Feed(t, ps, s, h).ok
    ensures Feed(t, ps + [p], s, h) == FeedOne(Feed(t, ps, s, h), p, s, h)
  {
    assert (ps + [p])[..|ps|] == ps;
  }

  /** One `_addPoint` more: its curve, if any, is appended; a throw stops the feed. */
  function FeedOne(f: Fed, p: Point, s: Style, h: Hypot): Fed {
    Extend(f, AddPoint(f.tracker, p, s, h))
  }

  function Extend(f: Fed, a: Addition): Fed {
    Fed(a.tracker, f.curves + (if a.added.NewCurve? then [a.added.curve] else []), !a.added.Threw?)
  }

  /** The last min(|ps|, 3) points of `ps`. */
  function Tail3(ps: seq<Point>): (w: seq<Point>)
    ensures |w| == MinNat(|ps|, 3)
  {
    ps[|ps| - MinNat(|ps|, 3)..]
  }

  /** One `_addPoint` keeps the window at the last three points fed. */
  lemma WindowStep(t: Tracker, ps: seq<Point>, p: Point, s: Style, h: Hypot)
    requires t.lastPoints == Tail3(ps)
    ensures !AddPoint(t, p, s, h).added.Threw? ==> AddPoint(t, p, s, h).tracker.lastPoints == Tail3(ps + [p])
  {
    var qs := ps + [p];
    if |ps| >= 3 {
      assert Tail3(qs) == ps[|ps| - 2..] + [p];
    }
  }

  /** After k points since `_reset`, the window holds the last min(k, 3) of them. */
  lemma {:induction false} FeedWindow(t: Tracker, ps: seq<Point>, s: Style, h: Hypot)
    requires t.lastPoints == []
    ensures Feed(t, ps, s, h).ok ==> Feed(t, ps, s, h).tracker.lastPoints == Tail3(ps)
    decreases |ps|
  {
    if ps != [] {
      var prefix := ps[..|ps| - 1];
      FeedWindow(t, prefix, s, h);
      assert prefix + [Last(ps)] == ps;
      if Feed(t, prefix, s, h).ok {
        WindowStep(Feed(t, prefix, s, h).tracker, prefix, Last(ps), s, h);
      }
    }
  }

  /**
   * The curves `cs` that feeding `ps` from a reset width `w0` produces, with
   * `last` the tracker's current width: k - 2 curves for k points (none for
   * k < 3); curve j runs from point j to point j+1; the first starts at
   * `w0`, each later one at the previous curve's end width, the last ends at
   * `last`, and no end width is below `minWidth`.
   */
  ghost predicate Chain(ps: seq<Point>, cs: seq<Curve>, w0: real, last: real, minWidth: real) {
    |cs| == (if |ps| < 3 then 0 else |ps| - 2) &&
    (forall j :: 0 <= j < |cs| ==> cs[j].startPoint == ps[j] && cs[j].endPoint == ps[j + 1]) &&
    (|cs| == 0 ==> last == w0) &&
    (0 < |cs| ==> cs[0].startWidth == w0 && Last(cs).endWidth == last) &&
    (forall j :: 0 < j < |cs| ==> cs[j].startWidth == cs[j - 1].endWidth) &&
    (forall j :: 0 <= j < |cs| ==> minWidth <= cs[j].endWidth)
  }

  /** A chain grows by a curve over its two newest points that starts at its last width. */
  lemma ChainGrow(ps: seq<Point>, cs: seq<Curve>, w0: real, last: real, minWidth: real, p: Point, c: Curve)
    requires Chain(ps, cs, w0, last, minWidth) && 2 <= |ps|
    requires c.startPoint == ps[|ps| - 2] && c.endPoint == ps[|ps| - 1]
    requires c.startWidth == last && minWidth <= c.endWidth
    ensures Chain(ps + [p], cs + [c], w0, c.endWidth, minWidth)
  {
    var qs, cs2 := ps + [p], cs + [c];
    assert forall j :: 0 <= j < |cs| ==> cs2[j] == cs[j];
    assert forall j :: 0 <= j < |ps| ==> qs[j] == ps[j];
    assert cs2[|cs|] == c;
  }

  lemma ChainStep(t: Tracker, ps: seq<Point>, cs: seq<Curve>, w0: real, p: Point, s: Style, h: Hypot)
    requires t.lastPoints == Tail3(ps) && Chain(ps, cs, w0, t.lastWidth, s.minWidth)
    ensures var a := AddPoint(t, p, s, h);
      !a.added.Threw? ==>
        Chain(ps + [p], cs + (if a.added.NewCurve? then [a.added.curve] else []), w0, a.tracker.lastWidth, s.minWidth)
  {
    var a := AddPoint(t, p, s, h);
    var k := |ps|;
    if a.added.NewCurve? {
      if k == 2 {
        assert t.lastPoints == ps;
      } else {
        assert t.lastPoints == ps[k - 3..];
      }
      ChainGrow(ps, cs, w0, t.lastWidth, s.minWidth, p, a.added.curve);
    } else if a.added.NoCurve? {
      assert cs + [] == cs;
    }
  }

  /**
   * Feeding points from a reset: the window and the curves as `Chain`
   * describes, starting from the reset width.
   */
  lemma {:induction false} FeedFromReset(t: Tracker, ps: seq<Point>, s: Style, h: Hypot)
    requires t.lastPoints == []
    ensures var f := Feed(t, ps, s, h);
      f.ok ==> f.tracker.lastPoints == Tail3(ps) && Chain(ps, f.curves, t.lastWidth, f.tracker.lastWidth, s.minWidth)
    decreases |ps|
  {
    FeedWindow(t, ps, s, h);
    if ps != [] {
      var prefix := ps[..|ps| - 1];
      FeedFromReset(t, prefix, s, h);
      assert prefix + [Last(ps)] == ps;
      var f := Feed(t, prefix, s, h);
      if f.ok {
        ChainStep(f.tracker, prefix, f.curves, t.lastWidth, Last(ps), s, h);
      }
    }
  }

  /**
   * What keeps stroke widths inside the width range: a filter weight in
   * [0, 1], a square root that is never negative, and an ordered width range
   * with a non-negative maximum.
   */
  ghost predicate Tame(s: Style, h: Hypot) {
    0.0 <= s.velocityFilterWeight <= 1.0 && 0.0 <= s.maxWidth && s.minWidth <= s.maxWidth &&
    forall dx: real, dy: real :: 0.0 <= h(dx, dy)
  }

  /** Timestamps never decrease along `ps`. */
  predicate Ordered(ps: seq<Point>) {
    forall i, j :: 0 <= i < j < |ps| ==> ps[i].time <= ps[j].time
  }

  /** A tracker whose velocity is non-negative and whose width lies in the width range. */
  predicate Calm(t: Tracker, s: Style) {
    0.0 <= t.lastVelocity && s.minWidth <= t.lastWidth <= s.maxWidth
  }

  /** A curve that starts and ends with a width in [minWidth, maxWidth]. */
  predicate CurveInRange(c: Curve, s: Style) {
    s.minWidth <= c.startWidth <= s.maxWidth && s.minWidth <= c.endWidth <= s.maxWidth
  }

  /** Every curve of `cs` starts and ends with a width in [minWidth, maxWidth]. */
  predicate WidthsInRange(cs: seq<Curve>, s: Style) {
    forall j :: 0 <= j < |cs| ==> CurveInRange(cs[j], s)
  }

  lemma OrderedSuffix(ps: seq<Point>, i: nat)
    requires Ordered(ps) && i <= |ps|
    ensures Ordered(ps[i..])
  {
    var qs := ps[i..];
    assert forall j :: 0 <= j < |qs| ==> qs[j] == ps[i + j];
  }

  /**
   * One `_addPoint` on a calm tracker over time-ordered points: the tracker
   * stays calm, and the curve it returns has both widths in range.
   */
  lemma WidthStep(t: Tracker, p: Point, s: Style, h: Hypot)
    requires Tame(s, h) && Calm(t, s) && |t.lastPoints| <= 3 && Ordered(t.lastPoints + [p])
    ensures var a := AddPoint(t, p, s, h);
      !a.added.Threw? ==> Calm(a.tracker, s) && (a.added.NewCurve? ==> CurveInRange(a.added.curve, s))
  {
    var lp := t.lastPoints;
    if 2 <= |lp| {
      var q1, q2 := lp[|lp| - 2], lp[|lp| - 1];
      var w := lp + [p];
      assert w[|lp| - 2] == q1 && w[|lp| - 1] == q2;
      assert 0.0 <= DistanceTo(q2, q1, h);
      BlendedVelocityBetween(s.velocityFilterWeight, VelocityFrom(q2, q1, h), t.lastVelocity);
    }
  }

  /** Extending a feed by an in-range outcome keeps it in range. */
  lemma WidthsExtend(f: Fed, a: Addition, s: Style)
    requires WidthsInRange(f.curves, s)
    requires !a.added.Threw? ==> Calm(a.tracker, s) && (a.added.NewCurve? ==> CurveInRange(a.added.curve, s))
    ensures var g := Extend(f, a);
      g.ok ==> Calm(g.tracker, s) && WidthsInRange(g.curves, s)
  {
    if a.added.NewCurve? {
      var cs2 := f.curves + [a.added.curve];
      assert forall j :: 0 <= j < |f.curves| ==> cs2[j] == f.curves[j];
      assert cs2[|f.curves|] == a.added.curve;
    } else {
      assert f.curves + [] == f.curves;
    }
  }

  /** One point more for a calm feed whose window is the last three points fed. */
  lemma WidthsFeedStep(f: Fed, ps: seq<Point>, p: Point, s: Style, h: Hypot)
    requires f.tracker.lastPoints == Tail3(ps) && Tame(s, h) && Ordered(ps + [p])
    requires Calm(f.tracker, s) && WidthsInRange(f.curves, s)
    ensures var g := FeedOne(f, p, s, h);
      g.ok ==> Calm(g.tracker, s) && WidthsInRange(g.curves, s)
  {
    var k := MinNat(|ps|, 3);
    assert f.tracker.lastPoints + [p] == (ps + [p])[|ps| - k..];
    OrderedSuffix(ps + [p], |ps| - k);
    WidthStep(f.tracker, p, s, h);
    WidthsExtend(f, AddPoint(f.tracker, p, s, h), s);
  }

  /** Feeding time-ordered points to a calm, empty tracker keeps it calm and every curve in range. */
  lemma {:induction false} FeedKeepsWidths(t: Tracker, ps: seq<Point>, s: Style, h: Hypot)
    requires t.lastPoints == [] && Tame(s, h) && Calm(t, s) && Ordered(ps)
    ensures var f := Feed(t, ps, s, h);
      f.ok ==> Calm(f.tracker, s) && WidthsInRange(f.curves, s)
    decreases |ps|
  {
    if ps != [] {
      var prefix, p := ps[..|ps| - 1], Last(ps);
      assert prefix + [p] == ps;
      FeedKeepsWidths(t, prefix, s, h);
      var f := Feed(t, prefix, s, h);
      if f.ok {
        FeedWindow(t, prefix, s, h);
        FeedSnoc(t, prefix, p, s, h);
        WidthsFeedStep(f, prefix, p, s, h);
      }
    }
  }

  /**
   * Every curve a stroke yields after `_reset`, with time-ordered points, a
   * filter weight in [0, 1] and an ordered width range, starts and ends with
   * a width in [minWidth, maxWidth].
   */
  lemma FeedWidthsInRange(ps: seq<Point>, s: Style, h: Hypot)
    requires Tame(s, h) && Ordered(ps)
    ensures var f := Feed(Reset(s), ps, s, h);
      f.ok ==> WidthsInRange(f.curves, s) && s.minWidth <= f.tracker.lastWidth <= s.maxWidth
  {
    FeedKeepsWidths(Reset(s), ps, s, h);
  }

  /**
   * With, in addition, a non-negative minWidth, no disk of those curves has a
   * negative radius, so every `arc` `_drawCurve` issues for them is accepted.
   */
  lemma FeedDrawsNoNegativeDisk(ps: seq<Point>, s: Style, mode: string, h: Hypot)
    requires Tame(s, h) && Ordered(ps) && 0.0 <= s.minWidth
    ensures var f := Feed(Reset(s), ps, s, h);
      f.ok ==> forall j, d :: 0 <= j < |f.curves| && d in StrokeEvent(f.curves[j], s, mode, h).disks ==> 0.0 <= d.r
  {
    var f := Feed(Reset(s), ps, s, h);
    FeedWidthsInRange(ps, s, h);
    if f.ok {
      forall j | 0 <= j < |f.curves|
        ensures forall d :: d in StrokeEvent(f.curves[j], s, mode, h).disks ==> 0.0 <= d.r
      {
        var c := f.curves[j];
        DisksNonNegative(c, Steps(Length(c, h)), s.maxWidth);
      }
    }
  }

  /** With a true norm, `_addPoint` on a window of distinct neighbours does not throw. */
  lemma SpreadStep(t: Tracker, ps: seq<Point>, p: Point, s: Style, h: Hypot)
    requires IsNorm(h) && t.lastPoints == Tail3(ps) && Spread(ps + [p])
    ensures !AddPoint(t, p, s, h).added.Threw?
  {
    var k := |ps|;
    if 2 <= k {
      var qs := ps + [p];
      assert qs[k - 2] == ps[k - 2] && qs[k - 1] == ps[k - 1];
      assert !SamePlace(ps[k - 2], ps[k - 1]);
      var lp := t.lastPoints;
      assert lp[|lp| - 2] == ps[k - 2] && lp[|lp| - 1] == ps[k - 1];
      AddPointThrowsOnlyOnRepeat(t, p, s, h);
    }
  }

  /**
   * With a true norm, points whose neighbours never coincide are fed
   * without an exception.
   */
  lemma {:induction false} FeedSpreadNeverThrows(t: Tracker, ps: seq<Point>, s: Style, h: Hypot)
    requires IsNorm(h) && t.lastPoints == [] && Spread(ps)
    ensures Feed(t, ps, s, h).ok
    decreases |ps|
  {
    if ps != [] {
      var prefix := ps[..|ps| - 1];
      assert prefix + [Last(ps)] == ps;
      assert Spread(prefix);
      FeedSpreadNeverThrows(t, prefix, s, h);
      FeedWindow(t, prefix, s, h);
      SpreadStep(Feed(t, prefix, s, h).tracker, prefix, Last(ps), s, h);
    }
  }

  /** The canvas effect of `_reset(style)`: tracker reset, composite mode set. */
  function ResetState(st: State, s: Style): (r: State)
    ensures r.tracker == Reset(s) && r.mode == s.compositeOperation
    ensures r.data == st.data && r.events == st.events && r.drawing == st.drawing && r.isEmpty == st.isEmpty
  {
    st.(tracker := Reset(s), mode := s.compositeOperation)
  }

  /** The event `_drawCurve(c, style)` issues in composite mode `mode`. */
  function StrokeEvent(c: Curve, s: Style, mode: string, h: Hypot): DrawEvent {
    Stroke(s.penColor, mode, c, CurveDisks(c, Steps(Length(c, h)), s.maxWidth))
  }

  /** One stroke event per curve, in order. */
  function StrokesOf(cs: seq<Curve>, s: Style, mode: string, h: Hypot): (es: seq<DrawEvent>)
    ensures |es| == |cs|
    ensures forall j :: 0 <= j < |cs| ==> es[j] == StrokeEvent(cs[j], s, mode, h)
    decreases |cs|
  {
    if cs == [] then [] else StrokesOf(cs[..|cs| - 1], s, mode, h) + [StrokeEvent(Last(cs), s, mode, h)]
  }

  /**
   * `_drawCurve(c, style)`: one stroke of `2 * ceil(length)` disks; the canvas
   * stops being empty only when at least one disk is drawn.
   */
  function DrawCurve(st: State, c: Curve, s: Style, h: Hypot): (r: State)
    ensures r.events == st.events + [StrokeEvent(c, s, st.mode, h)]
    ensures r.isEmpty <==> st.isEmpty && |StrokeEvent(c, s, st.mode, h).disks| == 0
    ensures r.data == st.data && r.tracker == st.tracker && r.drawing == st.drawing && r.mode == st.mode
  {
    var n := Steps(Length(c, h));
    st.(events := st.events + [StrokeEvent(c, s, st.mode, h)], isEmpty := st.isEmpty && n <= 0)
  }

  /** The event `_drawDot(p, style)` issues. */
  function DotEvent(p: Point, s: Style, mode: string): DrawEvent {
    Dot(s.penColor, mode, Disk(p.x, p.y, DotRadius(s)))
  }

  /** `_drawDot(p, style)`: one disk, so the canvas is no longer empty. */
  function DrawDot(st: State, p: Point, s: Style): (r: State)
    ensures r.events == st.events + [DotEvent(p, s, st.mode)] && !r.isEmpty
    ensures r.data == st.data && r.tracker == st.tracker && r.drawing == st.drawing && r.mode == st.mode
  {
    st.(events := st.events + [DotEvent(p, s, st.mode)], isEmpty := false)
  }

  /**
   * `clear()`: the canvas is filled with the background colour (in the mode
   * in force), the data is emptied, the tracker is reset with the pad's
   * options and the pad is empty again. `_drawingStroke` is left alone.
   */
  function Clear(st: State, cfg: Config): (r: State)
    ensures r.data == [] && r.isEmpty && r.drawing == st.drawing
    ensures r.tracker == Reset(Defaults(cfg)) && r.mode == cfg.compositeOperation
    ensures r.events == st.events + [Wipe(cfg.backgroundColor, st.mode)]
  {
    ResetState(st.(events := st.events + [Wipe(cfg.backgroundColor, st.mode)], data := [], isEmpty := true),
               Defaults(cfg))
  }

  /** The group a point is recorded into: the last one. */
  function OpenGroup(st: State): Group
    requires |st.data| > 0
  {
    Last(st.data)
  }

  /** `_createPoint(x, y, pressure)` at time `now`. */
  function SamplePoint(x: Sample, now: int): (p: Point)
    ensures p.x == x.x && p.y == x.y && p.pressure == x.pressure && p.time == now
  {
    NewPoint(x.x, x.y, x.pressure, now, now)
  }

  /**
   * The filter of `_strokeUpdate`: the sample is kept when the group has no
   * point yet or when it lies further than `minDistance` from the group's
   * last recorded point.
   */
  predicate Accepts(g: Group, p: Point, cfg: Config, h: Hypot)
    ensures |g.points| == 0 ==> Accepts(g, p, cfg, h)
    ensures IsNorm(h) && 0.0 <= cfg.minDistance && 0 < |g.points| && Accepts(g, p, cfg, h) ==>
      !SamePlace(p, Last(g.points))
  {
    |g.points| == 0 || !(DistanceTo(p, Last(g.points), h) <= cfg.minDistance)
  }

  /** `_strokeUpdate(x)` once a stroke is open and the data is not empty. */
  function UpdateOpen(st: State, x: Sample, now: int, cfg: Config, h: Hypot): (r: Step)
    requires |st.data| > 0
    ensures r.state.drawing == st.drawing && r.state.mode == st.mode && |r.state.data| == |st.data|
    ensures !r.ok ==> r.state.data == st.data && r.state.events == st.events
  {
    var p := SamplePoint(x, now);
    var g := OpenGroup(st);
    var s := Resolve(g.style, Defaults(cfg));
    if !Accepts(g, p, cfg, h) then Step(st, true)
    else
      var a := AddPoint(st.tracker, p, s, h);
      var st1 := st.(tracker := a.tracker);
      if a.added.Threw? then Step(st1, false)
      else
        var st2 := if |g.points| == 0 then DrawDot(st1, p, s)
                   else if a.added.NewCurve? then DrawCurve(st1, a.added.curve, s, h)
                   else st1;
        Step(st2.(data := st.data[..|st.data| - 1] + [g.(points := g.points + [p])]), true)
  }

  /**
   * `_strokeBegin(x)`: unless a listener cancels (`allowed == false`), open
   * a stroke, append a group holding a snapshot of the pad's options and no
   * points, reset with those options, then update with the sample.
   */
  function Begin(st: State, x: Sample, now: int, allowed: bool, cfg: Config, h: Hypot): (r: Step)
    ensures !allowed ==> r == Step(st, true)
    ensures allowed ==> r.state.drawing && |r.state.data| == |st.data| + 1
  {
    if !allowed then Step(st, true)
    else
      var s := Defaults(cfg);
      UpdateOpen(ResetState(st.(drawing := true, data := st.data + [Group(Snapshot(s), [])]), s), x, now, cfg, h)
  }

  /**
   * `_strokeUpdate(x)`: nothing unless a stroke is open; with no data (the
   * pad was cleared mid-stroke) it begins a new stroke instead.
   */
  function Update(st: State, x: Sample, now: int, allowed: bool, cfg: Config, h: Hypot): (r: Step)
    ensures !st.drawing ==> r == Step(st, true)
    ensures st.drawing ==> r.state.drawing
  {
    if !st.drawing then Step(st, true)
    else if |st.data| == 0 then Begin(st, x, now, allowed, cfg, h)
    else UpdateOpen(st, x, now, cfg, h)
  }

  /**
   * `_strokeEnd(x)`: when a stroke is open, update with the sample and close
   * the stroke; an exception from the update leaves it open.
   */
  function End(st: State, x: Sample, now: int, allowed: bool, cfg: Config, h: Hypot): (r: Step)
    ensures !st.drawing ==> r == Step(st, true)
    ensures r.ok ==> !r.state.drawing
    ensures st.drawing && !r.ok ==> r.state.drawing
  {
    if !st.drawing then Step(st, true)
    else
      var r := Update(st, x, now, allowed, cfg, h);
      if r.ok then Step(r.state.(drawing := false), true) else r
  }

  /** A stored point as `_fromData` rebuilds it: a zero time becomes `now`. */
  function Rebuild(q: Point, now: int): Point {
    NewPoint(q.x, q.y, q.pressure, q.time, now)
  }

  /** One iteration of `_fromData`'s inner loop after the reset. */
  function ReplayPoint(st: State, q: Point, s: Style, now: int, h: Hypot): Step {
    Replayed(st, AddPoint(st.tracker, Rebuild(q, now), s, h), s, h)
  }

  /** What replay does with one `_addPoint` outcome: draw the curve, if any. */
  function Replayed(st: State, a: Addition, s: Style, h: Hypot): Step {
    var st1 := st.(tracker := a.tracker);
    if a.added.Threw? then Step(st1, false)
    else if a.added.NewCurve? then Step(DrawCurve(st1, a.added.curve, s, h), true)
    else Step(st1, true)
  }

  /**
   * The inner loop of `_fromData` over the points of a group of more than
   * one point. It never touches the data or the open-stroke flag.
   */
  function ReplayPoints(st: State, ps: seq<Point>, s: Style, now: int, h: Hypot): (r: Step)
    ensures r.state.data == st.data && r.state.drawing == st.drawing
    decreases |ps|
  {
    if ps == [] then Step(st, true)
    else
      var r := ReplayPoints(st, ps[..|ps| - 1], s, now, h);
      if !r.ok then r
      else ReplayPoint(if |ps| == 1 then ResetState(r.state, s) else r.state, Last(ps), s, now, h)
  }

  /**
   * One group of `_fromData`: with more than one point, reset at the first
   * and feed them all, drawing each curve; otherwise reset and draw a dot at
   * the only point (a group without points throws there).
   */
  function ReplayGroup(st: State, g: Group, cfg: Config, now: int, h: Hypot): (r: Step)
    ensures r.state.data == st.data && r.state.drawing == st.drawing
    ensures |g.points| == 0 ==> !r.ok
    ensures var s := Resolve(g.style, Defaults(cfg));
      |g.points| == 1 ==>
        r.ok && r.state.tracker == Reset(s) && r.state.mode == s.compositeOperation &&
        r.state.events == st.events + [DotEvent(g.points[0], s, s.compositeOperation)]
  {
    var s := Resolve(g.style, Defaults(cfg));
    if |g.points| > 1 then ReplayPoints(st, g.points, s, now, h)
    else
      var st1 := ResetState(st, s);
      if |g.points| == 0 then Step(st1, false) else Step(DrawDot(st1, g.points[0], s), true)
  }

  /**
   * `_fromData(groups)`: the groups in order, stopping at the first
   * exception. It never touches the data or the open-stroke flag.
   */
  function ReplayGroups(st: State, gs: seq<Group>, cfg: Config, now: int, h: Hypot): (r: Step)
    ensures r.state.data == st.data && r.state.drawing == st.drawing
    decreases |gs|
  {
    if gs == [] then Step(st, true)
    else
      var r := ReplayGroups(st, gs[..|gs| - 1], cfg, now, h);
      if !r.ok then r else ReplayGroup(r.state, Last(gs), cfg, now, h)
  }

  /** The inner loop one point further: a reset before the first point, then that point. */
  lemma ReplayPointsSnoc(st: State, ps: seq<Point>, i: nat, s: Style, now: int, h: Hypot)
    requires i < |ps| && ReplayPoints(st, ps[..i], s, now, h).ok
    ensures var x := ReplayPoints(st, ps[..i], s, now, h).state;
      ReplayPoints(st, ps[..i + 1], s, now, h) == ReplayPoint(if i == 0 then ResetState(x, s) else x, ps[i], s, now, h)
  {
    assert ps[..i + 1][..i] == ps[..i];
  }

  /** Once the inner loop has thrown, the later points are never reached. */
  lemma {:induction false} ReplayPointsStops(st: State, ps: seq<Point>, k: nat, s: Style, now: int, h: Hypot)
    requires k <= |ps| && !ReplayPoints(st, ps[..k], s, now, h).ok
    ensures ReplayPoints(st, ps, s, now, h) == ReplayPoints(st, ps[..k], s, now, h)
    decreases |ps|
  {
    if k < |ps| {
      var prefix := ps[..|ps| - 1];
      assert prefix[..k] == ps[..k];
      ReplayPointsStops(st, prefix, k, s, now, h);
    } else {
      assert ps[..k] == ps;
    }
  }

  /** Once a group has thrown, the later groups are never replayed. */
  lemma {:induction false} ReplayGroupsStops(st: State, gs: seq<Group>, k: nat, cfg: Config, now: int, h: Hypot)
    requires k <= |gs| && !ReplayGroups(st, gs[..k], cfg, now, h).ok
    ensures ReplayGroups(st, gs, cfg, now, h) == ReplayGroups(st, gs[..k], cfg, now, h)
    decreases |gs|
  {
    if k < |gs| {
      var prefix := gs[..|gs| - 1];
      assert prefix[..k] == gs[..k];
      ReplayGroupsStops(st, prefix, k, cfg, now, h);
    } else {
      assert gs[..k] == gs;
    }
  }

  /**
   * `fromData(groups, {clear})`: optionally clear, replay, then append the
   * groups to the data. Afterwards `toData()` is the old data (or nothing,
   * when clearing) followed by the groups; if a group throws, nothing is
   * appended. The open-stroke flag is left alone.
   */
  function FromData(st: State, gs: seq<Group>, clear: bool, cfg: Config, now: int, h: Hypot): (r: Step)
    ensures var before := if clear then [] else st.data;
      (r.ok ==> r.state.data == before + gs) && (!r.ok ==> r.state.data == before) &&
      r.state.drawing == st.drawing
  {
    var st0 := if clear then Clear(st, cfg) else st;
    var r := ReplayGroups(st0, gs, cfg, now, h);
    if r.ok then Step(r.state.(data := r.state.data + gs), true) else r
  }

  // ---------------------------------------------------------------------
  // Lifecycle

  /** `_strokeUpdate` does nothing while no stroke is open. */
  lemma UpdateWhenIdle(st: State, x: Sample, now: int, allowed: bool, cfg: Config, h: Hypot)
    requires !st.drawing
    ensures Update(st, x, now, allowed, cfg, h) == Step(st, true)
    ensures End(st, x, now, allowed, cfg, h) == Step(st, true)
  {
  }

  /**
   * The filter of `_strokeUpdate`. A rejected sample changes nothing. A kept
   * sample is recorded once, at the end of the last group, and nothing else
   * in the data changes; the first point of a group draws a dot, a later one
   * draws a curve exactly when `_addPoint` returns one.
   */
  lemma UpdateFilters(st: State, x: Sample, now: int, cfg: Config, h: Hypot)
    requires |st.data| > 0
    ensures var r := UpdateOpen(st, x, now, cfg, h);
      var p, g := SamplePoint(x, now), OpenGroup(st);
      var s := Resolve(g.style, Defaults(cfg));
      var a := AddPoint(st.tracker, p, s, h);
      (!Accepts(g, p, cfg, h) ==> r == Step(st, true)) &&
      (Accepts(g, p, cfg, h) && r.ok ==>
        r.state.data[..|st.data| - 1] == st.data[..|st.data| - 1] &&
        |r.state.data| == |st.data| &&
        Last(r.state.data) == Group(g.style, g.points + [p]) &&
        r.state.tracker == a.tracker &&
        (|g.points| == 0 ==> r.state.events == st.events + [DotEvent(p, s, st.mode)]) &&
        (|g.points| > 0 && a.added.NewCurve? ==>
           r.state.events == st.events + [StrokeEvent(a.added.curve, s, st.mode, h)]) &&
        (|g.points| > 0 && a.added.NoCurve? ==> r.state.events == st.events)) &&
      (Accepts(g, p, cfg, h) && !r.ok ==> a.added.Threw? && r.state == st.(tracker := a.tracker))
  {
  }

  /**
   * A stroke that is not cancelled opens the pad, appends exactly one group,
   * snapshotting the pad's options, records the sample as its only point,
   * and draws a dot there.
   */
  lemma BeginOpensOneGroup(st: State, x: Sample, now: int, cfg: Config, h: Hypot)
    ensures var r := Begin(st, x, now, true, cfg, h);
      var s := Defaults(cfg);
      r.ok && r.state.drawing && !r.state.isEmpty &&
      r.state.data == st.data + [Group(Snapshot(s), [SamplePoint(x, now)])] &&
      r.state.tracker == Tracker([SamplePoint(x, now)], 0.0, ResetWidth(s)) &&
      r.state.mode == s.compositeOperation &&
      r.state.events == st.events + [DotEvent(SamplePoint(x, now), s, s.compositeOperation)]
    ensures Begin(st, x, now, false, cfg, h) == Step(st, true)
  {
    var s := Defaults(cfg);
    ResolveSnapshot(s, s);
    var g0 := Group(Snapshot(s), []);
    var st0 := ResetState(st.(drawing := true, data := st.data + [g0]), s);
    assert (st.data + [g0])[..|st.data|] == st.data;
    assert [] + [SamplePoint(x, now)] == [SamplePoint(x, now)];
    assert UpdateOpen(st0, x, now, cfg, h).ok;
  }

  /**
   * A tap: begin and end at the same position. The second sample lies at
   * distance 0 from the first and is dropped, so the stroke records one
   * point and draws one dot.
   */
  lemma TapDrawsOneDot(st: State, x: Sample, now: int, x2: Sample, now2: int, allowed: bool, cfg: Config, h: Hypot)
    requires IsNorm(h) && 0.0 <= cfg.minDistance && x2.x == x.x && x2.y == x.y
    ensures var b := Begin(st, x, now, true, cfg, h);
      var e := End(b.state, x2, now2, allowed, cfg, h);
      var s := Defaults(cfg);
      e.ok && !e.state.drawing && !e.state.isEmpty &&
      e.state.data == st.data + [Group(Snapshot(s), [SamplePoint(x, now)])] &&
      e.state.events == st.events + [DotEvent(SamplePoint(x, now), s, s.compositeOperation)]
  {
    BeginOpensOneGroup(st, x, now, cfg, h);
    var b := Begin(st, x, now, true, cfg, h).state;
    var s := Defaults(cfg);
    ResolveSnapshot(s, s);
    var g := OpenGroup(b);
    assert g == Group(Snapshot(s), [SamplePoint(x, now)]);
    assert DistanceTo(SamplePoint(x2, now2), Last(g.points), h) == h(0.0, 0.0);
    assert !Accepts(g, SamplePoint(x2, now2), cfg, h);
  }

  /** `_strokeEnd` closes the stroke, and a second call does nothing. */
  lemma EndIsIdempotent(st: State, x: Sample, now: int, allowed: bool, x2: Sample, now2: int,
                        allowed2: bool, cfg: Config, h: Hypot)
    requires End(st, x, now, allowed, cfg, h).ok
    ensures !End(st, x, now, allowed, cfg, h).state.drawing
    ensures var s := End(st, x, now, allowed, cfg, h).state;
      End(s, x2, now2, allowed2, cfg, h) == Step(s, true)
  {
  }

  // ---------------------------------------------------------------------
  // Replay

  /** The points of `ps` as replay rebuilds them. */
  function RebuildAll(ps: seq<Point>, now: int): (qs: seq<Point>)
    ensures |qs| == |ps| && forall i :: 0 <= i < |ps| ==> qs[i] == Rebuild(ps[i], now)
    ensures forall i :: 0 <= i < |ps| ==>
      qs[i].x == ps[i].x && qs[i].y == ps[i].y && qs[i].pressure == ps[i].pressure
    ensures forall i :: 0 <= i < |ps| ==> ps[i].time != 0 ==> qs[i].time == ps[i].time
    ensures forall i :: 0 <= i < |ps| ==> ps[i].time == 0 ==> qs[i].time == now
  {
    seq(|ps|, i requires 0 <= i < |ps| => Rebuild(ps[i], now))
  }

  /** No curve of `cs` draws a disk. */
  predicate Blank(cs: seq<Curve>, h: Hypot) {
    forall j :: 0 <= j < |cs| ==> Steps(Length(cs[j], h)) <= 0
  }

  lemma StrokesOfSnoc(cs: seq<Curve>, c: Curve, s: Style, mode: string, h: Hypot)
    ensures StrokesOf(cs + [c], s, mode, h) == StrokesOf(cs, s, mode, h) + [StrokeEvent(c, s, mode, h)]
  {
    assert (cs + [c])[..|cs|] == cs;
  }

  lemma BlankSnoc(cs: seq<Curve>, c: Curve, h: Hypot)
    ensures Blank(cs + [c], h) <==> Blank(cs, h) && Steps(Length(c, h)) <= 0
  {
    var cs2 := cs + [c];
    assert cs2[|cs|] == c;
    assert forall j :: 0 <= j < |cs| ==> cs2[j] == cs[j];
  }

  /**
   * A replay outcome `r`, started from `st`, mirrors the feed `f` in style
   * `s`: the same outcome and tracker, one stroke drawn per curve fed, the
   * composite mode of the group, and the pad empty only if it was and no
   * curve drew a disk.
   */
  predicate Mirrors(r: Step, st: State, f: Fed, s: Style, h: Hypot) {
    r.ok == f.ok && r.state.tracker == f.tracker &&
    r.state.events == st.events + StrokesOf(f.curves, s, s.compositeOperation, h) &&
    r.state.mode == s.compositeOperation && r.state.data == st.data && r.state.drawing == st.drawing &&
    (r.state.isEmpty <==> st.isEmpty && Blank(f.curves, h))
  }

  /** One `_addPoint` outcome, replayed, mirrors the same outcome fed. */
  lemma ReplayedStep(st: State, x: State, f: Fed, a: Addition, s: Style, h: Hypot)
    requires Mirrors(Step(x, true), st, f, s, h) && x.tracker == f.tracker
    ensures Mirrors(Replayed(x, a, s, h), st, Extend(f, a), s, h)
  {
    if a.added.NewCurve? {
      StrokesOfSnoc(f.curves, a.added.curve, s, s.compositeOperation, h);
      BlankSnoc(f.curves, a.added.curve, h);
    } else {
      assert f.curves + [] == f.curves;
    }
  }

  /** One replayed point mirrors one point fed. */
  lemma ReplayStep(st: State, x: State, f: Fed, q: Point, s: Style, now: int, h: Hypot)
    requires Mirrors(Step(x, true), st, f, s, h)
    ensures Mirrors(ReplayPoint(x, q, s, now, h), st, FeedOne(f, Rebuild(q, now), s, h), s, h)
  {
    ReplayedStep(st, x, f, AddPoint(f.tracker, Rebuild(q, now), s, h), s, h);
  }

  /**
   * Replaying the points of a group is feeding them, rebuilt, to `_addPoint`
   * from a reset, and drawing each curve that comes out.
   */
  lemma {:induction false} ReplayPointsIsFeed(st: State, ps: seq<Point>, s: Style, now: int, h: Hypot)
    requires 0 < |ps|
    ensures Mirrors(ReplayPoints(st, ps, s, now, h), st, Feed(Reset(s), RebuildAll(ps, now), s, h), s, h)
    decreases |ps|
  {
    var qs := RebuildAll(ps, now);
    var prefix := ps[..|ps| - 1];
    assert RebuildAll(prefix, now) == qs[..|qs| - 1];
    assert Last(qs) == Rebuild(Last(ps), now);
    if |ps| == 1 {
      assert ReplayPoints(st, prefix, s, now, h) == Step(st, true);
      var f0 := Fed(Reset(s), [], true);
      assert Feed(Reset(s), qs[..0], s, h) == f0;
      assert st.events + StrokesOf([], s, s.compositeOperation, h) == st.events;
      ReplayStep(st, ResetState(st, s), f0, Last(ps), s, now, h);
    } else {
      ReplayPointsIsFeed(st, prefix, s, now, h);
      var r := ReplayPoints(st, prefix, s, now, h);
      if r.ok {
        ReplayStep(st, r.state, Feed(Reset(s), qs[..|qs| - 1], s, h), Last(ps), s, now, h);
      }
    }
  }

  /** While the window holds fewer than three points, feeding only collects them. */
  lemma {:induction false} FeedShort(t: Tracker, ps: seq<Point>, s: Style, h: Hypot)
    requires |t.lastPoints| + |ps| <= 2
    ensures var f := Feed(t, ps, s, h);
      f.ok && f.curves == [] && f.tracker == t.(lastPoints := t.lastPoints + ps)
    decreases |ps|
  {
    if ps == [] {
      assert t.lastPoints + ps == t.lastPoints;
    } else {
      var prefix := ps[..|ps| - 1];
      FeedShort(t, prefix, s, h);
      assert t.lastPoints + prefix + [Last(ps)] == t.lastPoints + ps by {
        assert prefix + [Last(ps)] == ps;
      }
    }
  }

  /**
   * A replayed group of n > 1 points that does not throw draws exactly
   * n - 2 strokes, the j-th over the curve from point j to point j + 1, and
   * leaves its last three points in the window.
   */
  lemma ReplayedGroupStrokes(st: State, g: Group, cfg: Config, now: int, h: Hypot)
    requires |g.points| > 1
    ensures var r := ReplayGroup(st, g, cfg, now, h);
      var s := Resolve(g.style, Defaults(cfg));
      var qs := RebuildAll(g.points, now);
      var cs := Feed(Reset(s), qs, s, h).curves;
      r.ok ==>
        r.state.events == st.events + StrokesOf(cs, s, s.compositeOperation, h) &&
        |cs| == |g.points| - 2 &&
        (forall j :: 0 <= j < |cs| ==> cs[j].startPoint == qs[j] && cs[j].endPoint == qs[j + 1]) &&
        r.state.tracker.lastPoints == Tail3(qs)
  {
    var s := Resolve(g.style, Defaults(cfg));
    ReplayPointsIsFeed(st, g.points, s, now, h);
    FeedFromReset(Reset(s), RebuildAll(g.points, now), s, h);
  }

  /** Points with a non-zero time, which replay rebuilds unchanged. */
  predicate Stamped(ps: seq<Point>) {
    forall i :: 0 <= i < |ps| ==> ps[i].time != 0
  }

  lemma RebuildStamped(ps: seq<Point>, now: int)
    requires Stamped(ps)
    ensures RebuildAll(ps, now) == ps
  {
  }

  /** A group of two points replays to a reset and nothing drawn. */
  lemma TwoPointGroupDrawsNothing(st: State, g: Group, cfg: Config, now: int, h: Hypot)
    requires |g.points| == 2
    ensures var r := ReplayGroup(st, g, cfg, now, h);
      r.ok && r.state.events == st.events && r.state.isEmpty == st.isEmpty &&
      r.state.tracker.lastPoints == RebuildAll(g.points, now)
  {
    var s := Resolve(g.style, Defaults(cfg));
    var qs := RebuildAll(g.points, now);
    ReplayPointsIsFeed(st, g.points, s, now, h);
    FeedShort(Reset(s), qs, s, h);
    assert st.events + StrokesOf([], s, s.compositeOperation, h) == st.events;
  }

  // ---------------------------------------------------------------------
  // Live strokes against their replay

  /**
   * The state of a stroke being drawn live: the tracker is what feeding the
   * open group's points from a reset gives, the composite mode is the group's,
   * and since `before` the pad has drawn a dot at the first point and then
   * exactly the curves that feeding produced.
   */
  ghost predicate Live(st: State, before: seq<DrawEvent>, cfg: Config, h: Hypot) {
    |st.data| > 0 && Tracks(st, OpenGroup(st).points, before, Resolve(OpenGroup(st).style, Defaults(cfg)), h)
  }

  /** `st` is what feeding `ps` in style `s` from a reset leaves, drawn live after `before`. */
  ghost predicate Tracks(st: State, ps: seq<Point>, before: seq<DrawEvent>, s: Style, h: Hypot) {
    var f := Feed(Reset(s), ps, s, h);
    f.ok && st.tracker == f.tracker && st.mode == s.compositeOperation &&
    st.events == LiveEvents(before, ps, f.curves, s, st.mode, h)
  }

  /** What a live stroke over `ps` has drawn: a dot at its first point, then one stroke per curve. */
  function LiveEvents(before: seq<DrawEvent>, ps: seq<Point>, cs: seq<Curve>, s: Style, mode: string, h: Hypot): seq<DrawEvent> {
    if |ps| == 0 then before else before + [DotEvent(ps[0], s, mode)] + StrokesOf(cs, s, mode, h)
  }

  /** The live drawing one point further. */
  lemma LiveEventsSnoc(before: seq<DrawEvent>, ps: seq<Point>, p: Point, f: Fed, a: Addition, s: Style, mode: string, h: Hypot)
    requires |ps| == 0 ==> f.curves == [] && a.added.NoCurve?
    ensures LiveEvents(before, ps + [p], Extend(f, a).curves, s, mode, h) ==
      LiveEvents(before, ps, f.curves, s, mode, h) +
      (if |ps| == 0 then [DotEvent(p, s, mode)]
       else if a.added.NewCurve? then [StrokeEvent(a.added.curve, s, mode, h)] else [])
  {
    var qs := ps + [p];
    if |ps| == 0 {
      assert Extend(f, a).curves == [];
      assert StrokesOf([], s, mode, h) == [];
    } else {
      assert qs[0] == ps[0];
      if a.added.NewCurve? {
        StrokesOfSnoc(f.curves, a.added.curve, s, mode, h);
      } else {
        assert f.curves + [] == f.curves;
      }
    }
  }

  /** A stroke that begins is live from the events before it. */
  lemma BeginIsLive(st: State, x: Sample, now: int, cfg: Config, h: Hypot)
    ensures Live(Begin(st, x, now, true, cfg, h).state, st.events, cfg, h)
  {
    BeginOpensOneGroup(st, x, now, cfg, h);
    var s := Defaults(cfg);
    ResolveSnapshot(s, s);
    var p := SamplePoint(x, now);
    assert [p][..0] == [];
  }

  /**
   * A live state stays live when a point `p` joins the points `ps` of the
   * open group, the tracker takes the outcome `a` of feeding `p`, and the
   * pad draws the dot (first point) or the curve `a` returned.
   */
  lemma LiveAfter(st: State, st2: State, before: seq<DrawEvent>, ps: seq<Point>, p: Point, a: Addition, s: Style, h: Hypot)
    requires Tracks(st, ps, before, s, h)
    requires Feed(Reset(s), ps + [p], s, h) == Extend(Feed(Reset(s), ps, s, h), a)
    requires !a.added.Threw? && st2.tracker == a.tracker && st2.mode == st.mode
    requires |ps| == 0 ==> a.added.NoCurve? && st2.events == st.events + [DotEvent(p, s, st.mode)]
    requires |ps| > 0 && a.added.NewCurve? ==> st2.events == st.events + [StrokeEvent(a.added.curve, s, st.mode, h)]
    requires |ps| > 0 && a.added.NoCurve? ==> st2.events == st.events
    ensures Tracks(st2, ps + [p], before, s, h)
  {
    var f := Feed(Reset(s), ps, s, h);
    if |ps| == 0 {
      assert f == Fed(Reset(s), [], true);
    }
    LiveEventsSnoc(before, ps, p, f, a, s, st.mode, h);
  }

  /** Every update that does not throw keeps a stroke live. */
  lemma UpdateKeepsLive(st: State, before: seq<DrawEvent>, x: Sample, now: int, cfg: Config, h: Hypot)
    requires Live(st, before, cfg, h)
    requires UpdateOpen(st, x, now, cfg, h).ok
    ensures Live(UpdateOpen(st, x, now, cfg, h).state, before, cfg, h)
  {
    var r := UpdateOpen(st, x, now, cfg, h);
    var p, g := SamplePoint(x, now), OpenGroup(st);
    var s := Resolve(g.style, Defaults(cfg));
    UpdateFilters(st, x, now, cfg, h);
    if Accepts(g, p, cfg, h) {
      FeedSnoc(Reset(s), g.points, p, s, h);
      LiveAfter(st, r.state, before, g.points, p, AddPoint(st.tracker, p, s, h), s, h);
      assert OpenGroup(r.state) == Group(g.style, g.points + [p]);
    }
  }

  /**
   * With a non-negative `minDistance` and a true norm, the points a live
   * stroke records never repeat a position back to back, so a stroke drawn
   * live never throws.
   */
  lemma LiveNeverThrows(st: State, before: seq<DrawEvent>, x: Sample, now: int, cfg: Config, h: Hypot)
    requires Live(st, before, cfg, h) && Spread(OpenGroup(st).points)
    requires IsNorm(h) && 0.0 <= cfg.minDistance
    ensures UpdateOpen(st, x, now, cfg, h).ok
    ensures Spread(OpenGroup(UpdateOpen(st, x, now, cfg, h).state).points)
  {
    var p, g := SamplePoint(x, now), OpenGroup(st);
    var s := Resolve(g.style, Defaults(cfg));
    var f := Feed(Reset(s), g.points, s, h);
    assert f.ok && st.tracker == f.tracker;
    UpdateFilters(st, x, now, cfg, h);
    if Accepts(g, p, cfg, h) {
      if 0 < |g.points| {
        assert 0.0 < DistanceTo(p, Last(g.points), h);
      }
      SpreadSnoc(g.points, p);
      FeedWindow(Reset(s), g.points, s, h);
      SpreadStep(st.tracker, g.points, p, s, h);
    }
  }

  lemma SpreadSnoc(ps: seq<Point>, p: Point)
    requires Spread(ps) && (0 < |ps| ==> !SamePlace(Last(ps), p))
    ensures Spread(ps + [p])
  {
    var qs := ps + [p];
    assert forall i :: 0 <= i < |ps| ==> qs[i] == ps[i];
  }

  /**
   * Replaying a group drawn live reproduces the live strokes curve for curve,
   * without the dot the live stroke drew at its first point.
   */
  lemma ReplayRedrawsLiveCurves(st: State, before: seq<DrawEvent>, cfg: Config, h: Hypot,
                                other: State, now: int)
    requires Live(st, before, cfg, h)
    requires |OpenGroup(st).points| > 1 && Stamped(OpenGroup(st).points)
    ensures var g := OpenGroup(st);
      var s := Resolve(g.style, Defaults(cfg));
      var r := ReplayGroup(other, g, cfg, now, h);
      var curves := Feed(Reset(s), g.points, s, h).curves;
      r.ok && r.state.tracker == st.tracker && r.state.mode == st.mode &&
      st.events == before + [DotEvent(g.points[0], s, st.mode)] + StrokesOf(curves, s, st.mode, h) &&
      r.state.events == other.events + StrokesOf(curves, s, st.mode, h)
  {
    var g := OpenGroup(st);
    var s := Resolve(g.style, Defaults(cfg));
    ReplayPointsIsFeed(other, g.points, s, now, h);
    RebuildStamped(g.points, now);
  }
}
