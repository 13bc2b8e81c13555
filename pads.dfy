/**
 * The pad itself (class `s`) as an object whose methods update its fields
 * in place, as the source's do. Each method is proved to leave the pad in
 * the state the matching `Engine` function computes from the state before
 * it, and to report an escaping exception as `ok == false`; what is proved
 * about those functions therefore holds of the pad.
 */
module Pads {
  import opened Wrappers
  import opened Geometry
  import opened Styles
  import opened Raster
  import opened Engine
  import opened Throttling

  /** The fields as the constructor sets them, before its call to `clear()`. */
  const Initial := Engine.State([], Tracker([], 0.0, 0.0), false, true, "source-over", [])

  class Pad {
    /** The options read once by the constructor. */
    const cfg: Config
    /** `Math.sqrt(dx * dx + dy * dy)`. */
    const h: Hypot
    /** The throttle around `_strokeUpdate` (used only when `throttle` is non-zero). */
    const mover: Throttle<Sample>

    var data: seq<Group>
    var lastPoints: seq<Point>
    var lastVelocity: real
    var lastWidth: real
    var drawing: bool
    var isEmpty: bool
    /** The canvas's `globalCompositeOperation`. */
    var mode: string
    /** What has been drawn on the canvas, in order. */
    var events: seq<DrawEvent>

    function State(): Engine.State
      reads this
    {
      Engine.State(data, Tracker(lastPoints, lastVelocity, lastWidth), drawing, isEmpty, mode, events)
    }

    ghost predicate Valid()
      reads this, mover
    {
      mover.Valid() && mover.wait == cfg.throttle
    }

    /** `new s(canvas, options)`: read the options, then `clear()`. */
    constructor(o: Options, h: Hypot)
      ensures Valid() && fresh(mover) && mover.args == None && !mover.pending
      ensures this.cfg == Configure(o) && this.h == h
      ensures State() == Engine.Clear(Initial, Configure(o))
    {
      cfg := Configure(o);
      this.h := h;
      mover := new Throttle(Configure(o).throttle);
      data := [];
      lastPoints := [];
      lastVelocity := 0.0;
      lastWidth := 0.0;
      drawing := false;
      isEmpty := true;
      mode := "source-over";
      events := [];
      new;
      Clear();
    }

    /** `clear()`. */
    method Clear()
      modifies this
      ensures State() == Engine.Clear(old(State()), cfg)
    {
      events := events + [Wipe(cfg.backgroundColor, mode)];
      data := [];
      Reset(Defaults(cfg));
      isEmpty := true;
    }

    /** `isEmpty()`. */
    method IsEmpty() returns (b: bool)
      ensures b == State().isEmpty
    {
      b := isEmpty;
    }

    /** `toData()`. */
    method ToData() returns (d: seq<Group>)
      ensures d == State().data
    {
      d := data;
    }

    /** `_reset(style)`. */
    method Reset(s: Style)
      modifies this
      ensures State() == ResetState(old(State()), s)
    {
      lastPoints := [];
      lastVelocity := 0.0;
      lastWidth := (s.minWidth + s.maxWidth) / 2.0;
      mode := s.compositeOperation;
    }

    /** `_calculateCurveWidths(start, end, style)`: the old and the new width. */
    method CalculateCurveWidths(start: Point, end: Point, s: Style) returns (startWidth: real, endWidth: real)
      modifies this
      ensures State() == old(State()).(tracker := CurveWidths(old(State()).tracker, start, end, s, h))
      ensures startWidth == old(lastWidth) && endWidth == lastWidth
    {
      var v := s.velocityFilterWeight * VelocityFrom(end, start, h) + (1.0 - s.velocityFilterWeight) * lastVelocity;
      var w := StrokeWidth(v, s);
      startWidth, endWidth := lastWidth, w;
      lastVelocity, lastWidth := v, w;
    }

    /** `_addPoint(p, style)`. */
    method AddPoint(p: Point, s: Style) returns (added: Added)
      modifies this
      ensures Addition(State().tracker, added) == Engine.AddPoint(old(State()).tracker, p, s, h)
      ensures State() == old(State()).(tracker := State().tracker)
    {
      lastPoints := lastPoints + [p];
      if |lastPoints| > 2 {
        if |lastPoints| == 3 {
          lastPoints := [lastPoints[0]] + lastPoints;
        }
        var startWidth, endWidth := CalculateCurveWidths(lastPoints[1], lastPoints[2], s);
        var c := FromPoints(lastPoints, startWidth, endWidth, h);
        if c.None? {
          return Threw;
        }
        lastPoints := lastPoints[1..];
        added := NewCurve(c.value);
      } else {
        added := NoCurve;
      }
    }

    /** `_drawCurveSegment(x, y, r)`: one filled circle; the pad is no longer empty. */
    method DrawCurveSegment(x: real, y: real, r: real) returns (d: Disk)
      modifies this
      ensures d == Disk(x, y, r)
      ensures State() == old(State()).(isEmpty := false)
    {
      isEmpty := false;
      d := Disk(x, y, r);
    }

    /** `_drawCurve(c, style)`: `2 * ceil(c.length())` circles along the curve. */
    method DrawCurve(c: Curve, s: Style)
      modifies this
      ensures State() == Engine.DrawCurve(old(State()), c, s, h)
    {
      var len := CurveLength(c, h);
      var n := Steps(len);
      var ds: seq<Disk> := [];
      var i := 0;
      while i < n
        invariant 0 <= i && (n <= 0 ==> i == 0) && (0 < n ==> i <= n)
        invariant |ds| == i
        invariant forall j :: 0 <= j < i ==> ds[j] == SegmentDisk(c, j as real / n as real, s.maxWidth)
        invariant State() == old(State()).(isEmpty := old(isEmpty) && i == 0)
      {
        var o := i as real / n as real;
        var d := DrawCurveSegment(Expanded(o, c.startPoint.x, c.control1.x, c.control2.x, c.endPoint.x),
                                  Expanded(o, c.startPoint.y, c.control1.y, c.control2.y, c.endPoint.y),
                                  Radius(o, c.startWidth, c.endWidth, s.maxWidth));
        ds := ds + [d];
        i := i + 1;
      }
      assert ds == CurveDisks(c, n, s.maxWidth);
      events := events + [Stroke(s.penColor, mode, c, ds)];
    }

    /** `_drawDot(p, style)`. */
    method DrawDot(p: Point, s: Style)
      modifies this
      ensures State() == Engine.DrawDot(old(State()), p, s)
    {
      var r := if s.dotSize > 0.0 then s.dotSize else (s.minWidth + s.maxWidth) / 2.0;
      var d := DrawCurveSegment(p.x, p.y, r);
      events := events + [Dot(s.penColor, mode, d)];
    }

    /** `_strokeBegin(x)`; `allowed` is false when a `beginStroke` listener cancels. */
    method StrokeBegin(x: Sample, now: int, allowed: bool) returns (ok: bool)
      modifies this
      ensures Step(State(), ok) == Begin(old(State()), x, now, allowed, cfg, h)
    {
      if !allowed {
        return true;
      }
      drawing := true;
      var s := Defaults(cfg);
      data := data + [Group(Snapshot(s), [])];
      Reset(s);
      ok := UpdateOpen(x, now);
    }

    /** `_strokeUpdate(x)` at time `now`. */
    method StrokeUpdate(x: Sample, now: int, allowed: bool) returns (ok: bool)
      modifies this
      ensures Step(State(), ok) == Update(old(State()), x, now, allowed, cfg, h)
    {
      if !drawing {
        return true;
      }
      if |data| == 0 {
        ok := StrokeBegin(x, now, allowed);
        return;
      }
      ok := UpdateOpen(x, now);
    }

    /** The rest of `_strokeUpdate`, once a stroke is open and there is data. */
    method UpdateOpen(x: Sample, now: int) returns (ok: bool)
      requires |data| > 0
      modifies this
      ensures Step(State(), ok) == Engine.UpdateOpen(old(State()), x, now, cfg, h)
    {
      var p := SamplePoint(x, now);
      var g := data[|data| - 1];
      var s := Resolve(g.style, Defaults(cfg));
      if Accepts(g, p, cfg, h) {
        var added := AddPoint(p, s);
        if added.Threw? {
          return false;
        }
        if |g.points| == 0 {
          DrawDot(p, s);
        } else if added.NewCurve? {
          DrawCurve(added.curve, s);
        }
        data := data[..|data| - 1] + [g.(points := g.points + [p])];
      }
      ok := true;
    }

    /** `_strokeEnd(x)`. */
    method StrokeEnd(x: Sample, now: int, allowed: bool) returns (ok: bool)
      modifies this
      ensures Step(State(), ok) == End(old(State()), x, now, allowed, cfg, h)
    {
      if !drawing {
        return true;
      }
      ok := StrokeUpdate(x, now, allowed);
      if ok {
        drawing := false;
      }
    }

    /**
     * `_strokeMoveUpdate(x)`, the move handler: `_strokeUpdate` itself when
     * `throttle` is 0, else the throttled wrapper. A call the throttle holds
     * back does nothing to the pad.
     */
    method MoveUpdate(x: Sample, now: int, allowed: bool) returns (ok: bool)
      requires Valid()
      modifies this, mover
      ensures Valid()
      ensures cfg.throttle == 0 ==>
        Step(State(), ok) == Update(old(State()), x, now, allowed, cfg, h) && unchanged(mover)
      ensures cfg.throttle != 0 && RunsNow(cfg.throttle, old(mover.last), now) ==>
        Step(State(), ok) == Update(old(State()), x, now, allowed, cfg, h) &&
        mover.last == now && !mover.pending && (ok ==> mover.args == None)
      ensures cfg.throttle != 0 && !RunsNow(cfg.throttle, old(mover.last), now) ==>
        ok && State() == old(State()) && mover.pending && mover.args == Some(x) &&
        mover.due == old(mover.last) + cfg.throttle
    {
      if cfg.throttle == 0 {
        ok := StrokeUpdate(x, now, allowed);
        return;
      }
      var run := mover.Call(now, x);
      if run {
        ok := StrokeUpdate(mover.args.value, now, allowed);
        if ok {
          mover.Finish();
        }
      } else {
        ok := true;
      }
    }

    /** The throttle's timer goes off at `now`: `_strokeUpdate` with the latest held-back sample. */
    method TimerFires(now: int, allowed: bool) returns (ok: bool)
      requires Valid() && mover.pending
      modifies this, mover
      ensures Valid()
      ensures Step(State(), ok) == Update(old(State()), old(mover.args).value, now, allowed, cfg, h)
      ensures mover.last == now && !mover.pending && (ok ==> mover.args == None)
    {
      var x := mover.Fire(now);
      ok := StrokeUpdate(x, now, allowed);
      if ok {
        mover.Finish();
      }
    }

    /** The inner loop of `_fromData` over the points of one group of more than one point. */
    method ReplayPoints(ps: seq<Point>, s: Style, now: int) returns (ok: bool)
      modifies this
      ensures Step(State(), ok) == Engine.ReplayPoints(old(State()), ps, s, now, h)
    {
      ghost var st0 := State();
      for i := 0 to |ps|
        invariant Step(State(), true) == Engine.ReplayPoints(st0, ps[..i], s, now, h)
      {
        ReplayPointsSnoc(st0, ps, i, s, now, h);
        var q := ps[i];
        var pt := NewPoint(q.x, q.y, q.pressure, q.time, now);
        if i == 0 {
          Reset(s);
        }
        ghost var x := State();
        var added := AddPoint(pt, s);
        assert Engine.AddPoint(x.tracker, Rebuild(q, now), s, h) == Addition(State().tracker, added);
        if added.Threw? {
          ReplayPointsStops(st0, ps, i + 1, s, now, h);
          return false;
        }
        if added.NewCurve? {
          DrawCurve(added.curve, s);
        }
      }
      assert ps[..|ps|] == ps;
      ok := true;
    }

    /** One group of `_fromData`. */
    method ReplayGroup(g: Group, now: int) returns (ok: bool)
      modifies this
      ensures Step(State(), ok) == Engine.ReplayGroup(old(State()), g, cfg, now, h)
    {
      var s := Resolve(g.style, Defaults(cfg));
      if |g.points| > 1 {
        ok := ReplayPoints(g.points, s, now);
      } else {
        Reset(s);
        if |g.points| == 0 {
          return false;
        }
        DrawDot(g.points[0], s);
        ok := true;
      }
    }

    /**
     * `fromData(groups, {clear})` at time `now`: a stored point whose time
     * is 0 takes `now`.
     */
    method FromData(gs: seq<Group>, clear: bool, now: int) returns (ok: bool)
      modifies this
      ensures Step(State(), ok) == Engine.FromData(old(State()), gs, clear, cfg, now, h)
    {
      if clear {
        Clear();
      }
      ghost var st0 := State();
      for k := 0 to |gs|
        invariant Step(State(), true) == ReplayGroups(st0, gs[..k], cfg, now, h)
      {
        assert gs[..k + 1][..k] == gs[..k];
        ok := ReplayGroup(gs[k], now);
        if !ok {
          ReplayGroupsStops(st0, gs, k + 1, cfg, now, h);
          return;
        }
      }
      assert gs[..|gs|] == gs;
      data := data + gs;
      ok := true;
    }
  }
}
