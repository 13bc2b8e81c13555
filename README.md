# Signature pad stroke engine

A model of the stroke engine in `webPhoto/print.js`, a de-minified copy of
Signature Pad 4.1.7. A pen sample enters `_strokeBegin`, `_strokeUpdate` or
`_strokeEnd`. A sample not further than `minDistance` from the last
recorded point is dropped. Every kept point goes into a sliding window of at
most three points (`_addPoint`). When the third point of a stroke arrives,
the first point is duplicated and the first cubic Bezier segment, from the
first point to the second, comes out. From then on each new point gives one
segment over the two points before it. The segment's end width comes from
an exponentially smoothed pen velocity (`_calculateCurveWidths`,
`_strokeWidth`). The segment is drawn as
`2 * ceil(length)` disks (`_drawCurve`), and the first point of a stroke as
a dot (`_drawDot`). Every stroke records its points, with a snapshot of the
pad's style, in a group of the pad's data. `fromData` replays groups through
the same window. Moves can be throttled by a trailing throttle.

The project is organised as follows:

- `wrappers.dfy`: `Option`, `Min` and `Max`.
- `geometry.dfy`: the pen sample (class `t`), distance and velocity, and the
  Bezier segment (class `e`). The segment has its control points, its
  construction from a window and its ten-chord `length()`.
- `styles.dfy`: the constructor's option defaults, and the per-group style
  (`_getPointGroupOptions`). It also holds the width rules: the reset width,
  the velocity filter, `_strokeWidth` and the dot radius.
- `raster.dfy`: the disks `_drawCurve` draws for a segment (centre and
  radius of each).
- `engine.dfy`: the pad (class `s`) as functions on its state. These cover
  the tracker (`_reset`, `_addPoint`) and the stroke lifecycle (`_strokeBegin`,
  `_strokeUpdate`, `_strokeEnd`, `clear`). They also cover replay
  (`_fromData`, `fromData`) and the lemmas relating all of these.
- `throttle.dfy`: the throttle closure, a class with the last-run time, the
  pending timer and the held-back arguments.
- `pads.dfy`: the pad as a class whose methods update its fields in place,
  with the source's loops and branches. (`StrokeBegin` goes straight to the
  open-stroke half of `_strokeUpdate`, which is the branch the source's call
  takes after the group has been pushed.) Each method is proved to
  produce the state the matching `Engine` function computes, so every lemma
  about those functions holds of the class.

### How the model represents the source

- **The canvas.** It is the sequence of draw events the pad has issued:
  - a wipe (`clear`);
  - a dot;
  - a stroke, which is the segment together with the disks drawn for it.

  Each event carries the pen colour and the composite operation in force.
- **Square roots.** The only square root taken is
  `Math.sqrt(dx * dx + dy * dy)`, in `distanceTo`, `calculateControlPoints`
  and `length()`. It is a parameter `h` of the model. `Geometry.IsNorm(h)`
  names the two facts some lemmas use:
  - it is never negative;
  - it is 0 exactly on the zero vector.
- **Exceptions.** An exception that escapes an operation is the outcome
  `ok == false`, together with the state as it stood when it was thrown.
  Two of them are modelled:
  - `calculateControlPoints` builds `new t(NaN, NaN)` when both of its
    chords have length 0, and the point constructor throws. The window then
    keeps four points, and the new velocity and width are already stored.
  - `_fromData` passes `undefined` to `_drawDot` for a group without
    points.

  The canvas's `arc` throwing on a negative radius is not modelled (see
  "Left out").
- **The clock.** `Date.now()` and `new Date().getTime()` are the parameter
  `now`. A `beginStroke` listener that cancels is `allowed == false`.

### Replay and the window

- Replay does not redraw a stroke's first dot. A live stroke draws a dot at
  its first point and then its curves. Replaying a group of more than one
  point draws only the curves, so a group of two points replays to nothing
  at all (`Engine.ReplayRedrawsLiveCurves`,
  `Engine.TwoPointGroupDrawsNothing`).
- After a throw in `_addPoint` the window holds four points: the `shift`
  that follows `fromPoints` never runs.

## Model

| member | source | states |
|---|---|---|
| Geometry.NewPoint | webPhoto/print.js:22-25 | position and pressure are kept; a non-zero time is kept, and a zero time becomes the clock reading |
| Geometry.DistanceTo | webPhoto/print.js:33-35 | with a true norm the distance is never negative, and it is 0 exactly when both points share a position |
| Geometry.VelocityFrom | webPhoto/print.js:53-55 | equal timestamps give velocity 0; otherwise velocity times elapsed time is the distance; a non-decreasing time and a non-negative distance give a non-negative velocity |
| Geometry.BezierPoint | webPhoto/print.js:107-109 | the cubic is at the start value for t = 0 and at the end value for t = 1 |
| Geometry.BezierReversed | webPhoto/print.js:107-109 | the curve read backwards is the curve with its four values reversed |
| Geometry.BezierConstant | webPhoto/print.js:107-109 | with all four values equal the cubic is that value (the weights sum to 1) |
| Geometry.LerpBetween | webPhoto/print.js:526-527 | a blend with weight in [0, 1] stays between the two blended values |
| Geometry.ControlPoints | webPhoto/print.js:119-139 | no control points (the NaN throw) exactly when both chords have length 0; c2 - c1 is half of p3 - p1; p2 divides c1 -> c2 in the ratio of the two chord lengths |
| Geometry.FromPoints | webPhoto/print.js:148-152 | the segment runs from window point 1 to window point 2 with the given start and end widths; it fails exactly when one of the two control-point constructions has two zero chords |
| Geometry.CurveLength | webPhoto/print.js:81-95 | the eleven-sample loop of `length()` computes the sum of the ten chords |
| Geometry.ChordsNonNegative | webPhoto/print.js:81-95 | with a non-negative square root the length is never negative |
| Geometry.PointCurveHasNoLength | webPhoto/print.js:81-95 | a segment whose four points coincide has length 0 |
| Styles.Resolve | webPhoto/print.js:389-398 | each of the six style keys takes the group's value when the key is present, and the pad's own value otherwise |
| Styles.ResolveNoOverride | webPhoto/print.js:389-398 | with no keys, the pad's own style comes back |
| Styles.ResolveSnapshot | webPhoto/print.js:389-398 | a group that stores all six keys keeps its style whatever the pad's options are later |
| Styles.ResolveTwice | webPhoto/print.js:389-398 | resolving again against the resolved style changes nothing |
| Styles.Configure | webPhoto/print.js:251-259 | the seven `||` options keep any non-falsy given value, and all of them but `dotSize` (whose default is 0) are never falsy; `throttle` and `minDistance` keep any given value, 0 included; `dotSize` keeps any given value |
| Styles.ConfigureDefaults | webPhoto/print.js:251-259 | without options: weight 0.7, widths 0.5 and 2.5, throttle 16, minDistance 5, dotSize 0, "black", "rgba(0,0,0,0)", "source-over" |
| Styles.ConfigureZeroes | webPhoto/print.js:251-259 | an explicit 0 is replaced for `minWidth` but kept for `minDistance` and `throttle` |
| Styles.Defaults | webPhoto/print.js:389-398 | without a group, each of the six style options is the pad's option of the same name |
| Styles.ResetWidth | webPhoto/print.js:507 | the width after `_reset` lies between minWidth and maxWidth when they are ordered |
| Styles.DotRadius | webPhoto/print.js:580-584 | the dot radius is dotSize when positive, else the middle of the width range |
| Styles.DotRadiusNonNegative | webPhoto/print.js:580-584 | with non-negative widths the dot radius is never negative |
| Styles.DotMatchesFirstWidth | webPhoto/print.js:580-584 | without a dot size, a dot and the first curve of a stroke start from the same width, inside the width range |
| Styles.BlendedVelocity | webPhoto/print.js:527 | the filtered velocity is the blend from the previous velocity to the instant one by the filter weight: weight 1 gives the instant velocity, weight 0 the previous one |
| Styles.BlendedVelocityBetween | webPhoto/print.js:527 | with a weight in [0, 1] the filtered velocity lies between the instant and the previous velocity |
| Styles.StrokeWidth | webPhoto/print.js:535-537 | the width is never below minWidth; it is `max(maxWidth / (v + 1), minWidth)`; for v >= 0 and 0 <= minWidth <= maxWidth it is at most maxWidth |
| Styles.StrokeWidthMonotone | webPhoto/print.js:535-537 | a faster pen never gives a wider line |
| Raster.Ceil | webPhoto/print.js:561 | `Math.ceil`: the least integer not below its argument |
| Raster.Steps | webPhoto/print.js:561 | the sample count is even, non-negative for a non-negative length, and at least 2 for a positive one |
| Raster.ExpandedIsPoint | webPhoto/print.js:565-573 | the inline cubic of `_drawCurve` is the polynomial `point` evaluates |
| Raster.Radius | webPhoto/print.js:574 | no disk radius exceeds maxWidth |
| Raster.CurveDisks | webPhoto/print.js:558-578 | one disk per sample, n of them for n > 0 and none otherwise |
| Raster.SegmentDiskOnCurve | webPhoto/print.js:565-574 | every disk is centred on the curve |
| Raster.DisksNeverExceedMaxWidth | webPhoto/print.js:574 | every disk of a segment is at most maxWidth wide |
| Raster.FirstDiskAtStart | webPhoto/print.js:562-574 | the first disk sits on the start point with the start width, capped at maxWidth |
| Raster.CubeInUnit | webPhoto/print.js:565-566 | the weight o³ of the width schedule stays in [0, 1] |
| Raster.RadiusBetweenEndWidths | webPhoto/print.js:574 | when neither end width exceeds maxWidth, every radius lies between the two end widths |
| Raster.RadiusNonNegative | webPhoto/print.js:574 | with non-negative end widths and cap, no radius is negative |
| Raster.DisksNonNegative | webPhoto/print.js:558-578 | with non-negative widths and cap, no disk of a segment has a negative radius |
| Engine.Reset | webPhoto/print.js:507-509 | the window and velocity are cleared and the width is the middle of the width range, so it lies in that range when the range is ordered |
| Engine.CurveWidths | webPhoto/print.js:526-534 | the tracker takes the filtered velocity and the width `_strokeWidth` gives for that velocity; the width is at least minWidth, and at most maxWidth for a non-negative velocity |
| Engine.AddPoint | webPhoto/print.js:514-525 | below two buffered points the point is only pushed; at exactly two the window [p0, p0, p1, p] gives the curve p0 -> p1; at three the curve runs over the middle two and the window shifts; the curve starts at the old width and ends at the new one; from two or three buffered points the new velocity is the filtered velocity from the second-newest to the newest buffered point, and the new width is `_strokeWidth` of it |
| Engine.AddPointThrowsOnlyOnRepeat | webPhoto/print.js:514-525 | with a true norm `_addPoint` can only throw when its two newest points sit at the same position |
| Engine.Tail3 | webPhoto/print.js:514-525 | the window holds min(k, 3) points |
| Engine.FeedWindow | webPhoto/print.js:514-525 | after k points since `_reset` the window is the last min(k, 3) of them |
| Engine.FeedFromReset | webPhoto/print.js:507-537 | k points since `_reset` give k - 2 curves (none for k < 3); curve j runs from point j to point j + 1; the first starts at the reset width; each later one starts at the previous end width; all end widths are at least minWidth |
| Engine.FeedSpreadNeverThrows | webPhoto/print.js:514-525 | with a true norm, points whose neighbours never coincide are fed without an exception |
| Engine.FeedShort | webPhoto/print.js:514-525 | up to two points after a reset are only collected, with no curve |
| Engine.WidthStep | webPhoto/print.js:514-534 | one `_addPoint` on time-ordered points, with a filter weight in [0, 1], keeps the velocity non-negative and the width in range, and returns a curve whose two widths are in range |
| Engine.FeedKeepsWidths | webPhoto/print.js:514-537 | feeding time-ordered points to an empty tracker with a non-negative velocity and an in-range width keeps both so, and every curve has both widths in [minWidth, maxWidth] |
| Engine.FeedWidthsInRange | webPhoto/print.js:507-537 | after `_reset`, with time-ordered points, a filter weight in [0, 1], 0 <= maxWidth and minWidth <= maxWidth, every curve of the stroke starts and ends with a width in [minWidth, maxWidth] |
| Engine.FeedDrawsNoNegativeDisk | webPhoto/print.js:558-578 | with in addition 0 <= minWidth, no disk drawn for those curves has a negative radius |
| Engine.ResetState | webPhoto/print.js:507-509 | `_reset` resets the tracker and sets the composite operation, and changes nothing else |
| Engine.StrokesOf | webPhoto/print.js:558-578 | one stroke per curve, and stroke j is the one `_drawCurve` draws for curve j |
| Engine.DrawCurve | webPhoto/print.js:548-578 | one stroke event is appended; the pad stops being empty exactly when a disk is drawn; nothing else changes |
| Engine.DrawDot | webPhoto/print.js:580-584 | one dot event is appended and the pad is no longer empty; nothing else changes |
| Engine.Clear | webPhoto/print.js:282-293 | the data is empty, the pad is empty, the tracker is reset with the pad's options, one wipe is drawn, and the stroke flag is untouched |
| Engine.SamplePoint | webPhoto/print.js:510-513 | the sample's position and pressure, with the clock reading as its time |
| Engine.Accepts | webPhoto/print.js:454-463 | the first sample of a group is always kept; with a true norm and minDistance >= 0 a kept later sample never sits at the group's last position |
| Engine.UpdateOpen | webPhoto/print.js:446-479 | the stroke flag, the composite mode and the number of groups are unchanged; an exception leaves the data and the canvas untouched |
| Engine.Begin | webPhoto/print.js:408-431 | a cancelled begin changes nothing; otherwise the stroke is open and there is exactly one group more |
| Engine.Update | webPhoto/print.js:437-441 | nothing happens while no stroke is open, and an open stroke stays open |
| Engine.End | webPhoto/print.js:490-497 | nothing happens while no stroke is open; an end that returns normally closes the stroke; an exception leaves it open |
| Engine.UpdateWhenIdle | webPhoto/print.js:437-497 | `_strokeUpdate` and `_strokeEnd` do nothing while no stroke is open |
| Engine.UpdateFilters | webPhoto/print.js:446-472 | a sample within minDistance of the group's last point changes nothing; a kept sample is recorded once, at the end of the last group, and the rest of the data is unchanged; the first point draws a dot; a later one draws a curve exactly when `_addPoint` returns one; an exception comes only from `_addPoint` |
| Engine.BeginOpensOneGroup | webPhoto/print.js:408-431 | a stroke that is not cancelled opens the pad and appends one group with a snapshot of the pad's options; the sample is its only point; a dot is drawn there; a cancelled begin changes nothing |
| Engine.TapDrawsOneDot | webPhoto/print.js:408-497 | begin and end at the same position record one point and draw one dot, and close the stroke |
| Engine.EndIsIdempotent | webPhoto/print.js:490-497 | `_strokeEnd` closes the stroke, and a second call does nothing |
| Engine.RebuildAll | webPhoto/print.js:591-593 | each stored point keeps its position and pressure; a non-zero time is kept and a zero time is replaced by the clock |
| Engine.RebuildStamped | webPhoto/print.js:591-593 | points with non-zero times are rebuilt unchanged |
| Engine.ReplayPointsIsFeed | webPhoto/print.js:585-599 | replaying a group's points is feeding them from a reset, drawing each curve that comes out; the outcome, tracker, mode and data are those of the feed; the pad stays empty only if no curve drew a disk |
| Engine.ReplayPointsStops | webPhoto/print.js:589-595 | after an exception in the inner loop the later points are not replayed |
| Engine.ReplayGroupsStops | webPhoto/print.js:585-599 | after an exception in one group the later groups are not replayed |
| Engine.ReplayPoints | webPhoto/print.js:589-595 | replaying points does not touch the data or the stroke flag |
| Engine.ReplayGroup | webPhoto/print.js:586-596 | a group without points throws; a one-point group resets with its style and draws one dot; the data and the stroke flag are untouched |
| Engine.ReplayGroups | webPhoto/print.js:585-599 | replaying groups does not touch the data or the stroke flag |
| Engine.FromData | webPhoto/print.js:375-381 | afterwards `toData()` is the old data (or nothing, when clearing) followed by the groups; after an exception nothing is appended; the stroke flag is untouched |
| Engine.ReplayedGroupStrokes | webPhoto/print.js:585-599 | a group of n > 1 points replays as exactly n - 2 strokes, the j-th from point j to point j + 1, and its last three points stay in the window |
| Engine.TwoPointGroupDrawsNothing | webPhoto/print.js:585-599 | a group of two points replays to a reset and nothing drawn |
| Engine.BeginIsLive | webPhoto/print.js:408-431 | a stroke that begins is live: tracker, mode and drawing are those of feeding its points from a reset |
| Engine.UpdateKeepsLive | webPhoto/print.js:437-482 | every update that does not throw keeps a stroke live |
| Engine.LiveNeverThrows | webPhoto/print.js:446-472 | with minDistance >= 0 and a true norm, a live stroke records no two consecutive points at the same position, and so never throws |
| Engine.ReplayRedrawsLiveCurves | webPhoto/print.js:585-599 | replaying a group drawn live gives the live tracker and mode and redraws the live curves one for one, without the live stroke's first dot |
| Throttling.Remaining | webPhoto/print.js:269-270 | the remaining wait ends exactly `wait` after the last run |
| Throttling.RunsNowIff | webPhoto/print.js:270-271 | a call runs at once exactly when `wait` has passed since the last run or the clock is behind it |
| Throttling.DelayWithinWait | webPhoto/print.js:270-271 | a held-back call leaves a delay in (0, wait] |
| Throttling.NoWaitAlwaysRuns | webPhoto/print.js:270-271 | with a wait of 0 or less every call runs at once |
| Throttling.Throttle.constructor | webPhoto/print.js:263-264 | nothing has run (last-run time 0), no timer is pending and no arguments are held |
| Throttling.Throttle.Call | webPhoto/print.js:268-272 | the arguments are always recorded; a call that runs cancels the timer and sets the last-run time; otherwise one timer is pending, due `wait` after the last run, and an existing one is kept |
| Throttling.Throttle.Fire | webPhoto/print.js:265-267 | the timer runs with the latest arguments and sets the last-run time |
| Throttling.Throttle.Finish | webPhoto/print.js:266-271 | after a run that returned, the arguments are dropped unless a timer is pending |
| Pads.Pad.constructor | webPhoto/print.js:186-277 | the options are configured, the throttle has the pad's interval, and the state is a `clear()` of the initial fields |
| Pads.Pad.Clear | webPhoto/print.js:282-293 | the new state is `Engine.Clear` of the old |
| Pads.Pad.IsEmpty | webPhoto/print.js:370-372 | returns the pad's empty flag |
| Pads.Pad.ToData | webPhoto/print.js:384-386 | returns the pad's data |
| Pads.Pad.Reset | webPhoto/print.js:507-509 | the new state is `Engine.ResetState` of the old |
| Pads.Pad.CalculateCurveWidths | webPhoto/print.js:526-534 | the tracker becomes `Engine.CurveWidths` of the old; the old and the new width are returned |
| Pads.Pad.AddPoint | webPhoto/print.js:514-525 | tracker and result are `Engine.AddPoint` of the old tracker; nothing else changes |
| Pads.Pad.DrawCurveSegment | webPhoto/print.js:548-557 | one disk; the pad is no longer empty |
| Pads.Pad.DrawCurve | webPhoto/print.js:558-578 | the sampling loop leaves the state `Engine.DrawCurve` computes |
| Pads.Pad.DrawDot | webPhoto/print.js:580-584 | the new state is `Engine.DrawDot` of the old |
| Pads.Pad.StrokeBegin | webPhoto/print.js:408-431 | state and outcome are `Engine.Begin` of the old state |
| Pads.Pad.StrokeUpdate | webPhoto/print.js:437-482 | state and outcome are `Engine.Update` of the old state |
| Pads.Pad.UpdateOpen | webPhoto/print.js:446-472 | state and outcome are `Engine.UpdateOpen` of the old state |
| Pads.Pad.StrokeEnd | webPhoto/print.js:490-497 | state and outcome are `Engine.End` of the old state |
| Pads.Pad.MoveUpdate | webPhoto/print.js:262-273 | with throttle 0, an update; otherwise an update exactly when the throttle lets the call run, with the throttle's state as `Call` leaves it |
| Pads.Pad.TimerFires | webPhoto/print.js:265-267 | the trailing run updates the pad with the latest held-back sample |
| Pads.Pad.ReplayPoints | webPhoto/print.js:589-595 | the inner loop of `_fromData` leaves the state `Engine.ReplayPoints` computes, stopping at the first exception |
| Pads.Pad.ReplayGroup | webPhoto/print.js:586-596 | one group replays as `Engine.ReplayGroup` |
| Pads.Pad.FromData | webPhoto/print.js:375-381 | state and outcome are `Engine.FromData` of the old state |

## Left out

- Input-device wiring (mouse, touch and pointer handlers; `on`, `off`, `_handle*Events`): samples arrive already in canvas coordinates. `_createPoint`'s bounding-rectangle offset is therefore absent, and so is the pressure/force fallback.
- Custom event dispatch (`beforeUpdateStroke`, `afterUpdateStroke`, `endStroke`): these events are notifications with no effect on the pad. A cancelling `beginStroke` listener is the input `allowed`.
- Canvas calls (`beginPath`, `arc`, `fill`, `clearRect`, `fillRect`, `fillStyle`): they become the recorded draw events; every event carries its pen colour.
- `toDataURL`, `fromDataURL`, `toSVG` and the image and SVG code: browser APIs and text output, outside the engine.
- `webPhoto/Interface.js` is not part of this model: it is WebSocket, DOM and alert glue.
- `equals` on points: nothing in the engine calls it.
- IEEE doubles: the model computes over exact reals. Two zero chords in `calculateControlPoints` give a NaN control point, which is modelled as the exception the point constructor throws for it. `_strokeWidth` at v = -1 divides `maxWidth` by 0 (see the next line). The point constructor's other NaN checks cannot fail on reals.
- Styles.StrokeWidth: at v = -1 the source divides by zero (an infinite or NaN width); reals have no such value, and the model answers minWidth there. v = -1 needs a filter weight outside [0, 1] (which both the constructor and a stored group accept) or timestamps that run backwards; `Engine.FeedWidthsInRange` assumes neither.
- Styles.StrokeWidth: the bound `w <= maxWidth` also needs `0 <= maxWidth`. With maxWidth = -2, minWidth = -3 and v = 1 the width is max(-1, -3) = -1, which exceeds maxWidth.
- Canvas `arc` throws on a negative radius. A negative `minWidth` or `maxWidth` can reach it (a negative `dotSize` falls back to the middle of the width range), and both the options and stored groups accept such values. The source then stops inside `_drawDot` or `_drawCurve`: the pad is not marked non-empty by that disk, and for a dot `_strokeUpdate` does not record the point. The model draws the disk instead. `Engine.FeedDrawsNoNegativeDisk`, `Raster.DisksNonNegative` and `Styles.DotRadiusNonNegative` show that no radius is negative when 0 <= minWidth <= maxWidth, time runs forward and the filter weight is in [0, 1].
- The pad's options: they are `const` fields of `Pads.Pad`. In the source they are public properties a caller may reassign between strokes; the program never does, and the model does not capture such a reassignment.
- Geometry.ControlPoints: the control points are `Vec` pairs. The zero pressure and the clock reading that the point constructor gives them are never read.
- Pads.Pad.FromData: a single `now` stands for every `Date.now()` that rebuilding zero-time points reads during one replay.
- Pads.Pad.ToData: the source returns the pad's own array, through which a caller could change the data later; the model returns a value.
- Throttling.Throttle: the wrapped call's `this` and its return value `i` are left out, because `_strokeUpdate` returns nothing. The timer is the `pending` flag with its due time; when it goes off is up to the caller of `TimerFires`.
