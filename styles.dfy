/**
 * The pad's configuration (the constructor's option handling), the per-group
 * style a stroke records and resolves (`_getPointGroupOptions`), and the
 * width rules that depend on a style: `_strokeWidth`, the velocity filter of
 * `_calculateCurveWidths`, the width `_reset` starts from and the radius of
 * `_drawDot`.
 */
module Styles {
  import opened Wrappers
  import opened Geometry

  /** The six drawing options a point group carries. */
  datatype Style = Style(penColor: string, dotSize: real, minWidth: real, maxWidth: real,
                         velocityFilterWeight: real, compositeOperation: string)

  /**
   * A point group's own options as stored in the pad's data. A group built by
   * a live stroke has all six keys; a group passed to `fromData` may lack any.
   */
  datatype StyleOverride = StyleOverride(penColor: Option<string>, dotSize: Option<real>,
                                         minWidth: Option<real>, maxWidth: Option<real>,
                                         velocityFilterWeight: Option<real>,
                                         compositeOperation: Option<string>)

  const NoOverride := StyleOverride(None, None, None, None, None, None)

  /** The options object a live stroke stores: every key present. */
  function Snapshot(s: Style): StyleOverride {
    StyleOverride(Some(s.penColor), Some(s.dotSize), Some(s.minWidth), Some(s.maxWidth),
                  Some(s.velocityFilterWeight), Some(s.compositeOperation))
  }

  function Pick<T>(o: Option<T>, d: T): T {
    if o.Some? then o.value else d
  }

  /**
   * `_getPointGroupOptions(t)`: each key present in `t` wins, every other key
   * comes from the pad's defaults `d`.
   */
  function Resolve(o: StyleOverride, d: Style): (s: Style)
    ensures o.penColor.Some? ==> s.penColor == o.penColor.value
    ensures o.penColor.None? ==> s.penColor == d.penColor
    ensures o.dotSize.Some? ==> s.dotSize == o.dotSize.value
    ensures o.dotSize.None? ==> s.dotSize == d.dotSize
    ensures o.minWidth.Some? ==> s.minWidth == o.minWidth.value
    ensures o.minWidth.None? ==> s.minWidth == d.minWidth
    ensures o.maxWidth.Some? ==> s.maxWidth == o.maxWidth.value
    ensures o.maxWidth.None? ==> s.maxWidth == d.maxWidth
    ensures o.velocityFilterWeight.Some? ==> s.velocityFilterWeight == o.velocityFilterWeight.value
    ensures o.velocityFilterWeight.None? ==> s.velocityFilterWeight == d.velocityFilterWeight
    ensures o.compositeOperation.Some? ==> s.compositeOperation == o.compositeOperation.value
    ensures o.compositeOperation.None? ==> s.compositeOperation == d.compositeOperation
  {
    Style(Pick(o.penColor, d.penColor), Pick(o.dotSize, d.dotSize),
          Pick(o.minWidth, d.minWidth), Pick(o.maxWidth, d.maxWidth),
          Pick(o.velocityFilterWeight, d.velocityFilterWeight),
          Pick(o.compositeOperation, d.compositeOperation))
  }

  /** With no group, or a group without keys, the pad's own options apply. */
  lemma ResolveNoOverride(d: Style)
    ensures Resolve(NoOverride, d) == d
  {
  }

  /**
   * A group recorded by a live stroke keeps the style of its moment: it
   * resolves to the snapshot whatever the pad's defaults are later.
   */
  lemma ResolveSnapshot(s: Style, d: Style)
    ensures Resolve(Snapshot(s), d) == s
  {
  }

  /** Resolving is idempotent: re-resolving a resolved style against the same defaults. */
  lemma ResolveTwice(o: StyleOverride, d: Style)
    ensures Resolve(o, Resolve(o, d)) == Resolve(o, d)
  {
  }

  /** The options passed to the constructor; a missing key is `None`. */
  datatype Options = Options(velocityFilterWeight: Option<real>, minWidth: Option<real>,
                             maxWidth: Option<real>, throttle: Option<int>,
                             minDistance: Option<real>, dotSize: Option<real>,
                             penColor: Option<string>, backgroundColor: Option<string>,
                             compositeOperation: Option<string>)

  /** The pad's configuration after its constructor. */
  datatype Config = Config(velocityFilterWeight: real, minWidth: real, maxWidth: real,
                           throttle: int, minDistance: real, dotSize: real,
                           penColor: string, backgroundColor: string,
                           compositeOperation: string)

  /** `v || d` on a number: 0 is falsy, so it falls back. */
  function OrNumber(o: Option<real>, d: real): real {
    if o.Some? && o.value != 0.0 then o.value else d
  }

  /** `v || d` on a string: the empty string is falsy, so it falls back. */
  function OrString(o: Option<string>, d: string): string {
    if o.Some? && o.value != "" then o.value else d
  }

  /**
   * The constructor's option handling. Seven keys use `||`, so a falsy value
   * (0 or "") gives the default; `throttle` and `minDistance` use `in`, so an
   * explicit 0 is kept.
   */
  function Configure(o: Options): (c: Config)
    ensures c.velocityFilterWeight != 0.0 && c.minWidth != 0.0 && c.maxWidth != 0.0
    ensures c.penColor != "" && c.backgroundColor != "" && c.compositeOperation != ""
    ensures o.throttle.Some? ==> c.throttle == o.throttle.value
    ensures o.minDistance.Some? ==> c.minDistance == o.minDistance.value
    ensures o.minWidth.Some? && o.minWidth.value != 0.0 ==> c.minWidth == o.minWidth.value
    ensures o.maxWidth.Some? && o.maxWidth.value != 0.0 ==> c.maxWidth == o.maxWidth.value
    ensures o.velocityFilterWeight.Some? && o.velocityFilterWeight.value != 0.0 ==>
      c.velocityFilterWeight == o.velocityFilterWeight.value
    ensures o.dotSize.Some? ==> c.dotSize == o.dotSize.value
    ensures o.penColor.Some? && o.penColor.value != "" ==> c.penColor == o.penColor.value
    ensures o.backgroundColor.Some? && o.backgroundColor.value != "" ==> c.backgroundColor == o.backgroundColor.value
    ensures o.compositeOperation.Some? && o.compositeOperation.value != "" ==>
      c.compositeOperation == o.compositeOperation.value
  {
    Config(OrNumber(o.velocityFilterWeight, 0.7), OrNumber(o.minWidth, 0.5),
           OrNumber(o.maxWidth, 2.5), Pick(o.throttle, 16), Pick(o.minDistance, 5.0),
           OrNumber(o.dotSize, 0.0), OrString(o.penColor, "black"),
           OrString(o.backgroundColor, "rgba(0,0,0,0)"), OrString(o.compositeOperation, "source-over"))
  }

  /** A pad built without options. */
  lemma ConfigureDefaults()
    ensures Configure(Options(None, None, None, None, None, None, None, None, None)) ==
      Config(0.7, 0.5, 2.5, 16, 5.0, 0.0, "black", "rgba(0,0,0,0)", "source-over")
  {
  }

  /**
   * An explicit 0 is dropped for `minWidth` but kept for `minDistance` and
   * `throttle`: the two operators the constructor mixes.
   */
  lemma ConfigureZeroes(o: Options)
    requires o.minWidth == Some(0.0) && o.minDistance == Some(0.0) && o.throttle == Some(0)
    ensures Configure(o).minWidth == 0.5
    ensures Configure(o).minDistance == 0.0 && Configure(o).throttle == 0
  {
  }

  /**
   * `_getPointGroupOptions()` with no argument: the pad's own six style
   * options; `throttle`, `minDistance` and `backgroundColor` are not part of
   * a group's style.
   */
  function Defaults(c: Config): (s: Style)
    ensures s.penColor == c.penColor && s.dotSize == c.dotSize && s.compositeOperation == c.compositeOperation
    ensures s.minWidth == c.minWidth && s.maxWidth == c.maxWidth && s.velocityFilterWeight == c.velocityFilterWeight
  {
    Style(c.penColor, c.dotSize, c.minWidth, c.maxWidth, c.velocityFilterWeight, c.compositeOperation)
  }

  /** The width `_reset` starts a stroke with: the middle of the width range. */
  function ResetWidth(s: Style): (w: real)
    ensures s.minWidth <= s.maxWidth ==> s.minWidth <= w <= s.maxWidth
  {
    (s.minWidth + s.maxWidth) / 2.0
  }

  /**
   * `_drawDot`'s radius: `dotSize` when positive, else the middle of the
   * width range.
   */
  function DotRadius(s: Style): (r: real)
    ensures 0.0 < s.dotSize ==> r == s.dotSize
    ensures s.dotSize <= 0.0 ==> r == ResetWidth(s)
  {
    if s.dotSize > 0.0 then s.dotSize else (s.minWidth + s.maxWidth) / 2.0
  }

  /**
   * Without a dot size, a dot and the first curve after `_reset` start from
   * the same width, and both lie in the width range.
   */
  lemma DotMatchesFirstWidth(s: Style)
    requires s.dotSize <= 0.0 && s.minWidth <= s.maxWidth
    ensures DotRadius(s) == ResetWidth(s)
    ensures s.minWidth <= DotRadius(s) <= s.maxWidth
  {
  }

  /**
   * With non-negative widths the dot's radius is never negative, so the
   * canvas accepts the `arc` of `_drawDot`.
   */
  lemma DotRadiusNonNegative(s: Style)
    requires 0.0 <= s.minWidth && 0.0 <= s.maxWidth
    ensures 0.0 <= DotRadius(s)
  {
  }

  /**
   * The filtered velocity of `_calculateCurveWidths`:
   * `w * instant + (1 - w) * last`.
   */
  function BlendedVelocity(w: real, instant: real, last: real): (v: real)
    ensures w == 1.0 ==> v == instant
    ensures w == 0.0 ==> v == last
    ensures v == Lerp(last, instant, w)
  {
    w * instant + (1.0 - w) * last
  }

  /**
   * With a weight in [0, 1], the filtered velocity lies between the instant
   * and the previous velocity; so it stays non-negative when both are.
   */
  lemma BlendedVelocityBetween(w: real, instant: real, last: real)
    requires 0.0 <= w <= 1.0
    ensures Min(instant, last) <= BlendedVelocity(w, instant, last) <= Max(instant, last)
  {
    LerpBetween(last, instant, w, Min(instant, last), Max(instant, last));
  }

  /**
   * `_strokeWidth(v)`: `max(maxWidth / (v + 1), minWidth)`.
   *
   * At exactly v = -1 the source divides by zero and gets an infinite or NaN
   * quotient; reals have neither, and the model answers `minWidth` there.
   */
  function StrokeWidth(v: real, s: Style): (w: real)
    ensures s.minWidth <= w
    ensures v + 1.0 != 0.0 ==> w == Max(s.maxWidth / (v + 1.0), s.minWidth)
    ensures 0.0 <= v && 0.0 <= s.maxWidth && s.minWidth <= s.maxWidth ==> w <= s.maxWidth
  {
    if v + 1.0 == 0.0 then s.minWidth
    else
      if v >= 0.0 then QuotientBelow(s.maxWidth, v + 1.0); Max(s.maxWidth / (v + 1.0), s.minWidth)
      else Max(s.maxWidth / (v + 1.0), s.minWidth)
  }

  lemma QuotientBelow(a: real, d: real)
    requires 1.0 <= d
    ensures 0.0 <= a ==> a / d <= a
    ensures a < 0.0 ==> a <= a / d
  {
    var q := a / d;
    assert q * d == a;
    if 0.0 <= a {
      assert 0.0 <= q;
      assert q * (d - 1.0) >= 0.0;
    } else {
      assert q < 0.0;
      assert q * (d - 1.0) <= 0.0;
    }
  }

  /** A faster pen never draws a wider line (for a non-negative maximum width). */
  lemma StrokeWidthMonotone(v1: real, v2: real, s: Style)
    requires -1.0 < v1 <= v2 && 0.0 <= s.maxWidth
    ensures StrokeWidth(v2, s) <= StrokeWidth(v1, s)
  {
    QuotientMonotone(s.maxWidth, v1 + 1.0, v2 + 1.0);
  }

  lemma QuotientMonotone(a: real, d1: real, d2: real)
    requires 0.0 <= a && 0.0 < d1 <= d2
    ensures a / d2 <= a / d1
  {
  }
}
