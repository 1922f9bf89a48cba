/**
 * The stroke style and the path the renderer is asked to draw for the
 * current stroke. The graphics calls (`lineStyle`, `moveTo`, `lineTo`) are
 * recorded as an abstract command sequence.
 */
module Path {
  import opened Wrappers
  import opened Geometry

  /** A `strokeColor` prop: a number such as 0xff0000 or a colour string. */
  datatype Color = Hex(n: int) | Named(name: string)

  /** The three style props as given; `None` is a prop that was not passed. */
  datatype StrokeProps = StrokeProps(strokeWidth: Option<real>, strokeColor: Option<Color>, strokeAlpha: Option<real>)

  /** The arguments of one `lineStyle` call. */
  datatype Style = Style(width: real, color: Color, alpha: real)

  const DEFAULT_WIDTH: real := 10.0
  const DEFAULT_COLOR: Color := Hex(0x000000)
  const DEFAULT_ALPHA: real := 1.0

  /** JavaScript truthiness of a numeric prop (NaN is not modelled). */
  predicate NumberTruthy(v: Option<real>) {
    v.Some? && v.value != 0.0
  }

  /** JavaScript truthiness of a colour prop: 0 and "" are falsy. */
  predicate ColorTruthy(c: Option<Color>) {
    match c
    case None => false
    case Some(Hex(n)) => n != 0
    case Some(Named(name)) => name != ""
  }

  /**
   * The style each rebuild uses: `prop || default` for each of the three
   * props. A missing prop and a falsy one (width 0, alpha 0, colour 0 or "")
   * both fall back to the default; a truthy prop is used as given.
   */
  function ResolveStyle(props: StrokeProps): (s: Style)
    ensures NumberTruthy(props.strokeWidth) ==> s.width == props.strokeWidth.value
    ensures !NumberTruthy(props.strokeWidth) ==> s.width == DEFAULT_WIDTH
    ensures ColorTruthy(props.strokeColor) ==> s.color == props.strokeColor.value
    ensures !ColorTruthy(props.strokeColor) ==> s.color == DEFAULT_COLOR
    ensures NumberTruthy(props.strokeAlpha) ==> s.alpha == props.strokeAlpha.value
    ensures !NumberTruthy(props.strokeAlpha) ==> s.alpha == DEFAULT_ALPHA
    ensures s.width != 0.0 && s.alpha != 0.0
  {
    Style(
      if NumberTruthy(props.strokeWidth) then props.strokeWidth.value else DEFAULT_WIDTH,
      if ColorTruthy(props.strokeColor) then props.strokeColor.value else DEFAULT_COLOR,
      if NumberTruthy(props.strokeAlpha) then props.strokeAlpha.value else DEFAULT_ALPHA)
  }

  /** The props that pass a style through unchanged. */
  function AsProps(s: Style): StrokeProps {
    StrokeProps(Some(s.width), Some(s.color), Some(s.alpha))
  }

  /**
   * Resolving is idempotent: feeding a resolved style back in as props
   * yields the same style (the black fallback 0x000000 is falsy itself and
   * falls back to itself).
   */
  lemma ResolveStyleIdempotent(props: StrokeProps)
    ensures ResolveStyle(AsProps(ResolveStyle(props))) == ResolveStyle(props)
  {
    var s := ResolveStyle(props);
    if !ColorTruthy(AsProps(s).strokeColor) {
      assert s.color == Hex(0);
    }
  }

  /**
   * An explicit width of 0 or alpha of 0 does not draw an invisible line:
   * `||` replaces it by the default.
   */
  lemma ZeroPropsFallBack(color: Option<Color>)
    ensures ResolveStyle(StrokeProps(Some(0.0), color, Some(0.0))).width == DEFAULT_WIDTH
    ensures ResolveStyle(StrokeProps(Some(0.0), color, Some(0.0))).alpha == DEFAULT_ALPHA
    ensures ResolveStyle(StrokeProps(Some(0.0), Some(Hex(0)), Some(0.0))) == Style(10.0, Hex(0), 1.0)
  {
  }

  /**
   * One drawing call. `MoveTo` carries the `lineStyle` applied just before
   * it; `LineTo` draws a straight segment in the current style.
   */
  datatype Command = MoveTo(style: Style, to: Point) | LineTo(to: Point)

  /** The call the rebuild loop issues for the point at index `i`. */
  function CommandAt(i: nat, p: Point, style: Style): Command {
    if i == 0 then MoveTo(style, p) else LineTo(p)
  }

  /** The path drawn for `points`, built one point at a time as the loop does. */
  function Trace(points: seq<Point>, style: Style): (path: seq<Command>)
    ensures |path| == |points|
    decreases |points|
  {
    if points == [] then []
    else
      var n := |points| - 1;
      Trace(points[..n], style) + [CommandAt(n, points[n], style)]
  }

  /** The points a path visits, in order. */
  function PointsOf(path: seq<Command>): seq<Point> {
    seq(|path|, i requires 0 <= i < |path| => path[i].to)
  }

  /** How many commands carry a `lineStyle`. */
  function StyleCount(path: seq<Command>): nat {
    if path == [] then 0
    else StyleCount(path[..|path| - 1]) + (if path[|path| - 1].MoveTo? then 1 else 0)
  }

  /** Command `i` of the path is `moveTo(points[0])` for `i == 0` and `lineTo(points[i])` after. */
  lemma {:induction false} TraceAt(points: seq<Point>, style: Style, i: nat)
    requires i < |points|
    ensures Trace(points, style)[i] == CommandAt(i, points[i], style)
  {
    var n := |points| - 1;
    if i < n {
      TraceAt(points[..n], style, i);
    }
  }

  /** The path is determined by the points alone: reading the points back gives them unchanged. */
  lemma TracePoints(points: seq<Point>, style: Style)
    ensures PointsOf(Trace(points, style)) == points
  {
    forall i | 0 <= i < |points|
      ensures PointsOf(Trace(points, style))[i] == points[i]
    {
      TraceAt(points, style, i);
    }
  }

  /** A non-empty path starts with the only styled command: the style is applied once, at index 0. */
  lemma {:induction false} TraceStyledOnce(points: seq<Point>, style: Style)
    requires points != []
    ensures Trace(points, style)[0] == MoveTo(style, points[0])
    ensures StyleCount(Trace(points, style)) == 1
  {
    TraceAt(points, style, 0);
    var n := |points| - 1;
    if n > 0 {
      TraceStyledOnce(points[..n], style);
      assert Trace(points, style)[..n] == Trace(points[..n], style);
    }
  }

  /**
   * The rebuild loop: after `clear`, one `lineStyle` and `moveTo` for the
   * first point, then one `lineTo` for each later point.
   */
  method RebuildPath(points: seq<Point>, style: Style) returns (path: seq<Command>)
    ensures path == Trace(points, style)
  {
    path := [];
    for i := 0 to |points|
      invariant path == Trace(points[..i], style)
    {
      assert points[..i + 1][..i] == points[..i];
      if i == 0 {
        path := path + [MoveTo(style, points[i])];
      } else {
        path := path + [LineTo(points[i])];
      }
    }
    assert points[..|points|] == points;
  }
}
