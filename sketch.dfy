/**
 * The stroke bookkeeping of the Sketch component: the current stroke's
 * points, the strokes already moved into `lines`, the graphics object of the
 * current stroke, the last recorded point and the time of the last accepted
 * move. Whether the renderer exists is a boolean; the drawn path of a
 * graphics object is its command sequence.
 */
module Sketch {
  import opened Wrappers
  import opened Geometry
  import opened Path

  /** An entry of `lines`: a graphics object with the points it was given and the path drawn on it. */
  datatype Stroke = Stroke(points: seq<Point>, path: seq<Command>)

  /**
   * What a graphics object shows for its points: nothing while it holds only
   * the start point (starting a line does not draw), and the full rebuilt
   * path once a point has been appended.
   */
  ghost predicate Drawn(points: seq<Point>, path: seq<Command>, style: Style) {
    |points| >= 1 && path == (if |points| == 1 then [] else Trace(points, style))
  }

  class Sketch {
    /** `PixelRatio.get()`, read once. */
    const scale: real
    /** The style props; the model fixes them for the component's lifetime. */
    const props: StrokeProps
    /** Fraction of the way towards the pointer each accepted move goes. */
    const ease: real
    /** Minimum time, in milliseconds, between two accepted moves. */
    const delay: int

    /** Whether the renderer has been created. */
    var ready: bool
    var lines: seq<Stroke>
    var points: seq<Point>
    /** The current stroke's graphics object, as the path drawn on it; `None` before the first start. */
    var graphics: Option<seq<Command>>
    var lastPoint: Option<Point>
    var lastTime: Option<int>

    /** The `lineStyle` arguments every rebuild uses. */
    function LineStyle(): Style {
      ResolveStyle(props)
    }

    /**
     * The bookkeeping invariant: every stroke in `lines` shows its points;
     * with no graphics object nothing has been recorded; with one, the
     * renderer exists, the drawn path matches the current points and
     * `lastPoint` is the last of them.
     */
    ghost predicate Valid()
      reads this
    {
      && (forall k :: 0 <= k < |lines| ==> Drawn(lines[k].points, lines[k].path, LineStyle()))
      && (graphics.None? ==> points == [] && lastPoint.None? && lastTime.None?)
      && (graphics.Some? ==>
            && ready
            && lastTime.Some?
            && Drawn(points, graphics.value, LineStyle())
            && lastPoint == Some(points[|points| - 1]))
    }

    constructor (scale: real, props: StrokeProps)
      ensures Valid()
      ensures this.scale == scale && this.props == props
      ensures ease == 0.3 && delay == 10
      ensures !ready && lines == [] && points == []
      ensures graphics == None && lastPoint == None && lastTime == None
    {
      this.scale := scale;
      this.props := props;
      ease := 0.3;
      delay := 10;
      ready := false;
      lines := [];
      points := [];
      graphics := None;
      lastPoint := None;
      lastTime := None;
    }

    /** The renderer becomes available; no stroke state changes. */
    method OnContextCreate()
      requires Valid()
      modifies this`ready
      ensures Valid() && ready
    {
      ready := true;
    }

    /**
     * Records `point`. Without a renderer, or when appending with no current
     * stroke, nothing changes. Starting a line moves the current stroke (if
     * any) into `lines` and begins a new one at `point` with `lastTime` 0.
     * Appending adds `point` to the current stroke and redraws its path.
     */
    method DrawLine(point: Point, newLine: bool)
      requires Valid()
      modifies this`lines, this`points, this`graphics, this`lastPoint, this`lastTime
      ensures Valid()
      ensures !old(ready) || (!newLine && old(graphics).None?) ==> unchanged(this)
      ensures old(ready) && newLine ==>
                && lines == (if old(graphics).Some? then old(lines) + [Stroke(old(points), old(graphics).value)] else old(lines))
                && points == [point]
                && graphics == Some([])
                && lastPoint == Some(point)
                && lastTime == Some(0)
      ensures old(ready) && !newLine && old(graphics).Some? ==>
                && lines == old(lines)
                && points == old(points) + [point]
                && graphics == Some(Trace(points, LineStyle()))
                && lastPoint == Some(point)
                && lastTime == old(lastTime)
    {
      if !ready || (!newLine && graphics.None?) {
        return;
      }
      if newLine {
        lastPoint := Some(point);
        if graphics.Some? {
          lines := lines + [Stroke(points, graphics.value)];
        }
        graphics := Some([]);
        points := [point];
        lastTime := Some(0);
        return;
      }
      lastPoint := Some(point);
      points := points + [point];
      var path := RebuildPath(points, LineStyle());
      graphics := Some(path);
    }

    /** Gesture start: begins a new line at the scaled touch point. */
    method OnGrant(ev: TouchEvent)
      requires Valid()
      modifies this`lines, this`points, this`graphics, this`lastPoint, this`lastTime
      ensures Valid()
      ensures !old(ready) ==> unchanged(this)
      ensures old(ready) ==>
                && lines == (if old(graphics).Some? then old(lines) + [Stroke(old(points), old(graphics).value)] else old(lines))
                && points == [Scaled(ev, scale)]
                && graphics == Some([])
                && lastPoint == Some(Scaled(ev, scale))
                && lastTime == Some(0)
    {
      DrawLine(Scaled(ev, scale), true);
    }

    /**
     * Gesture move at clock time `now`. A move less than `delay` after the
     * last accepted one changes nothing. Otherwise `lastTime` becomes `now`
     * and the point `ease` of the way from `lastPoint` to the scaled touch
     * point is appended to the current stroke.
     */
    method OnMove(ev: TouchEvent, now: int)
      requires Valid() && lastPoint.Some?
      modifies this`lines, this`points, this`graphics, this`lastPoint, this`lastTime
      ensures Valid()
      ensures now - old(lastTime).value < delay ==> unchanged(this)
      ensures now - old(lastTime).value >= delay ==>
                && lines == old(lines)
                && points == old(points) + [Eased(old(lastPoint).value, Scaled(ev, scale), ease)]
                && graphics == Some(Trace(points, LineStyle()))
                && lastPoint == Some(Eased(old(lastPoint).value, Scaled(ev, scale), ease))
                && lastTime == Some(now)
    {
      var point := Scaled(ev, scale);
      var delta := now - lastTime.value;
      if delta < delay {
        return;
      }
      lastTime := Some(now);
      var last := lastPoint.value;
      DrawLine(Eased(last, point, ease), false);
    }

    /**
     * Gesture release or termination: appends the exact scaled end point,
     * with neither throttle nor smoothing. The stroke is not moved into
     * `lines`; that happens only when the next line starts.
     */
    method OnEnd(ev: TouchEvent)
      requires Valid()
      modifies this`lines, this`points, this`graphics, this`lastPoint, this`lastTime
      ensures Valid()
      ensures lines == old(lines) && lastTime == old(lastTime)
      ensures !old(ready) || old(graphics).None? ==> unchanged(this)
      ensures old(ready) && old(graphics).Some? ==>
                && points == old(points) + [Scaled(ev, scale)]
                && graphics == Some(Trace(points, LineStyle()))
                && lastPoint == Some(Scaled(ev, scale))
    {
      DrawLine(Scaled(ev, scale), false);
    }
  }

  /**
   * A start at (0,0), moves to (5,5) at clock times `t0` and `t0 + 5` and an
   * end at (10,10), on a device with pixel ratio 2. The first move is
   * accepted, as the start reset `lastTime` to 0, and records (3,3), 0.3 of
   * the way to the scaled pointer (10,10); the second falls inside the 10 ms
   * window and is dropped; the end point is recorded exactly as (20,20); and
   * the stroke is not moved into `lines`.
   */
  method TapStroke(t0: int) returns (completed: seq<Stroke>, current: seq<Point>)
    requires t0 >= 10
    ensures completed == []
    ensures current == [Point(0.0, 0.0), Point(3.0, 3.0), Point(20.0, 20.0)]
  {
    var sketch := new Sketch(2.0, StrokeProps(None, None, None));
    sketch.OnContextCreate();
    sketch.OnGrant(TouchEvent(0.0, 0.0));
    ghost var start := sketch.points[0];
    assert start == Point(0.0, 0.0);
    ghost var pointer := Scaled(TouchEvent(5.0, 5.0), 2.0);
    assert pointer == Point(10.0, 10.0);
    ghost var smoothed := Eased(start, pointer, 0.3);
    assert smoothed == Point(3.0, 3.0);
    sketch.OnMove(TouchEvent(5.0, 5.0), t0);
    assert sketch.points == [start, smoothed];
    sketch.OnMove(TouchEvent(5.0, 5.0), t0 + 5);
    sketch.OnEnd(TouchEvent(10.0, 10.0));
    completed, current := sketch.lines, sketch.points;
  }

  /**
   * Two strokes with default props: start at `a`, move to `b` at any time
   * `now >= 10` (the first move after a start is always accepted, since the
   * start reset `lastTime` to 0), then start again at `c`. The move records
   * the point 0.3 of the way from the start to `b`, and the second start moves
   * the first stroke into `lines` with its two points and its drawn path.
   */
  method TwoStrokes(scale: real, a: TouchEvent, b: TouchEvent, c: TouchEvent, now: int)
    returns (completed: seq<Stroke>, current: seq<Point>)
    requires now >= 10
    ensures var p0 := Scaled(a, scale);
            var p1 := Eased(p0, Scaled(b, scale), 0.3);
            completed == [Stroke([p0, p1], [MoveTo(Style(10.0, Hex(0), 1.0), p0), LineTo(p1)])]
    ensures current == [Scaled(c, scale)]
  {
    var sketch := new Sketch(scale, StrokeProps(None, None, None));
    sketch.OnContextCreate();
    sketch.OnGrant(a);
    ghost var p0 := Scaled(a, scale);
    ghost var p1 := Eased(p0, Scaled(b, scale), 0.3);
    sketch.OnMove(b, now);
    assert sketch.points == [p0, p1];
    var style := sketch.LineStyle();
    assert style == Style(10.0, Hex(0), 1.0);
    ghost var drawn := Trace(sketch.points, style);
    TraceAt(sketch.points, style, 0);
    TraceAt(sketch.points, style, 1);
    assert drawn == [MoveTo(style, p0), LineTo(p1)];
    assert sketch.graphics == Some(drawn);
    sketch.OnGrant(c);
    completed, current := sketch.lines, sketch.points;
  }
}
