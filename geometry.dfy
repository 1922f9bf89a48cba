/**
 * Points and the two pure transforms the gesture handlers apply to them:
 * scaling raw touch coordinates by the device pixel ratio, and the
 * exponential-ease smoothing step of the move handler.
 * Coordinates are `real`: rounding of JavaScript numbers is not modelled.
 */
module Geometry {

  /** A recorded canvas point. */
  datatype Point = Point(x: real, y: real)

  /** The coordinates a touch event carries (`locationX`, `locationY`). */
  datatype TouchEvent = TouchEvent(locationX: real, locationY: real)

  /** `v` lies on the closed interval between `a` and `b`, in either order. */
  predicate Between(a: real, v: real, b: real) {
    (a <= v <= b) || (b <= v <= a)
  }

  /**
   * Converts a touch event to canvas pixels by the device pixel ratio
   * `scale`: a ratio of 1 leaves the coordinates as they are, and a point
   * with equal coordinates keeps them equal, as both are scaled alike.
   */
  function Scaled(ev: TouchEvent, scale: real): (r: Point)
    ensures scale == 1.0 ==> r == Point(ev.locationX, ev.locationY)
    ensures ev.locationX == ev.locationY ==> r.x == r.y
  {
    Point(ev.locationX * scale, ev.locationY * scale)
  }

  /**
   * Both coordinates are multiplied by the same factor: the scaled point
   * stays on the line through the origin and the raw point, a positive
   * factor (a pixel ratio) keeps the sign of each coordinate, so the point
   * stays on the same ray, and a non-zero factor can be divided back out.
   */
  lemma ScaledSameFactor(ev: TouchEvent, scale: real)
    ensures Scaled(ev, scale).x * ev.locationY == Scaled(ev, scale).y * ev.locationX
    ensures scale > 0.0 ==> (Scaled(ev, scale).x >= 0.0 <==> ev.locationX >= 0.0)
    ensures scale > 0.0 ==> (Scaled(ev, scale).y >= 0.0 <==> ev.locationY >= 0.0)
    ensures scale != 0.0 ==> Scaled(ev, scale).x / scale == ev.locationX && Scaled(ev, scale).y / scale == ev.locationY
  {
  }

  /** With `0 <= t <= 1`, `a + t * (b - a)` lies between `a` and `b`. */
  lemma EaseStaysBetween(a: real, b: real, t: real)
    requires 0.0 <= t <= 1.0
    ensures Between(a, a + t * (b - a), b)
  {
  }

  /**
   * One smoothing step: move from `last` the fraction `ease` of the way
   * towards the pointer `p`. An ease of 0 stays at `last`, an ease of 1
   * jumps to `p`, and a pointer already at `last` stays there.
   */
  function Eased(last: Point, p: Point, ease: real): (r: Point)
    ensures ease == 0.0 ==> r == last
    ensures ease == 1.0 ==> r == p
    ensures last == p ==> r == p
  {
    Point(last.x + ease * (p.x - last.x), last.y + ease * (p.y - last.y))
  }

  /** The gap still left to the pointer is the old gap scaled by `1 - ease`, on both axes alike. */
  lemma EasedGap(last: Point, p: Point, ease: real)
    ensures p.x - Eased(last, p, ease).x == (1.0 - ease) * (p.x - last.x)
    ensures p.y - Eased(last, p, ease).y == (1.0 - ease) * (p.y - last.y)
  {
  }

  /** For `ease` in [0, 1] the smoothed point lies on the segment from `last` to `p` (within its bounding box). */
  lemma EasedOnSegment(last: Point, p: Point, ease: real)
    requires 0.0 <= ease <= 1.0
    ensures Between(last.x, Eased(last, p, ease).x, p.x)
    ensures Between(last.y, Eased(last, p, ease).y, p.y)
  {
    EaseStaysBetween(last.x, p.x, ease);
    EaseStaysBetween(last.y, p.y, ease);
  }

  /** The component's ease of 0.3 moves only 0.3 of the way: from (0,0) towards (10,0) it records (3,0). */
  lemma DefaultEaseStep()
    ensures Eased(Point(0.0, 0.0), Point(10.0, 0.0), 0.3) == Point(3.0, 0.0)
  {
  }
}
