/**
 * The arithmetic of `SimpleLine.update` (simpleline.js): from the two
 * elements' positions in the container and their anchors, the spans between
 * the anchors, the control points of the cubic curve, the bounding box of the
 * SVG with its margin, and the four points moved into the box's own
 * coordinates.
 *
 * `Math.sqrt` has no counterpart over the reals, so the weight is an input
 * that `IsHalfDistance` ties to the spans.
 */
module Curve {
  import opened Wrappers
  import opened JsMath
  import opened Anchors

  datatype Point = Point(x: real, y: real)

  /** One end of the curve: the end point and its control point, `{x, y, dirx, diry}`. */
  datatype CurveEnd = CurveEnd(x: real, y: real, dirx: real, diry: real)

  /** The SVG box `{x, y, w, h}` in container coordinates. */
  datatype Box = Box(x: real, y: real, w: real, h: real)

  /** What one pass draws: the box, and both curve ends in box coordinates. */
  datatype Geometry = Geometry(bounds: Box, start: CurveEnd, end: CurveEnd)

  /** `Math.min` of four numbers. */
  function Min4(a: real, b: real, c: real, d: real): (m: real)
    ensures m <= a && m <= b && m <= c && m <= d
    ensures m == a || m == b || m == c || m == d
  {
    Min(Min(a, b), Min(c, d))
  }

  /** `Math.max` of four numbers. */
  function Max4(a: real, b: real, c: real, d: real): (m: real)
    ensures m >= a && m >= b && m >= c && m >= d
    ensures m == a || m == b || m == c || m == d
  {
    Max(Max(a, b), Max(c, d))
  }

  /** `Math.max(a, b) - Math.min(a, b)`: the distance between two coordinates. */
  function Span(a: real, b: real): (r: real)
    ensures r >= 0.0
    ensures r == a - b || r == b - a
  {
    Max(a, b) - Min(a, b)
  }

  /** `weight` is `Math.sqrt(h*h + w*w) / 2`: half the straight distance between the anchors. */
  predicate IsHalfDistance(weight: real, w: real, h: real) {
    weight >= 0.0 && 4.0 * weight * weight == w * w + h * h
  }

  /** `Math.sqrt(h*h + w*w) / 2`, with the host's square root. */
  function Weight(w: real, h: real, sqrt: real -> real): real {
    sqrt(h * h + w * w) / 2.0
  }

  /** Where the host's square root is exact, `update`'s weight is half the anchors' distance. */
  lemma WeightIsHalfDistance(sqrt: real -> real, w: real, h: real)
    requires sqrt(h * h + w * w) >= 0.0
    requires sqrt(h * h + w * w) * sqrt(h * h + w * w) == h * h + w * w
    ensures IsHalfDistance(sqrt(h * h + w * w) / 2.0, w, h)
  {
  }

  /** An anchor in container coordinates: the element's position plus the element-local anchor. */
  function AnchorAt(pos: Point, a: AnchorPoint): Point {
    Point(pos.x + a.x, pos.y + a.y)
  }

  /** `cStartPos` / `cEndPos`: the anchor and its control point `anchor + dir × gravity × weight`. */
  function CurveEndAt(pos: Point, a: AnchorPoint, gravity: real, weight: real): CurveEnd {
    var p := AnchorAt(pos, a);
    CurveEnd(p.x, p.y, p.x + a.dirX * gravity * weight, p.y + a.dirY * gravity * weight)
  }

  /**
   * The margin around the curve: five times the stroke when the stroke reads
   * as a number (`!isNaN(stroke)`), 25 otherwise. `strokeAsNumber` is that
   * reading.
   */
  function Margin(strokeAsNumber: Option<real>): real {
    match strokeAsNumber
    case Some(n) => 5.0 * n
    case None => 25.0
  }

  /** `bounds`: the smallest box around the four points, widened by `margin` on every side. */
  function BoundsOf(s: CurveEnd, e: CurveEnd, margin: real): Box {
    var minX := Min4(s.x, e.x, s.dirx, e.dirx);
    var minY := Min4(s.y, e.y, s.diry, e.diry);
    Box(minX - margin, minY - margin,
        Max4(s.x, e.x, s.dirx, e.dirx) - minX + 2.0 * margin,
        Max4(s.y, e.y, s.diry, e.diry) - minY + 2.0 * margin)
  }

  /** A curve end in the box's own coordinates. */
  function ToLocal(c: CurveEnd, b: Box): CurveEnd {
    CurveEnd(c.x - b.x, c.y - b.y, c.dirx - b.x, c.diry - b.y)
  }

  /** The horizontal and vertical spans `w` and `h` between the two anchors. */
  function SpanW(startPos: Point, sa: AnchorPoint, endPos: Point, ea: AnchorPoint): real {
    Span(AnchorAt(startPos, sa).x, AnchorAt(endPos, ea).x)
  }

  function SpanH(startPos: Point, sa: AnchorPoint, endPos: Point, ea: AnchorPoint): real {
    Span(AnchorAt(startPos, sa).y, AnchorAt(endPos, ea).y)
  }

  /**
   * Lines 371-418 of `update`: `ea` is the end anchor after `PullBack`, the
   * positions are the elements' offsets in the container, and `weight` is
   * the square root `IsHalfDistance` describes (the caller supplies it).
   */
  function Layout(startPos: Point, sa: AnchorPoint, endPos: Point, ea: AnchorPoint,
                  gravityStart: real, gravityEnd: real, weight: real, margin: real): Geometry
  {
    var cs := CurveEndAt(startPos, sa, gravityStart, weight);
    var ce := CurveEndAt(endPos, ea, gravityEnd, weight);
    var b := BoundsOf(cs, ce, margin);
    Geometry(b, ToLocal(cs, b), ToLocal(ce, b))
  }

  /** All four coordinates of both curve ends lie in `[lo, hi]` horizontally and `[loY, hiY]` vertically. */
  predicate EndsWithin(s: CurveEnd, e: CurveEnd, lo: real, hi: real, loY: real, hiY: real) {
    && lo <= s.x <= hi && lo <= e.x <= hi && lo <= s.dirx <= hi && lo <= e.dirx <= hi
    && loY <= s.y <= hiY && loY <= e.y <= hiY && loY <= s.diry <= hiY && loY <= e.diry <= hiY
  }

  /** The box holds all four points with at least `margin` to spare on every side. */
  lemma BoundsKeepMargin(s: CurveEnd, e: CurveEnd, margin: real)
    ensures var b := BoundsOf(s, e, margin);
      EndsWithin(s, e, b.x + margin, b.x + b.w - margin, b.y + margin, b.y + b.h - margin)
  {
  }

  /** In box coordinates every point lies in `[margin, w - margin] × [margin, h - margin]`. */
  lemma LocalPointsInsideMargin(s: CurveEnd, e: CurveEnd, margin: real)
    ensures var b := BoundsOf(s, e, margin);
      EndsWithin(ToLocal(s, b), ToLocal(e, b), margin, b.w - margin, margin, b.h - margin)
  {
    BoundsKeepMargin(s, e, margin);
  }

  /**
   * The box is no larger than it needs to be: some point sits exactly
   * `margin` from each of its four sides.
   */
  lemma BoundsAreTight(s: CurveEnd, e: CurveEnd, margin: real)
    ensures var b := BoundsOf(s, e, margin);
            var ls, le := ToLocal(s, b), ToLocal(e, b);
      && (ls.x == margin || le.x == margin || ls.dirx == margin || le.dirx == margin)
      && (ls.y == margin || le.y == margin || ls.diry == margin || le.diry == margin)
      && (ls.x == b.w - margin || le.x == b.w - margin || ls.dirx == b.w - margin || le.dirx == b.w - margin)
      && (ls.y == b.h - margin || le.y == b.h - margin || ls.diry == b.h - margin || le.diry == b.h - margin)
  {
  }

  /** The box is at least twice the margin wide and high. */
  lemma BoundsAtLeastTwoMargins(s: CurveEnd, e: CurveEnd, margin: real)
    ensures BoundsOf(s, e, margin).w >= 2.0 * margin
    ensures BoundsOf(s, e, margin).h >= 2.0 * margin
  {
  }

  /** What `Layout` promises: its box keeps `margin` around all four points, in box coordinates. */
  lemma LayoutInsideMargin(startPos: Point, sa: AnchorPoint, endPos: Point, ea: AnchorPoint,
                           gravityStart: real, gravityEnd: real, weight: real, margin: real)
    ensures var g := Layout(startPos, sa, endPos, ea, gravityStart, gravityEnd, weight, margin);
      EndsWithin(g.start, g.end, margin, g.bounds.w - margin, margin, g.bounds.h - margin)
  {
    LocalPointsInsideMargin(CurveEndAt(startPos, sa, gravityStart, weight),
                            CurveEndAt(endPos, ea, gravityEnd, weight), margin);
  }

  /**
   * Each control point is its anchor pushed `gravity × weight` along the
   * anchor's direction, in box coordinates as in container coordinates.
   */
  lemma ControlPointsFollowDirection(startPos: Point, sa: AnchorPoint, endPos: Point, ea: AnchorPoint,
                                     gravityStart: real, gravityEnd: real, weight: real, margin: real)
    ensures var g := Layout(startPos, sa, endPos, ea, gravityStart, gravityEnd, weight, margin);
      && g.start.dirx - g.start.x == sa.dirX * gravityStart * weight
      && g.start.diry - g.start.y == sa.dirY * gravityStart * weight
      && g.end.dirx - g.end.x == ea.dirX * gravityEnd * weight
      && g.end.diry - g.end.y == ea.dirY * gravityEnd * weight
  {
    var cs := CurveEndAt(startPos, sa, gravityStart, weight);
    var ce := CurveEndAt(endPos, ea, gravityEnd, weight);
    ControlOffset(startPos, sa, gravityStart, weight);
    ControlOffset(endPos, ea, gravityEnd, weight);
    LocalKeepsOffsets(cs, BoundsOf(cs, ce, margin));
    LocalKeepsOffsets(ce, BoundsOf(cs, ce, margin));
  }

  /** A curve end in container coordinates: its control point is `dir × gravity × weight` from its anchor. */
  lemma ControlOffset(pos: Point, a: AnchorPoint, gravity: real, weight: real)
    ensures var c := CurveEndAt(pos, a, gravity, weight);
      && c.x == pos.x + a.x && c.y == pos.y + a.y
      && c.dirx - c.x == a.dirX * gravity * weight
      && c.diry - c.y == a.dirY * gravity * weight
  {
  }

  /** Moving into box coordinates keeps the offset from an end point to its control point. */
  lemma LocalKeepsOffsets(c: CurveEnd, b: Box)
    ensures ToLocal(c, b).dirx - ToLocal(c, b).x == c.dirx - c.x
    ensures ToLocal(c, b).diry - ToLocal(c, b).y == c.diry - c.y
  {
  }

  /** With gravity 0 at both ends the control points sit on the anchors: a straight line. */
  lemma ZeroGravityIsStraight(startPos: Point, sa: AnchorPoint, endPos: Point, ea: AnchorPoint,
                              weight: real, margin: real)
    ensures var g := Layout(startPos, sa, endPos, ea, 0.0, 0.0, weight, margin);
      && g.start.dirx == g.start.x && g.start.diry == g.start.y
      && g.end.dirx == g.end.x && g.end.diry == g.end.y
  {
    ControlPointsFollowDirection(startPos, sa, endPos, ea, 0.0, 0.0, weight, margin);
  }

  /** The end points in box coordinates are as far apart as the anchors in the container. */
  lemma EndsKeepTheirDistance(startPos: Point, sa: AnchorPoint, endPos: Point, ea: AnchorPoint,
                              gravityStart: real, gravityEnd: real, weight: real, margin: real)
    ensures var g := Layout(startPos, sa, endPos, ea, gravityStart, gravityEnd, weight, margin);
      && Span(g.start.x, g.end.x) == SpanW(startPos, sa, endPos, ea)
      && Span(g.start.y, g.end.y) == SpanH(startPos, sa, endPos, ea)
  {
  }

  function Shift(p: Point, dx: real, dy: real): Point {
    Point(p.x + dx, p.y + dy)
  }

  /**
   * Moving both elements by the same offset moves the box by that offset and
   * changes nothing drawn inside it.
   */
  lemma LayoutTranslationInvariant(startPos: Point, sa: AnchorPoint, endPos: Point, ea: AnchorPoint,
                                   gravityStart: real, gravityEnd: real, weight: real, margin: real,
                                   dx: real, dy: real)
    ensures SpanW(Shift(startPos, dx, dy), sa, Shift(endPos, dx, dy), ea) == SpanW(startPos, sa, endPos, ea)
    ensures SpanH(Shift(startPos, dx, dy), sa, Shift(endPos, dx, dy), ea) == SpanH(startPos, sa, endPos, ea)
    ensures var g := Layout(startPos, sa, endPos, ea, gravityStart, gravityEnd, weight, margin);
            var g' := Layout(Shift(startPos, dx, dy), sa, Shift(endPos, dx, dy), ea,
                             gravityStart, gravityEnd, weight, margin);
      && g'.start == g.start && g'.end == g.end
      && g'.bounds == Box(g.bounds.x + dx, g.bounds.y + dy, g.bounds.w, g.bounds.h)
  {
    var cs := CurveEndAt(startPos, sa, gravityStart, weight);
    var ce := CurveEndAt(endPos, ea, gravityEnd, weight);
    CurveEndShift(startPos, sa, gravityStart, weight, dx, dy);
    CurveEndShift(endPos, ea, gravityEnd, weight, dx, dy);
    BoundsShift(cs, ce, margin, dx, dy);
  }

  /** A curve end moved by `(dx, dy)`: both its anchor and its control point. */
  function Moved(c: CurveEnd, dx: real, dy: real): CurveEnd {
    CurveEnd(c.x + dx, c.y + dy, c.dirx + dx, c.diry + dy)
  }

  /** Moving the element moves its curve end by the same offset. */
  lemma CurveEndShift(pos: Point, a: AnchorPoint, gravity: real, weight: real, dx: real, dy: real)
    ensures CurveEndAt(Shift(pos, dx, dy), a, gravity, weight) == Moved(CurveEndAt(pos, a, gravity, weight), dx, dy)
  {
  }

  /** Moving both curve ends moves their box by the same offset and keeps them where they were inside it. */
  lemma BoundsShift(s: CurveEnd, e: CurveEnd, margin: real, dx: real, dy: real)
    ensures var b, b' := BoundsOf(s, e, margin), BoundsOf(Moved(s, dx, dy), Moved(e, dx, dy), margin);
      && b' == Box(b.x + dx, b.y + dy, b.w, b.h)
      && ToLocal(Moved(s, dx, dy), b') == ToLocal(s, b)
      && ToLocal(Moved(e, dx, dy), b') == ToLocal(e, b)
  {
    MinShift(s.x, e.x, s.dirx, e.dirx, dx);
    MaxShift(s.x, e.x, s.dirx, e.dirx, dx);
    MinShift(s.y, e.y, s.diry, e.diry, dy);
    MaxShift(s.y, e.y, s.diry, e.diry, dy);
    var b, b' := BoundsOf(s, e, margin), BoundsOf(Moved(s, dx, dy), Moved(e, dx, dy), margin);
    assert b'.x == b.x + dx && b'.w == b.w;
    assert b'.y == b.y + dy && b'.h == b.h;
  }

  lemma MinShift(a: real, b: real, c: real, d: real, k: real)
    ensures Min4(a + k, b + k, c + k, d + k) == Min4(a, b, c, d) + k
  {
  }

  lemma MaxShift(a: real, b: real, c: real, d: real, k: real)
    ensures Max4(a + k, b + k, c + k, d + k) == Max4(a, b, c, d) + k
  {
  }

  /**
   * The worked example: two 100×50 elements side by side, at x = 0 and
   * x = 500, anchored at the middle of the start's right edge (99, 25) and of
   * the end's left edge (0, 25), the latter pulled back by a 4px stroke to
   * (-6, 25).
   */
  predicate IsExample(startPos: Point, sa: AnchorPoint, endPos: Point, ea: AnchorPoint) {
    && startPos == Point(0.0, 0.0) && sa == AnchorPoint(99.0, 25.0, 1.0, 0.0)
    && endPos == Point(500.0, 0.0) && ea == AnchorPoint(-6.0, 25.0, -1.0, 0.0)
  }

  /** The end points and control points of the worked example, in container coordinates. */
  lemma ExampleCurveEnds(startPos: Point, sa: AnchorPoint, endPos: Point, ea: AnchorPoint)
    requires IsExample(startPos, sa, endPos, ea)
    ensures CurveEndAt(startPos, sa, 1.0, 197.5) == CurveEnd(99.0, 25.0, 296.5, 25.0)
    ensures CurveEndAt(endPos, ea, 1.0, 197.5) == CurveEnd(494.0, 25.0, 296.5, 25.0)
  {
  }

  /** The box of the worked example. */
  lemma ExampleBox(cs: CurveEnd, ce: CurveEnd)
    requires cs == CurveEnd(99.0, 25.0, 296.5, 25.0) && ce == CurveEnd(494.0, 25.0, 296.5, 25.0)
    ensures BoundsOf(cs, ce, 25.0) == Box(74.0, 0.0, 445.0, 50.0)
  {
    assert Min4(cs.x, ce.x, cs.dirx, ce.dirx) == 99.0;
    assert Max4(cs.x, ce.x, cs.dirx, ce.dirx) == 494.0;
  }

  /** The spans of the worked example are 395 and 0, so the weight is 197.5. */
  lemma ExampleSpans(startPos: Point, sa: AnchorPoint, endPos: Point, ea: AnchorPoint)
    requires IsExample(startPos, sa, endPos, ea)
    ensures SpanW(startPos, sa, endPos, ea) == 395.0
    ensures SpanH(startPos, sa, endPos, ea) == 0.0
    ensures IsHalfDistance(197.5, 395.0, 0.0)
  {
  }

  /**
   * The worked example laid out with gravity 1 at both ends and margin 25:
   * the curve runs from (25, 25) to (420, 25) in box coordinates, both
   * control points at x = 222.5, in a 445×50 box at (74, 0).
   */
  lemma ExampleLayout(startPos: Point, sa: AnchorPoint, endPos: Point, ea: AnchorPoint)
    requires IsExample(startPos, sa, endPos, ea)
    ensures Layout(startPos, sa, endPos, ea, 1.0, 1.0, 197.5, 25.0)
            == Geometry(Box(74.0, 0.0, 445.0, 50.0),
                        CurveEnd(25.0, 25.0, 222.5, 25.0),
                        CurveEnd(420.0, 25.0, 222.5, 25.0))
  {
    var cs := CurveEndAt(startPos, sa, 1.0, 197.5);
    var ce := CurveEndAt(endPos, ea, 1.0, 197.5);
    ExampleCurveEnds(startPos, sa, endPos, ea);
    ExampleBox(cs, ce);
    var b := BoundsOf(cs, ce, 25.0);
    LayoutFromParts(startPos, sa, endPos, ea, 1.0, 1.0, 197.5, 25.0, cs, ce, b);
    ExampleLocal(cs, ce, b);
  }

  /** `Layout` assembled from its curve ends and box. */
  lemma LayoutFromParts(startPos: Point, sa: AnchorPoint, endPos: Point, ea: AnchorPoint,
                        gravityStart: real, gravityEnd: real, weight: real, margin: real,
                        cs: CurveEnd, ce: CurveEnd, b: Box)
    requires CurveEndAt(startPos, sa, gravityStart, weight) == cs
    requires CurveEndAt(endPos, ea, gravityEnd, weight) == ce
    requires BoundsOf(cs, ce, margin) == b
    ensures Layout(startPos, sa, endPos, ea, gravityStart, gravityEnd, weight, margin)
            == Geometry(b, ToLocal(cs, b), ToLocal(ce, b))
  {
  }

  /** The worked example's curve ends in box coordinates. */
  lemma ExampleLocal(cs: CurveEnd, ce: CurveEnd, b: Box)
    requires cs == CurveEnd(99.0, 25.0, 296.5, 25.0) && ce == CurveEnd(494.0, 25.0, 296.5, 25.0)
    requires b == Box(74.0, 0.0, 445.0, 50.0)
    ensures ToLocal(cs, b) == CurveEnd(25.0, 25.0, 222.5, 25.0)
    ensures ToLocal(ce, b) == CurveEnd(420.0, 25.0, 222.5, 25.0)
  {
  }

  /** The weight of the worked example, from a host square root that is exact on 395². */
  lemma ExampleWeight(sqrt: real -> real)
    requires sqrt(156025.0) == 395.0
    ensures Weight(395.0, 0.0, sqrt) == 197.5
  {
    assert 0.0 * 0.0 + 395.0 * 395.0 == 156025.0;
  }
}
