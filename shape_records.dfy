/** What the shape builders of src/ts/core/pixi/wrapper.ts and
    src/ts/core/shapes.ts make of a new Graphics object, as values: the
    style guard, the rotate-about-a-point setup, and the drawing calls of
    each shape with its vertices in order. Both builder files are proved
    against these functions; they differ only in the `isClosed` flag. */
module ShapeRecords {
  import opened Common
  import opened Geometry
  import opened Primitives
  import opened Pixi

  // ---------------------------------------------------------------------
  // Shared setup

  /** A string argument is truthy when it is defined and not empty. */
  predicate Truthy(s: Option<string>)
  {
    s.Some? && s.value != ""
  }

  /** A destructuring default: the value when given, `d` when undefined. */
  function Default<T>(o: Option<T>, d: T): T
  {
    if o.Some? then o.value else d
  }

  /** The optional parameters every builder takes, with their defaults
      borderThickness = 0, borderColor = "" and angle = 0. */
  datatype ShapeOptions = ShapeOptions(borderThickness: Option<real>, borderColor: Option<string>, angle: Option<real>)

  /** The calls `applyStyleTo` makes: a line style for a positive border
      thickness, then a fill for a truthy fill colour. */
  function StyleCalls(fillColor: Option<string>, borderThickness: real, borderColor: string): seq<DrawCall>
  {
    (if borderThickness > 0.0 then [LineStyle(borderThickness, Css(borderColor))] else [])
      + (if Truthy(fillColor) then [BeginFill(Some(Css(fillColor.value)))] else [])
  }

  /** `applyRotationTo`: pivot and position both at (x, y), rotation
      degrees2radians(angle). */
  function Rotated(g: GraphicsRecord, x: real, y: real, angle: real): GraphicsRecord
  {
    g.(pivot := Point(x, y), position := Point(x, y), rotation := DegreesToRadians(angle))
  }

  /** `createShapeGraphics`: a new Graphics object with its name, the
      `isClosed` flag when the builder sets one, the rotation when the
      angle is non-zero, and the style calls. */
  function ShapeGraphics(name: string, x: real, y: real, angle: real, fillColor: Option<string>,
                         borderThickness: real, borderColor: string, isClosed: Option<bool>): GraphicsRecord
  {
    var g := NewGraphics.(name := Some(name), isClosed := isClosed);
    var g' := if angle != 0.0 then Rotated(g, x, y, angle) else g;
    g'.(calls := StyleCalls(fillColor, borderThickness, borderColor))
  }

  /** The setup with a builder's optional parameters defaulted. */
  function Setup(name: string, x: real, y: real, fillColor: Option<string>, opts: ShapeOptions,
                 isClosed: Option<bool>): GraphicsRecord
  {
    ShapeGraphics(name, x, y, Default(opts.angle, 0.0), fillColor,
                  Default(opts.borderThickness, 0.0), Default(opts.borderColor, ""), isClosed)
  }

  /** The transform PIXI applies to a Graphics object the builders made:
      they never set its scale, which stays 1. */
  function TransformOf(g: GraphicsRecord): Transform
  {
    Transform(g.position, g.pivot, Point(1.0, 1.0), g.rotation)
  }

  /** The style guard: a line style exactly when the border thickness is
      positive, a fill exactly when the fill colour is truthy, the line
      style first, and nothing else. */
  lemma StyleGuard(fillColor: Option<string>, borderThickness: real, borderColor: string)
    ensures var r := StyleCalls(fillColor, borderThickness, borderColor);
      && |r| <= 2
      && ((exists c <- r :: c.LineStyle?) <==> borderThickness > 0.0)
      && ((exists c <- r :: c.BeginFill?) <==> Truthy(fillColor))
      && (forall c <- r :: c.LineStyle? ==> c == LineStyle(borderThickness, Css(borderColor)))
      && (forall c <- r :: c.BeginFill? ==> c == BeginFill(Some(Css(fillColor.value))))
      && (|r| == 2 ==> r[0].LineStyle? && r[1].BeginFill?)
  {
    var r := StyleCalls(fillColor, borderThickness, borderColor);
    if borderThickness > 0.0 {
      assert r[0] in r;
    }
    if Truthy(fillColor) {
      assert r[|r| - 1] in r;
    }
  }

  /** The setup of `createShapeGraphics`: the name and the `isClosed` flag
      as given; for a non-zero angle pivot and position at (x, y) and the
      angle converted to radians; for a zero angle the transform of a new
      object; and the style calls as the guard allows. */
  lemma ShapeGraphicsSetup(name: string, x: real, y: real, angle: real, fillColor: Option<string>,
                           borderThickness: real, borderColor: string, isClosed: Option<bool>)
    ensures var g := ShapeGraphics(name, x, y, angle, fillColor, borderThickness, borderColor, isClosed);
      && g.name == Some(name) && g.isClosed == isClosed
      && (angle != 0.0 ==> g.pivot == Point(x, y) && g.position == Point(x, y) && g.rotation == DegreesToRadians(angle))
      && (angle == 0.0 ==> TransformOf(g) == TransformOf(NewGraphics))
      && g.calls == StyleCalls(fillColor, borderThickness, borderColor)
  {
  }

  /** A rotated shape turns about its own anchor (x, y): whatever the
      rotation, PIXI leaves that point where it is. */
  lemma RotatesAboutAnchor(trig: Angle -> Rotation, name: string, x: real, y: real, angle: real,
                           fillColor: Option<string>, borderThickness: real, borderColor: string,
                           isClosed: Option<bool>)
    requires angle != 0.0
    ensures var g := ShapeGraphics(name, x, y, angle, fillColor, borderThickness, borderColor, isClosed);
      PixiLocalToParent(trig, TransformOf(g), Point(x, y)) == Point(x, y)
  {
  }

  /** An unrotated shape is drawn where its coordinates say, provided the
      rotation of a new object (0 radians) is the identity. */
  lemma UnrotatedStaysPut(trig: Angle -> Rotation, name: string, x: real, y: real,
                          fillColor: Option<string>, borderThickness: real, borderColor: string,
                          isClosed: Option<bool>, p: Point)
    requires trig(Radians(0.0)) == Rotation(1.0, 0.0)
    ensures var g := ShapeGraphics(name, x, y, 0.0, fillColor, borderThickness, borderColor, isClosed);
      PixiLocalToParent(trig, TransformOf(g), p) == p
  {
  }

  // ---------------------------------------------------------------------
  // Shapes

  function RectangleRecord(name: string, x: real, y: real, width: real, height: real,
                           fillColor: Option<string>, opts: ShapeOptions, isClosed: Option<bool>): GraphicsRecord
  {
    var g := Setup(name, x, y, fillColor, opts, isClosed);
    g.(calls := g.calls + [DrawRect(x, y, width, height)])
  }

  /** With the optional parameters left out, a rectangle is one drawRect,
      after a fill for a truthy colour, with no line style and no
      rotation. */
  lemma RectangleDefaults(name: string, x: real, y: real, width: real, height: real,
                          fillColor: Option<string>, isClosed: Option<bool>)
    ensures var g := RectangleRecord(name, x, y, width, height, fillColor, ShapeOptions(None, None, None), isClosed);
      && g.calls == (if Truthy(fillColor) then [BeginFill(Some(Css(fillColor.value)))] else []) + [DrawRect(x, y, width, height)]
      && TransformOf(g) == TransformOf(NewGraphics)
  {
  }

  /** The two angles of the semicircle's arc: degrees2radians(90), and
      that plus Math.PI. */
  const ArcStart := DegreesToRadians(90.0)
  const ArcEnd := PlusPi(DegreesToRadians(90.0))

  function SemiCircleRecord(name: string, cx: real, cy: real, radius: real,
                            fillColor: Option<string>, opts: ShapeOptions, isClosed: Option<bool>): GraphicsRecord
  {
    var g := Setup(name, cx, cy, fillColor, opts, isClosed);
    g.(calls := g.calls + [MoveTo(Point(cx, cy)), Arc(cx, cy, radius, ArcStart, ArcEnd, false), LineTo(Point(cx, cy))])
  }

  /** The semicircle's outline starts and ends at the centre, with a
      clockwise arc of half a turn, from 90 degrees, in between. */
  lemma SemiCircleOutline(name: string, cx: real, cy: real, radius: real,
                          fillColor: Option<string>, opts: ShapeOptions, isClosed: Option<bool>)
    ensures var g := SemiCircleRecord(name, cx, cy, radius, fillColor, opts, isClosed);
      var n := |g.calls|;
      && n >= 3
      && g.calls[n - 3] == MoveTo(Point(cx, cy)) && g.calls[n - 1] == LineTo(Point(cx, cy))
      && g.calls[n - 2].Arc? && g.calls[n - 2].endAngle == PlusPi(g.calls[n - 2].startAngle)
      && g.calls[n - 2].startAngle == DegreesToRadians(90.0) && !g.calls[n - 2].anticlockwise
  {
  }

  function CircleRecord(name: string, cx: real, cy: real, radius: real,
                        fillColor: Option<string>, opts: ShapeOptions, isClosed: Option<bool>): GraphicsRecord
  {
    var g := Setup(name, cx, cy, fillColor, opts, isClosed);
    g.(calls := g.calls + [DrawCircle(cx, cy, radius)])
  }

  /** Top (cx, cy - h/2), left (cx - b/2, cy + h/2), right (cx + b/2, cy + h/2). */
  function TriangleVertices(cx: real, cy: real, height: real, baseWidth: real): seq<real>
  {
    [cx, cy - height / 2.0, cx - baseWidth / 2.0, cy + height / 2.0, cx + baseWidth / 2.0, cy + height / 2.0]
  }

  function TriangleRecord(name: string, cx: real, cy: real, height: real, baseWidth: real,
                          fillColor: Option<string>, opts: ShapeOptions, isClosed: Option<bool>): GraphicsRecord
  {
    var g := Setup(name, cx, cy, fillColor, opts, isClosed);
    g.(calls := g.calls + [DrawPolygon(TriangleVertices(cx, cy, height, baseWidth))])
  }

  /** The triangle's three vertices in order top, left, right: the base is
      horizontal, `baseWidth` wide and centred under the apex, and the apex
      is `height` above it, with (cx, cy) halfway up. */
  lemma TriangleShape(cx: real, cy: real, height: real, baseWidth: real)
    ensures var v := Pairs(TriangleVertices(cx, cy, height, baseWidth));
      && |v| == 3
      && v[1].y == v[2].y && v[2].x - v[1].x == baseWidth
      && v[0].x == cx && (v[1].x + v[2].x) / 2.0 == cx
      && v[1].y - v[0].y == height && (v[0].y + v[1].y) / 2.0 == cy
  {
    var v := Pairs(TriangleVertices(cx, cy, height, baseWidth));
    assert |v| == 3;
  }

  /** The equilateral triangle is the triangle of base `sideLength` and
      height (sqrt 3 / 2) * sideLength; Math.sqrt(3) is a parameter. */
  function EquilateralVertices(cx: real, cy: real, sideLength: real, sqrt3: real): seq<real>
  {
    var height := (sqrt3 / 2.0) * sideLength;
    [cx, cy - height / 2.0, cx - sideLength / 2.0, cy + height / 2.0, cx + sideLength / 2.0, cy + height / 2.0]
  }

  function EquilateralTriangleRecord(name: string, cx: real, cy: real, sideLength: real, sqrt3: real,
                                     fillColor: Option<string>, opts: ShapeOptions, isClosed: Option<bool>): GraphicsRecord
  {
    var g := Setup(name, cx, cy, fillColor, opts, isClosed);
    g.(calls := g.calls + [DrawPolygon(EquilateralVertices(cx, cy, sideLength, sqrt3))])
  }

  function SquaredDistance(p: Point, q: Point): real
  {
    (p.x - q.x) * (p.x - q.x) + (p.y - q.y) * (p.y - q.y)
  }

  /** With the exact square root of 3 all three sides are `sideLength`
      long; the left and right vertices mirror each other about cx. */
  lemma EquilateralSides(cx: real, cy: real, sideLength: real, sqrt3: real)
    requires sqrt3 * sqrt3 == 3.0
    ensures EquilateralVertices(cx, cy, sideLength, sqrt3) == TriangleVertices(cx, cy, (sqrt3 / 2.0) * sideLength, sideLength)
    ensures var v := Pairs(EquilateralVertices(cx, cy, sideLength, sqrt3));
      && |v| == 3
      && SquaredDistance(v[1], v[2]) == sideLength * sideLength
      && SquaredDistance(v[0], v[1]) == sideLength * sideLength
      && SquaredDistance(v[0], v[2]) == sideLength * sideLength
      && v[1].y == v[2].y && cx - v[1].x == v[2].x - cx
  {
    var h := (sqrt3 / 2.0) * sideLength;
    var v := Pairs(EquilateralVertices(cx, cy, sideLength, sqrt3));
    assert |v| == 3;
    assert h * h == 3.0 * sideLength * sideLength / 4.0 by {
      assert h * h == (sqrt3 * sqrt3) * sideLength * sideLength / 4.0;
    }
    assert SquaredDistance(v[0], v[1]) == (sideLength / 2.0) * (sideLength / 2.0) + h * h;
    assert SquaredDistance(v[0], v[2]) == (sideLength / 2.0) * (sideLength / 2.0) + h * h;
  }

  /** Top (cx, cy - c1), bottom right (cx + c2, cy), right angle (cx, cy). */
  function RightTriangleVertices(cx: real, cy: real, catet1: real, catet2: real): seq<real>
  {
    [cx, cy - catet1, cx + catet2, cy, cx, cy]
  }

  function RightTriangleRecord(name: string, cx: real, cy: real, catet1: real, catet2: real,
                               fillColor: Option<string>, opts: ShapeOptions, isClosed: Option<bool>): GraphicsRecord
  {
    var g := Setup(name, cx, cy, fillColor, opts, isClosed);
    g.(calls := g.calls + [DrawPolygon(RightTriangleVertices(cx, cy, catet1, catet2))])
  }

  /** The right angle is the last vertex, at (cx, cy); the legs run up to
      the first vertex and right to the second, `catet1` and `catet2`
      long. */
  lemma RightTriangleShape(cx: real, cy: real, catet1: real, catet2: real)
    ensures var v := Pairs(RightTriangleVertices(cx, cy, catet1, catet2));
      && |v| == 3
      && v[2] == Point(cx, cy)
      && (v[0].x - v[2].x) * (v[1].x - v[2].x) + (v[0].y - v[2].y) * (v[1].y - v[2].y) == 0.0
      && SquaredDistance(v[0], v[2]) == catet1 * catet1
      && SquaredDistance(v[1], v[2]) == catet2 * catet2
  {
    var v := Pairs(RightTriangleVertices(cx, cy, catet1, catet2));
    assert |v| == 3;
  }

  // ---------------------------------------------------------------------
  // Paths drawn point by point

  /** A moveTo to the first point and a lineTo to each later one. */
  function PolylineCalls(pts: seq<Point>): (r: seq<DrawCall>)
    ensures |r| == |pts|
    ensures forall k :: 0 <= k < |r| ==> r[k] == if k == 0 then MoveTo(pts[k]) else LineTo(pts[k])
  {
    if pts == [] then []
    else if |pts| == 1 then [MoveTo(pts[0])]
    else PolylineCalls(pts[..|pts| - 1]) + [LineTo(pts[|pts| - 1])]
  }

  /** A polyline read back gives its points, and every call is a moveTo
      or a lineTo, so it is never closed. */
  lemma PolylineRoundTrip(pts: seq<Point>)
    ensures forall c <- PolylineCalls(pts) :: (c.MoveTo? || c.LineTo?)
    ensures seq(|pts|, k requires 0 <= k < |pts| => PolylineCalls(pts)[k].p) == pts
  {
  }

  /** The point at distance r from (cx, cy) in the direction `rot`:
      (cx + r * cos, cy + r * sin). */
  function PolarPoint(cx: real, cy: real, r: real, rot: Rotation): Point
  {
    Point(cx + r * rot.cos, cy + r * rot.sin)
  }

  /** The star's i-th vertex: radius `radius` on even i and radius / 2 on
      odd i, at the angle `angle + i * (Math.PI / spikes)`; `angle` is the
      builder's parameter in degrees, added as it stands. */
  function StarVertex(trig: Angle -> Rotation, cx: real, cy: real, radius: real, spikes: nat, angle: real, i: nat): Point
    requires spikes > 0
  {
    var r := if i % 2 == 0 then radius else radius / 2.0;
    PolarPoint(cx, cy, r, trig(PiMultiple(angle, i as real / spikes as real)))
  }

  /** The 2 * spikes vertices of the star's loop, in order. */
  function StarVertices(trig: Angle -> Rotation, cx: real, cy: real, radius: real, spikes: nat, angle: real): seq<Point>
  {
    seq(2 * spikes, i requires 0 <= i < 2 * spikes => StarVertex(trig, cx, cy, radius, spikes, angle, i))
  }

  function StarRecord(trig: Angle -> Rotation, name: string, cx: real, cy: real, radius: real, spikes: nat,
                      fillColor: Option<string>, opts: ShapeOptions, isClosed: Option<bool>): GraphicsRecord
  {
    var g := Setup(name, cx, cy, fillColor, opts, isClosed);
    g.(calls := g.calls + PolylineCalls(StarVertices(trig, cx, cy, radius, spikes, Default(opts.angle, 0.0))) + [ClosePath])
  }

  /** The star's outline: 2 * spikes points, a moveTo and then lineTo
      calls, followed by a closePath. */
  lemma StarOutline(trig: Angle -> Rotation, cx: real, cy: real, radius: real, spikes: nat, angle: real)
    ensures var vs := StarVertices(trig, cx, cy, radius, spikes, angle);
      var calls := PolylineCalls(vs) + [ClosePath];
      && |calls| == 2 * spikes + 1
      && (spikes > 0 ==> calls[0] == MoveTo(vs[0]))
      && (forall k :: 1 <= k < 2 * spikes ==> calls[k] == LineTo(vs[k]))
      && calls[2 * spikes] == ClosePath
  {
  }

  /** Where `trig` gives unit rotations, the star's vertices lie
      alternately on the circle of radius `radius` about the centre and on
      the one of radius / 2, starting with the outer one. */
  lemma StarRadii(trig: Angle -> Rotation, cx: real, cy: real, radius: real, spikes: nat, angle: real, k: nat)
    requires forall a :: trig(a).cos * trig(a).cos + trig(a).sin * trig(a).sin == 1.0
    requires k < 2 * spikes
    ensures SquaredDistance(StarVertices(trig, cx, cy, radius, spikes, angle)[k], Point(cx, cy))
              == if k % 2 == 0 then radius * radius else (radius / 2.0) * (radius / 2.0)
  {
    var rot := trig(PiMultiple(angle, k as real / spikes as real));
    var r := if k % 2 == 0 then radius else radius / 2.0;
    PolarDistance(cx, cy, r, rot);
  }

  /** A polar point is at distance r from its centre when the rotation is
      a unit one. */
  lemma PolarDistance(cx: real, cy: real, r: real, rot: Rotation)
    requires rot.cos * rot.cos + rot.sin * rot.sin == 1.0
    ensures SquaredDistance(PolarPoint(cx, cy, r, rot), Point(cx, cy)) == r * r
  {
    var c, s := rot.cos, rot.sin;
    calc {
      SquaredDistance(PolarPoint(cx, cy, r, rot), Point(cx, cy));
      (r * c) * (r * c) + (r * s) * (r * s);
      r * r * (c * c + s * s);
      r * r;
    }
  }

  /** floor(radius / spacing) turns of 100 points each. */
  function SpiralTotal(radius: real, spacing: real): int
    requires spacing != 0.0
  {
    100 * (radius / spacing).Floor
  }

  /** The spiral's i-th point: angle (i / 100) * 2 * Math.PI, at the
      fraction i / total of the radius. */
  function SpiralPoint(trig: Angle -> Rotation, cx: real, cy: real, radius: real, total: int, i: nat): Point
  {
    PolarPoint(cx, cy, SpiralRadius(radius, total, i), trig(SpiralAngle(i)))
  }

  /** (i / 100) * 2 * Math.PI. */
  function SpiralAngle(i: nat): Angle
  {
    PiMultiple(0.0, (i as real / 100.0) * 2.0)
  }

  /** (i / total) * radius; with no turns at all the source divides 0 by
      0, and the model puts that single point at the centre. */
  function SpiralRadius(radius: real, total: int, i: nat): real
  {
    if total == 0 then 0.0 else (i as real / total as real) * radius
  }

  /** The points i = 0 .. total of the spiral's loop: none when the total
      is negative. */
  function SpiralPoints(trig: Angle -> Rotation, cx: real, cy: real, radius: real, total: int): seq<Point>
  {
    var n := if total >= 0 then total + 1 else 0;
    seq(n, i requires 0 <= i < n => SpiralPoint(trig, cx, cy, radius, total, i))
  }

  /** `createSpiral` (wrapper only): isClosed false, a fill with the fill
      colour as given (possibly undefined), the line style with
      string2hex(lineColor), then the polyline. */
  function SpiralRecord(trig: Angle -> Rotation, name: string, cx: real, cy: real, radius: real,
                        lineThickness: real, spacing: real, lineColor: string, fillColor: Option<string>): GraphicsRecord
    requires spacing != 0.0
  {
    var fill := if fillColor.Some? then Some(Css(fillColor.value)) else None;
    NewGraphics.(name := Some(name), isClosed := Some(false),
                 calls := [BeginFill(fill), LineStyle(lineThickness, String2Hex(lineColor))]
                          + PolylineCalls(SpiralPoints(trig, cx, cy, radius, SpiralTotal(radius, spacing))))
  }

  /** The spiral's outline: 100 * floor(radius / spacing) + 1 points when
      that floor is not negative, none otherwise; after the fill and the
      line style, a moveTo to the first point and lineTo calls to the
      others, with no closePath. */
  lemma SpiralOutline(trig: Angle -> Rotation, name: string, cx: real, cy: real, radius: real,
                      lineThickness: real, spacing: real, lineColor: string, fillColor: Option<string>)
    requires spacing != 0.0
    ensures var g := SpiralRecord(trig, name, cx, cy, radius, lineThickness, spacing, lineColor, fillColor);
      var total := SpiralTotal(radius, spacing);
      var pts := SpiralPoints(trig, cx, cy, radius, total);
      && g.isClosed == Some(false)
      && |pts| == (if total >= 0 then total + 1 else 0)
      && g.calls[..2] == [BeginFill(if fillColor.Some? then Some(Css(fillColor.value)) else None),
                          LineStyle(lineThickness, String2Hex(lineColor))]
      && |g.calls| == 2 + |pts|
      && (forall k :: 2 <= k < |g.calls| ==> g.calls[k] == if k == 2 then MoveTo(pts[0]) else LineTo(pts[k - 2]))
      && ClosePath !in g.calls
  {
    var g := SpiralRecord(trig, name, cx, cy, radius, lineThickness, spacing, lineColor, fillColor);
    var pts := SpiralPoints(trig, cx, cy, radius, SpiralTotal(radius, spacing));
    assert g.calls == g.calls[..2] + PolylineCalls(pts);
    PolylineRoundTrip(pts);
  }

  /** Where `trig` gives unit rotations, the spiral's i-th point is
      i / total of the way out to `radius`. */
  lemma SpiralWidens(trig: Angle -> Rotation, cx: real, cy: real, radius: real, total: int, i: nat)
    requires forall a :: trig(a).cos * trig(a).cos + trig(a).sin * trig(a).sin == 1.0
    requires 0 < total && i <= total
    ensures var r := (i as real / total as real) * radius;
      SquaredDistance(SpiralPoints(trig, cx, cy, radius, total)[i], Point(cx, cy)) == r * r
  {
    PolarDistance(cx, cy, SpiralRadius(radius, total, i), trig(SpiralAngle(i)));
  }

  /** The spiral starts at the centre and, where `trig` gives unit
      rotations, ends on the circle of radius `radius`. */
  lemma SpiralEnds(trig: Angle -> Rotation, cx: real, cy: real, radius: real, total: int)
    requires forall a :: trig(a).cos * trig(a).cos + trig(a).sin * trig(a).sin == 1.0
    requires 0 < total
    ensures var pts := SpiralPoints(trig, cx, cy, radius, total);
      && pts[0] == Point(cx, cy)
      && SquaredDistance(pts[total], Point(cx, cy)) == radius * radius
  {
    var pts := SpiralPoints(trig, cx, cy, radius, total);
    assert SpiralRadius(radius, total, 0) == 0.0;
    assert pts[0] == PolarPoint(cx, cy, 0.0, trig(SpiralAngle(0)));
    assert SpiralRadius(radius, total, total) == radius by {
      assert total as real / total as real == 1.0;
    }
    PolarDistance(cx, cy, radius, trig(SpiralAngle(total)));
  }

  /** `split`: the pieces of `s` between the separators, in order; a
      string without the separator is one piece. */
  function Split(s: string, sep: char): (r: seq<string>)
    ensures |r| >= 1
    ensures forall piece <- r :: sep !in piece
  {
    if s == [] then [[]]
    else
      var pieces := Split(s[..|s| - 1], sep);
      if s[|s| - 1] == sep then pieces + [[]]
      else pieces[..|pieces| - 1] + [pieces[|pieces| - 1] + [s[|s| - 1]]]
  }

  /** `join`, the inverse of `split`. */
  function Join(pieces: seq<string>, sep: char): string
  {
    if pieces == [] then []
    else if |pieces| == 1 then pieces[0]
    else Join(pieces[..|pieces| - 1], sep) + [sep] + pieces[|pieces| - 1]
  }

  /** Joining the pieces with the separator gives the string back. */
  lemma {:induction false} SplitJoin(s: string, sep: char)
    ensures Join(Split(s, sep), sep) == s
  {
    if s != [] {
      var t, c := s[..|s| - 1], s[|s| - 1];
      assert s == t + [c];
      var pieces := Split(t, sep);
      SplitJoin(t, sep);
      if c != sep {
        var n := |pieces|;
        var init, last := pieces[..n - 1], pieces[n - 1];
        assert pieces == init + [last];
        if n == 1 {
          assert Split(s, sep) == [last + [c]];
        } else {
          assert Split(s, sep)[..n - 1] == init;
          assert Join(pieces, sep) == Join(init, sep) + [sep] + last;
          assert Join(Split(s, sep), sep) == Join(init, sep) + [sep] + (last + [c]);
        }
      }
    }
  }

  /** What `createSprite` makes of the texture path: the text after the
      last '/', or the whole path when it has none. */
  function SpriteLabel(src: string): (r: string)
    ensures '/' !in r
    ensures |r| <= |src| && r == src[|src| - |r|..]
    ensures |r| < |src| ==> src[|src| - |r| - 1] == '/'
  {
    if src == [] || src[|src| - 1] == '/' then []
    else SpriteLabel(src[..|src| - 1]) + [src[|src| - 1]]
  }

  /** `splitted[splitted.length - 1]` for `splitted = src.split('/')` is
      the text after the last '/'. */
  lemma {:induction false} LastPieceIsSpriteLabel(src: string)
    ensures var pieces := Split(src, '/'); pieces[|pieces| - 1] == SpriteLabel(src)
  {
    if src != [] {
      LastPieceIsSpriteLabel(src[..|src| - 1]);
    }
  }

  /** A path without '/' is its own name. */
  lemma {:induction false} SpriteLabelNoSlash(name: string)
    requires '/' !in name
    ensures SpriteLabel(name) == name
  {
    if name != [] {
      var n := |name|;
      assert name[n - 1] in name;
      assert '/' !in name[..n - 1] by {
        forall c <- name[..n - 1] ensures c in name { }
      }
      SpriteLabelNoSlash(name[..n - 1]);
      assert name[..n - 1] + [name[n - 1]] == name;
    }
  }

  /** After the last '/', the name is what follows it, whatever precedes
      it. */
  lemma {:induction false} SpriteLabelAfterSlash(dir: string, name: string)
    requires '/' !in name
    ensures SpriteLabel(dir + "/" + name) == name
  {
    var s := dir + "/" + name;
    if name == [] {
      assert s[|s| - 1] == '/';
    } else {
      var n := |name|;
      assert name[n - 1] in name;
      assert '/' !in name[..n - 1] by {
        forall c <- name[..n - 1] ensures c in name { }
      }
      assert s[..|s| - 1] == dir + "/" + name[..n - 1];
      SpriteLabelAfterSlash(dir, name[..n - 1]);
      assert name[..n - 1] + [name[n - 1]] == name;
    }
  }
}
