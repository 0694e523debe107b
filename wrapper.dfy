/** The shape builders of src/ts/core/pixi/wrapper.ts: each makes a new
    Graphics object, sets its name, its `isClosed` flag, its rotation and
    its style, and issues the drawing calls of its shape. Each is proved
    to leave the object holding the record ShapeRecords describes. */
module Wrapper {
  import opened Common
  import opened Geometry
  import opened Pixi
  import opened ShapeRecords

  /** `_applyRotationTo`. */
  method ApplyRotationTo(g: Graphics, x: real, y: real, angle: real)
    modifies g
    ensures g.Record() == Rotated(old(g.Record()), x, y, angle)
  {
    g.SetPivot(x, y);
    g.SetPosition(x, y);
    g.SetRotation(DegreesToRadians(angle));
  }

  /** `_applyStyleTo`: the style calls go after whatever was recorded. */
  method ApplyStyleTo(g: Graphics, fillColor: Option<string>, borderThickness: real, borderColor: string)
    modifies g
    ensures g.Record() == old(g.Record()).(calls := old(g.calls) + StyleCalls(fillColor, borderThickness, borderColor))
  {
    if borderThickness > 0.0 {
      g.Draw(LineStyle(borderThickness, Css(borderColor)));
    }
    if fillColor.Some? && fillColor.value != "" {
      g.Draw(BeginFill(Some(Css(fillColor.value))));
    }
  }

  /** `_createShapeGraphics`: it sets `isClosed`. */
  method CreateShapeGraphics(name: string, x: real, y: real, angle: real, fillColor: Option<string>,
                             borderThickness: real, borderColor: string, isClosed: bool) returns (g: Graphics)
    ensures fresh(g)
    ensures g.Record() == ShapeGraphics(name, x, y, angle, fillColor, borderThickness, borderColor, Some(isClosed))
  {
    g := new Graphics();
    g.SetName(name);
    g.SetIsClosed(isClosed);
    if angle != 0.0 {
      ApplyRotationTo(g, x, y, angle);
    }
    ApplyStyleTo(g, fillColor, borderThickness, borderColor);
  }

  /** The common first step of the builders, with the defaults applied. */
  method CreateClosedShape(name: string, x: real, y: real, fillColor: Option<string>, opts: ShapeOptions)
    returns (g: Graphics)
    ensures fresh(g)
    ensures g.Record() == Setup(name, x, y, fillColor, opts, Some(true))
  {
    g := CreateShapeGraphics(name, x, y, Default(opts.angle, 0.0), fillColor,
                             Default(opts.borderThickness, 0.0), Default(opts.borderColor, ""), true);
  }

  method CreateRectangle(name: string, x: real, y: real, width: real, height: real,
                         fillColor: Option<string>, opts: ShapeOptions) returns (g: Graphics)
    ensures fresh(g)
    ensures g.Record() == RectangleRecord(name, x, y, width, height, fillColor, opts, Some(true))
  {
    g := CreateClosedShape(name, x, y, fillColor, opts);
    g.Draw(DrawRect(x, y, width, height));
  }

  method CreateSemiCircle(name: string, cx: real, cy: real, radius: real,
                          fillColor: Option<string>, opts: ShapeOptions) returns (g: Graphics)
    ensures fresh(g)
    ensures g.Record() == SemiCircleRecord(name, cx, cy, radius, fillColor, opts, Some(true))
  {
    g := CreateClosedShape(name, cx, cy, fillColor, opts);
    var startAngle := DegreesToRadians(90.0);
    var endAngle := PlusPi(startAngle);
    g.Draw(MoveTo(Point(cx, cy)));
    g.Draw(Arc(cx, cy, radius, startAngle, endAngle, false));
    g.Draw(LineTo(Point(cx, cy)));
  }

  method CreateCircle(name: string, cx: real, cy: real, radius: real,
                      fillColor: Option<string>, opts: ShapeOptions) returns (g: Graphics)
    ensures fresh(g)
    ensures g.Record() == CircleRecord(name, cx, cy, radius, fillColor, opts, Some(true))
  {
    g := CreateClosedShape(name, cx, cy, fillColor, opts);
    g.Draw(DrawCircle(cx, cy, radius));
  }

  method CreateTriangle(name: string, cx: real, cy: real, height: real, baseWidth: real,
                        fillColor: Option<string>, opts: ShapeOptions) returns (g: Graphics)
    ensures fresh(g)
    ensures g.Record() == TriangleRecord(name, cx, cy, height, baseWidth, fillColor, opts, Some(true))
  {
    g := CreateClosedShape(name, cx, cy, fillColor, opts);
    var top := Point(cx, cy - height / 2.0);
    var left := Point(cx - baseWidth / 2.0, cy + height / 2.0);
    var right := Point(cx + baseWidth / 2.0, cy + height / 2.0);
    g.Draw(DrawPolygon([top.x, top.y, left.x, left.y, right.x, right.y]));
  }

  /** `sqrt3` stands for Math.sqrt(3). */
  method CreateEquilateralTriangle(name: string, cx: real, cy: real, sideLength: real, sqrt3: real,
                                   fillColor: Option<string>, opts: ShapeOptions) returns (g: Graphics)
    ensures fresh(g)
    ensures g.Record() == EquilateralTriangleRecord(name, cx, cy, sideLength, sqrt3, fillColor, opts, Some(true))
  {
    g := CreateClosedShape(name, cx, cy, fillColor, opts);
    var height := (sqrt3 / 2.0) * sideLength;
    var top := Point(cx, cy - height / 2.0);
    var left := Point(cx - sideLength / 2.0, cy + height / 2.0);
    var right := Point(cx + sideLength / 2.0, cy + height / 2.0);
    g.Draw(DrawPolygon([top.x, top.y, left.x, left.y, right.x, right.y]));
  }

  method CreateRightTriangle(name: string, cx: real, cy: real, catet1: real, catet2: real,
                             fillColor: Option<string>, opts: ShapeOptions) returns (g: Graphics)
    ensures fresh(g)
    ensures g.Record() == RightTriangleRecord(name, cx, cy, catet1, catet2, fillColor, opts, Some(true))
  {
    g := CreateClosedShape(name, cx, cy, fillColor, opts);
    var rightAngle := Point(cx, cy);
    var top := Point(cx, cy - catet1);
    var bottomRight := Point(cx + catet2, cy);
    g.Draw(DrawPolygon([top.x, top.y, bottomRight.x, bottomRight.y, rightAngle.x, rightAngle.y]));
  }

  /** One more point of a polyline: a moveTo for the first, a lineTo for
      the others. */
  lemma PolylineStep(pts: seq<Point>, i: nat)
    requires i < |pts|
    ensures PolylineCalls(pts[..i + 1]) == PolylineCalls(pts[..i]) + [if i == 0 then MoveTo(pts[i]) else LineTo(pts[i])]
  {
    assert pts[..i + 1][..i] == pts[..i];
  }

  /** The loop of `createStar`: 2 * spikes vertices, a moveTo to the first
      and a lineTo to each of the others. */
  method TraceStar(g: Graphics, trig: Angle -> Rotation, cx: real, cy: real, radius: real, spikes: nat, angle: real)
    modifies g
    ensures g.Record() == old(g.Record()).(calls := old(g.calls) + PolylineCalls(StarVertices(trig, cx, cy, radius, spikes, angle)))
  {
    ghost var vertices := StarVertices(trig, cx, cy, radius, spikes, angle);
    var i := 0;
    while i < 2 * spikes
      invariant 0 <= i <= 2 * spikes
      invariant g.Record() == old(g.Record()).(calls := old(g.calls) + PolylineCalls(vertices[..i]))
    {
      var r := if i % 2 == 0 then radius else radius / 2.0;
      var rot := trig(PiMultiple(angle, i as real / spikes as real));
      var p := PolarPoint(cx, cy, r, rot);
      assert p == vertices[i];
      PolylineStep(vertices, i);
      if i == 0 {
        g.Draw(MoveTo(p));
      } else {
        g.Draw(LineTo(p));
      }
      i := i + 1;
    }
    assert vertices[..i] == vertices;
  }

  /** `createStar`: the shape setup, the vertices, then closePath. */
  method CreateStar(trig: Angle -> Rotation, name: string, cx: real, cy: real, radius: real, spikes: nat,
                    fillColor: Option<string>, opts: ShapeOptions) returns (g: Graphics)
    ensures fresh(g)
    ensures g.Record() == StarRecord(trig, name, cx, cy, radius, spikes, fillColor, opts, Some(true))
  {
    g := CreateClosedShape(name, cx, cy, fillColor, opts);
    TraceStar(g, trig, cx, cy, radius, spikes, Default(opts.angle, 0.0));
    g.Draw(ClosePath);
  }

  /** `createSpiral`: no shape setup; 100 points per turn, from the centre
      out to `radius`. `spacing` must not be 0: the loop bound would be
      infinite. */
  method CreateSpiral(trig: Angle -> Rotation, name: string, cx: real, cy: real, radius: real,
                      lineThickness: real, spacing: real, lineColor: string, fillColor: Option<string>)
    returns (g: Graphics)
    requires spacing != 0.0
    ensures fresh(g)
    ensures g.Record() == SpiralRecord(trig, name, cx, cy, radius, lineThickness, spacing, lineColor, fillColor)
  {
    g := new Graphics();
    g.SetName(name);
    g.SetIsClosed(false);
    var fill := if fillColor.Some? then Some(Css(fillColor.value)) else None;
    g.Draw(BeginFill(fill));
    g.Draw(LineStyle(lineThickness, String2Hex(lineColor)));
    assert g.Record() == NewGraphics.(name := Some(name), isClosed := Some(false),
                                      calls := [BeginFill(fill), LineStyle(lineThickness, String2Hex(lineColor))]);
    var turns := (radius / spacing).Floor;
    var totalPoints := 100 * turns;
    assert totalPoints == SpiralTotal(radius, spacing);
    TraceSpiral(g, trig, cx, cy, radius, totalPoints);
  }

  /** The loop of `createSpiral`: the points i = 0 .. totalPoints. */
  method TraceSpiral(g: Graphics, trig: Angle -> Rotation, cx: real, cy: real, radius: real, totalPoints: int)
    modifies g
    ensures g.Record() == old(g.Record()).(calls := old(g.calls) + PolylineCalls(SpiralPoints(trig, cx, cy, radius, totalPoints)))
  {
    ghost var pts := SpiralPoints(trig, cx, cy, radius, totalPoints);
    var i := 0;
    while i <= totalPoints
      invariant 0 <= i <= |pts|
      invariant g.Record() == old(g.Record()).(calls := old(g.calls) + PolylineCalls(pts[..i]))
      decreases totalPoints - i
    {
      var angle := SpiralAngle(i);
      var currentRadius := SpiralRadius(radius, totalPoints, i);
      var p := PolarPoint(cx, cy, currentRadius, trig(angle));
      assert p == pts[i];
      PolylineStep(pts, i);
      if i == 0 {
        g.Draw(MoveTo(p));
      } else {
        g.Draw(LineTo(p));
      }
      i := i + 1;
    }
    assert pts[..i] == pts;
  }

  /** `createSprite`: the sprite of the texture at `src`, sized and placed
      as given, named after the last piece of its path. The texture's own
      size is a parameter. */
  method CreateSprite(src: string, x: real, y: real, width: real, height: real,
                      textureWidth: real, textureHeight: real) returns (s: Sprite)
    ensures fresh(s)
    ensures s.src == src && s.x == x && s.y == y && s.width == width && s.height == height
    ensures s.name == Some(SpriteLabel(src))
  {
    s := new Sprite(src, textureWidth, textureHeight);
    s.width := width;
    s.height := height;
    s.x := x;
    s.y := y;
    var splitted := Split(src, '/');
    LastPieceIsSpriteLabel(src);
    s.name := Some(splitted[|splitted| - 1]);
  }

  /** Every builder of this file but the spiral marks its shape closed;
      the spiral is marked open. */
  lemma IsClosedFlags(trig: Angle -> Rotation, name: string, x: real, y: real, a: real, b: real, sqrt3: real,
                      spikes: nat, fillColor: Option<string>, opts: ShapeOptions,
                      spacing: real, lineColor: string)
    requires spacing != 0.0
    ensures RectangleRecord(name, x, y, a, b, fillColor, opts, Some(true)).isClosed == Some(true)
    ensures SemiCircleRecord(name, x, y, a, fillColor, opts, Some(true)).isClosed == Some(true)
    ensures CircleRecord(name, x, y, a, fillColor, opts, Some(true)).isClosed == Some(true)
    ensures TriangleRecord(name, x, y, a, b, fillColor, opts, Some(true)).isClosed == Some(true)
    ensures EquilateralTriangleRecord(name, x, y, a, sqrt3, fillColor, opts, Some(true)).isClosed == Some(true)
    ensures RightTriangleRecord(name, x, y, a, b, fillColor, opts, Some(true)).isClosed == Some(true)
    ensures StarRecord(trig, name, x, y, a, spikes, fillColor, opts, Some(true)).isClosed == Some(true)
    ensures SpiralRecord(trig, name, x, y, a, b, spacing, lineColor, fillColor).isClosed == Some(false)
  {
  }
}
