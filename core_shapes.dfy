/** The shape builders of src/ts/core/shapes.ts, an earlier copy of those
    in src/ts/core/pixi/wrapper.ts without the `isClosed` flag. Each is
    proved to leave its new Graphics object holding the record
    ShapeRecords describes, with `isClosed` left undefined. */
module CoreShapes {
  import opened Common
  import opened Geometry
  import opened Pixi
  import opened ShapeRecords

  /** `applyRotationTo`. */
  method ApplyRotationTo(g: Graphics, x: real, y: real, angle: real)
    modifies g
    ensures g.Record() == Rotated(old(g.Record()), x, y, angle)
  {
    g.SetPivot(x, y);
    g.SetPosition(x, y);
    g.SetRotation(DegreesToRadians(angle));
  }

  /** `applyStyleTo`: the style calls go after whatever was recorded. */
  method ApplyStyleTo(g: Graphics, fillColor: Option<string>, borderThickness: real, borderColor: string)
    modifies g
    ensures g.Record() == old(g.Record()).(calls := old(g.calls) + StyleCalls(fillColor, borderThickness, borderColor))
  {
    if borderThickness > 0.0 {
      g.Draw(LineStyle(borderThickness, Css(borderColor)));
    }
    if fillColor.Some? && fillColor.value != "" {
      g.Draw(BeginFill(Some(Css(fillColor.value))));
    }
  }

  /** `createShapeGraphics`: unlike the wrapper's, it leaves `isClosed`
      undefined. */
  method CreateShapeGraphics(name: string, x: real, y: real, angle: real, fillColor: Option<string>,
                             borderThickness: real, borderColor: string) returns (g: Graphics)
    ensures fresh(g)
    ensures g.Record() == ShapeGraphics(name, x, y, angle, fillColor, borderThickness, borderColor, None)
  {
    g := new Graphics();
    g.SetName(name);
    if angle != 0.0 {
      ApplyRotationTo(g, x, y, angle);
    }
    ApplyStyleTo(g, fillColor, borderThickness, borderColor);
  }

  /** The common first step of the builders, with the defaults applied. */
  method CreateShape(name: string, x: real, y: real, fillColor: Option<string>, opts: ShapeOptions)
    returns (g: Graphics)
    ensures fresh(g)
    ensures g.Record() == Setup(name, x, y, fillColor, opts, None)
  {
    g := CreateShapeGraphics(name, x, y, Default(opts.angle, 0.0), fillColor,
                             Default(opts.borderThickness, 0.0), Default(opts.borderColor, ""));
  }

  method CreateRectangle(name: string, x: real, y: real, width: real, height: real,
                         fillColor: Option<string>, opts: ShapeOptions) returns (g: Graphics)
    ensures fresh(g)
    ensures g.Record() == RectangleRecord(name, x, y, width, height, fillColor, opts, None)
  {
    g := CreateShape(name, x, y, fillColor, opts);
    g.Draw(DrawRect(x, y, width, height));
  }

  method CreateSemiCircle(name: string, cx: real, cy: real, radius: real,
                          fillColor: Option<string>, opts: ShapeOptions) returns (g: Graphics)
    ensures fresh(g)
    ensures g.Record() == SemiCircleRecord(name, cx, cy, radius, fillColor, opts, None)
  {
    g := CreateShape(name, cx, cy, fillColor, opts);
    var startAngle := DegreesToRadians(90.0);
    var endAngle := PlusPi(startAngle);
    g.Draw(MoveTo(Point(cx, cy)));
    g.Draw(Arc(cx, cy, radius, startAngle, endAngle, false));
    g.Draw(LineTo(Point(cx, cy)));
  }

  method CreateCircle(name: string, cx: real, cy: real, radius: real,
                      fillColor: Option<string>, opts: ShapeOptions) returns (g: Graphics)
    ensures fresh(g)
    ensures g.Record() == CircleRecord(name, cx, cy, radius, fillColor, opts, None)
  {
    g := CreateShape(name, cx, cy, fillColor, opts);
    g.Draw(DrawCircle(cx, cy, radius));
  }

  method CreateTriangle(name: string, cx: real, cy: real, height: real, baseWidth: real,
                        fillColor: Option<string>, opts: ShapeOptions) returns (g: Graphics)
    ensures fresh(g)
    ensures g.Record() == TriangleRecord(name, cx, cy, height, baseWidth, fillColor, opts, None)
  {
    g := CreateShape(name, cx, cy, fillColor, opts);
    var top := Point(cx, cy - height / 2.0);
    var left := Point(cx - baseWidth / 2.0, cy + height / 2.0);
    var right := Point(cx + baseWidth / 2.0, cy + height / 2.0);
    g.Draw(DrawPolygon([top.x, top.y, left.x, left.y, right.x, right.y]));
  }

  /** `sqrt3` stands for Math.sqrt(3). */
  method CreateEquilateralTriangle(name: string, cx: real, cy: real, sideLength: real, sqrt3: real,
                                   fillColor: Option<string>, opts: ShapeOptions) returns (g: Graphics)
    ensures fresh(g)
    ensures g.Record() == EquilateralTriangleRecord(name, cx, cy, sideLength, sqrt3, fillColor, opts, None)
  {
    g := CreateShape(name, cx, cy, fillColor, opts);
    var height := (sqrt3 / 2.0) * sideLength;
    var top := Point(cx, cy - height / 2.0);
    var left := Point(cx - sideLength / 2.0, cy + height / 2.0);
    var right := Point(cx + sideLength / 2.0, cy + height / 2.0);
    g.Draw(DrawPolygon([top.x, top.y, left.x, left.y, right.x, right.y]));
  }

  method CreateRightTriangle(name: string, cx: real, cy: real, catet1: real, catet2: real,
                             fillColor: Option<string>, opts: ShapeOptions) returns (g: Graphics)
    ensures fresh(g)
    ensures g.Record() == RightTriangleRecord(name, cx, cy, catet1, catet2, fillColor, opts, None)
  {
    g := CreateShape(name, cx, cy, fillColor, opts);
    var rightAngle := Point(cx, cy);
    var top := Point(cx, cy - catet1);
    var bottomRight := Point(cx + catet2, cy);
    g.Draw(DrawPolygon([top.x, top.y, bottomRight.x, bottomRight.y, rightAngle.x, rightAngle.y]));
  }

  /** The two builder files agree on everything but `isClosed`, which
      this one leaves undefined and the wrapper sets to true. */
  lemma OnlyIsClosedDiffers(name: string, x: real, y: real, a: real, b: real, sqrt3: real,
                            fillColor: Option<string>, opts: ShapeOptions)
    ensures RectangleRecord(name, x, y, a, b, fillColor, opts, None)
      == RectangleRecord(name, x, y, a, b, fillColor, opts, Some(true)).(isClosed := None)
    ensures SemiCircleRecord(name, x, y, a, fillColor, opts, None)
      == SemiCircleRecord(name, x, y, a, fillColor, opts, Some(true)).(isClosed := None)
    ensures CircleRecord(name, x, y, a, fillColor, opts, None)
      == CircleRecord(name, x, y, a, fillColor, opts, Some(true)).(isClosed := None)
    ensures TriangleRecord(name, x, y, a, b, fillColor, opts, None)
      == TriangleRecord(name, x, y, a, b, fillColor, opts, Some(true)).(isClosed := None)
    ensures EquilateralTriangleRecord(name, x, y, a, sqrt3, fillColor, opts, None)
      == EquilateralTriangleRecord(name, x, y, a, sqrt3, fillColor, opts, Some(true)).(isClosed := None)
    ensures RightTriangleRecord(name, x, y, a, b, fillColor, opts, None)
      == RightTriangleRecord(name, x, y, a, b, fillColor, opts, Some(true)).(isClosed := None)
  {
  }
}
