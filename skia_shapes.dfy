/** The standalone primitive renderers of src/ts/core/pixi2skia/shapes.ts:
    a rectangle, a circle and a polygon drawn straight onto a canvas, with
    no save, restore or transform of their own. */
module SkiaShapes {
  import opened Geometry
  import opened Skia
  import opened Primitives

  /** `drawRectangle`: the closed four-corner path, filled, then stroked
      when the line width is positive. */
  method DrawRectangle(canvas: Canvas, x: real, y: real, width: real, height: real, styles: Styles)
    modifies canvas
    ensures canvas.commands == old(canvas.commands)
      + RectangleCommands(x, y, width, height, styles.fillColor, styles.lineColor, styles.lineWidth)
  {
    var path := [MoveTo(Point(x, y)), LineTo(Point(x + width, y)), LineTo(Point(x + width, y + height)),
                 LineTo(Point(x, y + height)), Close];
    var fillPaint := FillPaint(FromDecimal(styles.fillColor));
    var strokePaint := StrokePaint(FromDecimal(styles.lineColor), styles.lineWidth);
    canvas.DrawPath(path, fillPaint);
    if styles.lineWidth > 0.0 {
      canvas.DrawPath(path, strokePaint);
    }
  }

  /** `drawCircle`: one circle, filled, then stroked when the line width is
      positive. */
  method DrawCircle(canvas: Canvas, x: real, y: real, radius: real, styles: Styles)
    modifies canvas
    ensures canvas.commands == old(canvas.commands)
      + CircleCommands(x, y, radius, styles.fillColor, styles.lineColor, styles.lineWidth)
  {
    var path := [AddCircle(Point(x, y), radius)];
    var fillPaint := FillPaint(FromDecimal(styles.fillColor));
    var strokePaint := StrokePaint(FromDecimal(styles.lineColor), styles.lineWidth);
    canvas.DrawPath(path, fillPaint);
    if styles.lineWidth > 0.0 {
      canvas.DrawPath(path, strokePaint);
    }
  }

  /** `drawPolygon`: always closed and always filled; the stroke paint is
      made and used only for a positive line width. */
  method DrawPolygon(canvas: Canvas, points: PolyPoints, styles: Styles)
    modifies canvas
    ensures canvas.commands == old(canvas.commands)
      + ClosedPolygonCommands(points, styles.fillColor, styles.lineColor, styles.lineWidth)
  {
    var fillPaint := FillPaint(FromDecimal(styles.fillColor));
    var path := TracePolygon(points, true);
    canvas.DrawPath(path, fillPaint);
    if styles.lineWidth > 0.0 {
      var strokePaint := StrokePaint(FromDecimal(styles.lineColor), styles.lineWidth);
      canvas.DrawPath(path, strokePaint);
    }
  }

  /** Path draws leave the canvas's matrix alone: a point maps the same way
      after them as before. */
  lemma {:induction false} DrawsKeepTransform(trig: Angle -> Rotation, a: seq<Command>, b: seq<Command>, p: Point)
    requires forall c <- b :: c.DrawPath?
    ensures MapPoint(trig, a + b, p) == MapPoint(trig, a, p)
    decreases |b|
  {
    if b == [] {
      assert a + b == a;
    } else {
      assert (a + b)[..|a + b| - 1] == a + b[..|b| - 1];
      assert b[|b| - 1] in b;
      assert MapOne(trig, b[|b| - 1], p) == p;
      DrawsKeepTransform(trig, a, b[..|b| - 1], p);
    }
  }

  /** Path draws leave the save depth alone. */
  lemma DrawsKeepDepth(d: nat, a: seq<Command>, b: seq<Command>)
    requires forall c <- b :: c.DrawPath?
    ensures Run(d, a + b) == Run(d, a)
  {
    RunAppend(d, a, b);
    StackFreeRun(Run(d, a), b);
  }

  /** Whatever the canvas already holds, each of the three renderers
      leaves its save depth and its transform as they were: all it appends
      are path draws. */
  lemma RenderersKeepCanvasState(trig: Angle -> Rotation, before: seq<Command>, p: Point, d: nat,
                                 x: real, y: real, width: real, height: real, radius: real,
                                 points: PolyPoints, styles: Styles)
    ensures var r := RectangleCommands(x, y, width, height, styles.fillColor, styles.lineColor, styles.lineWidth);
      Run(d, before + r) == Run(d, before) && MapPoint(trig, before + r, p) == MapPoint(trig, before, p)
    ensures var r := CircleCommands(x, y, radius, styles.fillColor, styles.lineColor, styles.lineWidth);
      Run(d, before + r) == Run(d, before) && MapPoint(trig, before + r, p) == MapPoint(trig, before, p)
    ensures var r := ClosedPolygonCommands(points, styles.fillColor, styles.lineColor, styles.lineWidth);
      Run(d, before + r) == Run(d, before) && MapPoint(trig, before + r, p) == MapPoint(trig, before, p)
  {
    var f, l, w := styles.fillColor, styles.lineColor, styles.lineWidth;
    PaintPassesOrder(RectanglePath(x, y, width, height), true, f, l, w);
    PaintPassesOrder(CirclePath(x, y, radius), true, f, l, w);
    PaintPassesOrder(PolygonPath(points, true), true, f, l, w);
    var r1 := RectangleCommands(x, y, width, height, f, l, w);
    var r2 := CircleCommands(x, y, radius, f, l, w);
    var r3 := ClosedPolygonCommands(points, f, l, w);
    DrawsKeepDepth(d, before, r1);
    DrawsKeepDepth(d, before, r2);
    DrawsKeepDepth(d, before, r3);
    DrawsKeepTransform(trig, before, r1, p);
    DrawsKeepTransform(trig, before, r2, p);
    DrawsKeepTransform(trig, before, r3, p);
  }

  /** Each renderer fills exactly once, first, and strokes exactly once
      after the fill when the line width is positive, never otherwise; the
      polygon's fill does not depend on its colour. */
  lemma FillOnceThenStroke(x: real, y: real, width: real, height: real, radius: real,
                           points: PolyPoints, styles: Styles)
    ensures var expected := [FillPaint(FromDecimal(styles.fillColor))]
      + (if styles.lineWidth > 0.0 then [StrokePaint(FromDecimal(styles.lineColor), styles.lineWidth)] else []);
      && Paints(RectangleCommands(x, y, width, height, styles.fillColor, styles.lineColor, styles.lineWidth)) == expected
      && Paints(CircleCommands(x, y, radius, styles.fillColor, styles.lineColor, styles.lineWidth)) == expected
      && Paints(ClosedPolygonCommands(points, styles.fillColor, styles.lineColor, styles.lineWidth)) == expected
  {
    var f, l, w := styles.fillColor, styles.lineColor, styles.lineWidth;
    PaintPassesOrder(RectanglePath(x, y, width, height), true, f, l, w);
    PaintPassesOrder(CirclePath(x, y, radius), true, f, l, w);
    PaintPassesOrder(PolygonPath(points, true), true, f, l, w);
  }
}
