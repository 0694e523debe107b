/** What the primitive renderers and the transform step append to a canvas,
    as values. The three source files that render rectangles, circles and
    polygons (src/ts/core/pixi2skia/convert.ts, src/ts/core/convert.ts and
    src/ts/core/pixi2skia/shapes.ts) are each proved against these functions,
    and the lemmas below state what those command lists mean. */
module Primitives {
  import opened Common
  import opened Geometry
  import opened Skia

  // ---------------------------------------------------------------------
  // Paths

  /** The path (x,y) -> (x+w,y) -> (x+w,y+h) -> (x,y+h), closed. */
  function RectanglePath(x: real, y: real, width: real, height: real): seq<PathVerb>
  {
    [MoveTo(Point(x, y)), LineTo(Point(x + width, y)), LineTo(Point(x + width, y + height)),
     LineTo(Point(x, y + height)), Close]
  }

  function CirclePath(x: real, y: real, radius: real): seq<PathVerb>
  {
    [AddCircle(Point(x, y), radius)]
  }

  /** The vertices a flat coordinate list denotes, in order. */
  function Pairs(s: seq<real>): (r: seq<Point>)
    requires |s| % 2 == 0
    ensures |r| == |s| / 2
    ensures forall k :: 0 <= k < |r| ==> r[k] == Point(s[2 * k], s[2 * k + 1])
    decreases |s|
  {
    if s == [] then [] else Pairs(s[..|s| - 2]) + [Point(s[|s| - 2], s[|s| - 1])]
  }

  /** One lineTo per vertex, in order. */
  function LineTos(vs: seq<Point>): (r: seq<PathVerb>)
    ensures |r| == |vs|
    ensures forall k :: 0 <= k < |r| ==> r[k] == LineTo(vs[k])
  {
    if vs == [] then [] else LineTos(vs[..|vs| - 1]) + [LineTo(vs[|vs| - 1])]
  }

  /** moveTo(points[0], points[1]), one lineTo per later pair, then a close
      when `closed`. */
  function PolygonPath(points: PolyPoints, closed: bool): seq<PathVerb>
  {
    var vs := Pairs(points);
    [MoveTo(vs[0])] + LineTos(vs[1..]) + (if closed then [Close] else [])
  }

  /** The polygon path verb by verb: the moveTo to the first pair, then
      |points|/2 - 1 lineTo calls to the later pairs in order, and a final
      close exactly when `closed`. */
  lemma PolygonPathShape(points: PolyPoints, closed: bool)
    ensures var r := PolygonPath(points, closed);
      && |r| == |points| / 2 + (if closed then 1 else 0)
      && r[0] == MoveTo(Point(points[0], points[1]))
      && (forall k :: 1 <= k < |points| / 2 ==> r[k] == LineTo(Point(points[2 * k], points[2 * k + 1])))
      && (closed <==> r[|r| - 1] == Close)
  {
    var vs := Pairs(points);
    var r := PolygonPath(points, closed);
    forall k | 1 <= k < |points| / 2
      ensures r[k] == LineTo(Point(points[2 * k], points[2 * k + 1]))
    {
      assert r[k] == LineTos(vs[1..])[k - 1];
    }
  }

  /** The path-building loop of the polygon renderers: moveTo the first
      pair, one lineTo per later pair while the index is below the length,
      then a close when `closed`. */
  method TracePolygon(points: PolyPoints, closed: bool) returns (path: seq<PathVerb>)
    ensures path == PolygonPath(points, closed)
  {
    ghost var vs := Pairs(points);
    ghost var n := |vs|;
    assert |points| == 2 * n;
    path := [MoveTo(Point(points[0], points[1]))];
    var i := 2;
    ghost var j := 1;
    while i < |points|
      invariant i == 2 * j && 1 <= j <= n
      invariant path == [MoveTo(vs[0])] + LineTos(vs[1..j])
    {
      LineTosStep(vs, j);
      assert Point(points[i], points[i + 1]) == vs[j];
      path := path + [LineTo(Point(points[i], points[i + 1]))];
      i := i + 2;
      j := j + 1;
    }
    assert vs[1..j] == vs[1..];
    if closed {
      path := path + [Close];
    }
  }

  /** One more vertex is one more lineTo at the end. */
  lemma LineTosStep(vs: seq<Point>, j: nat)
    requires 1 <= j < |vs|
    ensures LineTos(vs[1..j + 1]) == LineTos(vs[1..j]) + [LineTo(vs[j])]
  {
    assert vs[1..j + 1][..j - 1] == vs[1..j];
  }

  // Reading a path back

  /** The points a path visits through moveTo and lineTo, in order. */
  function PathVertices(path: seq<PathVerb>): seq<Point>
  {
    if path == [] then []
    else
      var v := path[|path| - 1];
      PathVertices(path[..|path| - 1]) + (if v.MoveTo? || v.LineTo? then [v.p] else [])
  }

  /** The path ends with a close. */
  predicate IsClosedPath(path: seq<PathVerb>)
  {
    |path| > 0 && path[|path| - 1] == Close
  }

  /** A vertex list written out as [x0, y0, x1, y1, ...]. */
  function Flatten(vs: seq<Point>): seq<real>
  {
    if vs == [] then [] else Flatten(vs[..|vs| - 1]) + [vs[|vs| - 1].x, vs[|vs| - 1].y]
  }

  lemma {:induction false} PathVerticesAppend(a: seq<PathVerb>, b: seq<PathVerb>)
    ensures PathVertices(a + b) == PathVertices(a) + PathVertices(b)
    decreases |b|
  {
    if b == [] {
      assert a + b == a;
    } else {
      AppendLast(a, b);
      PathVerticesAppend(a, b[..|b| - 1]);
    }
  }

  lemma {:induction false} LineTosVertices(vs: seq<Point>)
    ensures PathVertices(LineTos(vs)) == vs
    decreases |vs|
  {
    if vs != [] {
      var ls := LineTos(vs);
      assert ls[..|ls| - 1] == LineTos(vs[..|vs| - 1]);
      LineTosVertices(vs[..|vs| - 1]);
    }
  }

  lemma {:induction false} FlattenPairs(s: seq<real>)
    requires |s| % 2 == 0
    ensures Flatten(Pairs(s)) == s
    decreases |s|
  {
    if s != [] {
      var vs := Pairs(s);
      assert vs[..|vs| - 1] == Pairs(s[..|s| - 2]);
      FlattenPairs(s[..|s| - 2]);
      assert s == s[..|s| - 2] + [s[|s| - 2], s[|s| - 1]];
    }
  }

  /** A moveTo to the first vertex and a lineTo to each later one visit the
      vertices in order; a trailing close adds none. */
  lemma {:induction false} OpenPathVertices(vs: seq<Point>, closed: bool)
    requires |vs| > 0
    ensures PathVertices([MoveTo(vs[0])] + LineTos(vs[1..]) + (if closed then [Close] else [])) == vs
  {
    var head := [MoveTo(vs[0])];
    var mid := LineTos(vs[1..]);
    var tail: seq<PathVerb> := if closed then [Close] else [];
    calc {
      PathVertices(head + mid + tail);
      { PathVerticesAppend(head + mid, tail); PathVerticesAppend(head, mid); }
      PathVertices(head) + PathVertices(mid) + PathVertices(tail);
      { PathVerticesOne(MoveTo(vs[0])); LineTosVertices(vs[1..]); if closed { PathVerticesOne(Close); } }
      [vs[0]] + vs[1..];
      vs;
    }
  }

  lemma PathVerticesOne(v: PathVerb)
    ensures PathVertices([v]) == if v.MoveTo? || v.LineTo? then [v.p] else []
  {
    assert [v][..0] == [];
  }

  /** Reading the polygon path back gives the coordinate list and the closed
      flag it was built from. */
  lemma {:induction false} PolygonPathRoundTrip(points: PolyPoints, closed: bool)
    ensures Flatten(PathVertices(PolygonPath(points, closed))) == points
    ensures IsClosedPath(PolygonPath(points, closed)) == closed
  {
    OpenPathVertices(Pairs(points), closed);
    FlattenPairs(points);
  }

  /** The rectangle path visits the four corners in order and is closed. */
  lemma RectanglePathCorners(x: real, y: real, width: real, height: real)
    ensures PathVertices(RectanglePath(x, y, width, height))
         == [Point(x, y), Point(x + width, y), Point(x + width, y + height), Point(x, y + height)]
    ensures IsClosedPath(RectanglePath(x, y, width, height))
  {
    var corners := [Point(x + width, y), Point(x + width, y + height), Point(x, y + height)];
    var m := [MoveTo(Point(x, y))];
    assert RectanglePath(x, y, width, height) == m + LineTos(corners) + [Close];
    PathVerticesAppend(m + LineTos(corners), [Close]);
    PathVerticesAppend(m, LineTos(corners));
    LineTosVertices(corners);
    assert m[..0] == [] && [Close][..0] == [];
  }

  // ---------------------------------------------------------------------
  // Draw lists

  /** The `styles` object the earlier translator and the standalone
      renderers take: colours as decimals and a line width. */
  datatype Styles = Styles(fillColor: int, lineColor: int, lineWidth: real)

  /** The paint passes of one primitive on one path: the fill pass when
      `fill` holds, then the stroke pass when the line width is positive. */
  function PaintPasses(path: seq<PathVerb>, fill: bool, fillColor: int, lineColor: int, lineWidth: real): seq<Command>
  {
    (if fill then [DrawPath(path, FillPaint(FromDecimal(fillColor)))] else [])
      + (if lineWidth > 0.0 then [DrawPath(path, StrokePaint(FromDecimal(lineColor), lineWidth))] else [])
  }

  /** _renderRectangle / drawRectangle: fill always, then stroke. */
  function RectangleCommands(x: real, y: real, width: real, height: real,
                             fillColor: int, lineColor: int, lineWidth: real): seq<Command>
  {
    PaintPasses(RectanglePath(x, y, width, height), true, fillColor, lineColor, lineWidth)
  }

  /** _renderCircle / drawCircle: fill always, then stroke. */
  function CircleCommands(x: real, y: real, radius: real,
                          fillColor: int, lineColor: int, lineWidth: real): seq<Command>
  {
    PaintPasses(CirclePath(x, y, radius), true, fillColor, lineColor, lineWidth)
  }

  /** _renderPolygon in src/ts/core/pixi2skia/convert.ts: close only when
      `closed`; fill only for a truthy (non-zero) fill colour. */
  function PolygonCommands(points: PolyPoints, fillColor: int, lineColor: int, lineWidth: real,
                           closed: bool): seq<Command>
  {
    PaintPasses(PolygonPath(points, closed), fillColor != 0, fillColor, lineColor, lineWidth)
  }

  /** drawPolygon in src/ts/core/convert.ts and src/ts/core/pixi2skia/shapes.ts:
      always closed, always filled. */
  function ClosedPolygonCommands(points: PolyPoints, fillColor: int, lineColor: int,
                                 lineWidth: real): seq<Command>
  {
    PaintPasses(PolygonPath(points, true), true, fillColor, lineColor, lineWidth)
  }

  /** What one primitive draws: only path draws, all on its one path, with no
      save, restore or transform; a fill exactly when `fill` holds, a stroke
      exactly when the line width is positive, and the fill before the
      stroke so that the stroke is never covered. */
  lemma PaintPassesOrder(path: seq<PathVerb>, fill: bool, fillColor: int, lineColor: int, lineWidth: real)
    ensures var r := PaintPasses(path, fill, fillColor, lineColor, lineWidth);
      && (forall c <- r :: c.DrawPath? && c.path == path)
      && StackFree(r)
      && Paints(r) == (if fill then [FillPaint(FromDecimal(fillColor))] else [])
                      + (if lineWidth > 0.0 then [StrokePaint(FromDecimal(lineColor), lineWidth)] else [])
      && Fills(Paints(r)) == (if fill then 1 else 0)
      && Strokes(Paints(r)) == (if lineWidth > 0.0 then 1 else 0)
  {
    var fp := FillPaint(FromDecimal(fillColor));
    var sp := StrokePaint(FromDecimal(lineColor), lineWidth);
    var fs: seq<Command> := if fill then [DrawPath(path, fp)] else [];
    var ss: seq<Command> := if lineWidth > 0.0 then [DrawPath(path, sp)] else [];
    var pf: seq<Paint> := if fill then [fp] else [];
    var ps: seq<Paint> := if lineWidth > 0.0 then [sp] else [];
    PaintsAppend(fs, ss);
    PassPaints(path, fill, fp);
    PassPaints(path, lineWidth > 0.0, sp);
    CountsAppend(pf, ps);
    PassCounts(fill, fp);
    PassCounts(lineWidth > 0.0, sp);
  }

  /** The paints of one optional pass. */
  lemma PassPaints(path: seq<PathVerb>, on: bool, p: Paint)
    ensures Paints(if on then [DrawPath(path, p)] else []) == if on then [p] else []
  {
    if on {
      var cs := [DrawPath(path, p)];
      assert cs[..0] == [];
    }
  }

  /** The fill and stroke counts of one optional paint. */
  lemma PassCounts(on: bool, p: Paint)
    ensures Fills(if on then [p] else []) == (if on && p.FillPaint? then 1 else 0)
    ensures Strokes(if on then [p] else []) == (if on && p.StrokePaint? then 1 else 0)
  {
    if on {
      var ps := [p];
      assert ps[..0] == [];
    }
  }

  /** The always-closed, always-filled polygon of the earlier translator
      draws the same as the pixi2skia polygon of a closed shape whenever the
      fill colour is non-zero; for a zero fill it draws one black fill more,
      ahead of everything else. */
  lemma ClosedPolygonAgainstPolygon(points: PolyPoints, fillColor: int, lineColor: int, lineWidth: real)
    ensures fillColor != 0 ==>
      ClosedPolygonCommands(points, fillColor, lineColor, lineWidth)
        == PolygonCommands(points, fillColor, lineColor, lineWidth, true)
    ensures fillColor == 0 ==>
      ClosedPolygonCommands(points, fillColor, lineColor, lineWidth)
        == [DrawPath(PolygonPath(points, true), FillPaint(FromDecimal(0)))]
           + PolygonCommands(points, fillColor, lineColor, lineWidth, true)
  {
  }

  // ---------------------------------------------------------------------
  // Transform

  /** The four calls that carry a PIXI transform over to the canvas:
      translate(position), translate(-pivot * scale),
      rotate(radians2degrees(rotation), pivot.x * scale.x, pivot.y * scale.y),
      scale(scale). */
  function TransformCommands(t: Transform): (r: seq<Command>)
    ensures StackFree(r) && forall c <- r :: c.Translate? || c.Rotate? || c.Scale?
  {
    var rx := t.pivot.x * t.scale.x;
    var ry := t.pivot.y * t.scale.y;
    [Translate(t.position.x, t.position.y),
     Translate(-t.pivot.x * t.scale.x, -t.pivot.y * t.scale.y),
     Rotate(RadiansToDegrees(t.rotation), rx, ry),
     Scale(t.scale.x, t.scale.y)]
  }

  /** PIXI's local-to-parent mapping of a display object: a local point p
      lands at position + R(rotation) * (scale * (p - pivot)). */
  function PixiLocalToParent(trig: Angle -> Rotation, t: Transform, p: Point): Point
  {
    var r := trig(t.rotation);
    var u := t.scale.x * (p.x - t.pivot.x);
    var v := t.scale.y * (p.y - t.pivot.y);
    Point(t.position.x + r.cos * u - r.sin * v, t.position.y + r.sin * u + r.cos * v)
  }

  /** The four canvas calls place every local point where PIXI places it,
      whatever the rotation is: translating by -pivot*scale and rotating about
      pivot*scale after scaling is PIXI's "turn about the pivot". */
  lemma {:induction false} TransformMatchesPixi(trig: Angle -> Rotation, t: Transform, p: Point)
    ensures MapPoint(trig, TransformCommands(t), p) == PixiLocalToParent(trig, t, p)
  {
    var cmds := TransformCommands(t);
    var r := trig(t.rotation);
    var sx, sy := t.scale.x, t.scale.y;
    var rx, ry := t.pivot.x * sx, t.pivot.y * sy;
    var q1 := MapOne(trig, cmds[3], p);
    var q2 := MapOne(trig, cmds[2], q1);
    var q3 := MapOne(trig, cmds[1], q2);
    var q4 := MapOne(trig, cmds[0], q3);
    MapFour(trig, cmds, p);
    var u := sx * (p.x - t.pivot.x);
    var v := sy * (p.y - t.pivot.y);
    assert q1 == Point(sx * p.x, sy * p.y);
    assert q1.x - rx == u && q1.y - ry == v;
    assert q2 == Point(rx + r.cos * u - r.sin * v, ry + r.sin * u + r.cos * v);
  }

  /** Four calls act on a point last call first. */
  lemma MapFour(trig: Angle -> Rotation, cmds: seq<Command>, p: Point)
    requires |cmds| == 4
    ensures MapPoint(trig, cmds, p)
         == MapOne(trig, cmds[0], MapOne(trig, cmds[1], MapOne(trig, cmds[2], MapOne(trig, cmds[3], p))))
  {
    var q1 := MapOne(trig, cmds[3], p);
    var q2 := MapOne(trig, cmds[2], q1);
    var q3 := MapOne(trig, cmds[1], q2);
    assert cmds[..3][..2] == cmds[..2] && cmds[..2][..1] == cmds[..1] && cmds[..1][..0] == [];
    MapLast(trig, cmds, p);
    MapLast(trig, cmds[..3], q1);
    MapLast(trig, cmds[..2], q2);
    MapLast(trig, cmds[..1], q3);
  }

  lemma MapLast(trig: Angle -> Rotation, cmds: seq<Command>, p: Point)
    requires |cmds| > 0
    ensures MapPoint(trig, cmds, p) == MapPoint(trig, cmds[..|cmds| - 1], MapOne(trig, cmds[|cmds| - 1], p))
  {
  }

  /** In particular the pivot lands exactly on the position. */
  lemma PivotLandsOnPosition(trig: Angle -> Rotation, t: Transform)
    ensures MapPoint(trig, TransformCommands(t), t.pivot) == t.position
  {
    TransformMatchesPixi(trig, t, t.pivot);
  }
}
