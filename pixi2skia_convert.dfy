/** The current PIXI -> Skia translator (src/ts/core/pixi2skia/convert.ts).

    Every renderer appends to a `Canvas` and is proved against a function
    that gives the commands it appends; the lemmas state what those command
    lists mean: balanced save/restore, the paint order inside a shape, which
    draws a style allows, and the order in which the tree is visited. The
    texture preload is proved against a fold over the requests the walk
    issues, and the lemmas about that fold state what the cache holds. */
module Pixi2Skia {
  import opened Common
  import opened Geometry
  import opened Skia
  import opened Primitives
  import opened Scene

  // ---------------------------------------------------------------------
  // Segments

  /** The style record `_extractPixiGraphicsData` builds for an entry. */
  datatype Style = Style(fillColor: int, lineColor: int, lineWidth: real, isClosed: bool)

  datatype Segment = Segment(shape: Shape, style: Style)

  /** `_extractPixiGraphicsData`: one segment per graphicsData entry, in the
      same order and with the same shape; a missing fill or line style gives
      the colour 0x000000 and a missing line style the width 0; every segment
      carries the Graphics object's isClosed. */
  function ExtractPixiGraphicsData(data: seq<GraphicsData>, isClosed: bool): (r: seq<Segment>)
    ensures |r| == |data|
    ensures forall i :: 0 <= i < |r| ==>
      && r[i].shape == data[i].shape
      && r[i].style.isClosed == isClosed
      && (data[i].fillStyle.None? ==> r[i].style.fillColor == 0)
      && (data[i].fillStyle.Some? ==> r[i].style.fillColor == data[i].fillStyle.value.color)
      && (data[i].lineStyle.None? ==> r[i].style.lineColor == 0 && r[i].style.lineWidth == 0.0)
      && (data[i].lineStyle.Some? ==> r[i].style.lineColor == data[i].lineStyle.value.color
                                      && r[i].style.lineWidth == data[i].lineStyle.value.width)
  {
    seq(|data|, i requires 0 <= i < |data| =>
      var d := data[i];
      Segment(d.shape,
              Style(if d.fillStyle.Some? then d.fillStyle.value.color else 0,
                    if d.lineStyle.Some? then d.lineStyle.value.color else 0,
                    if d.lineStyle.Some? then d.lineStyle.value.width else 0.0,
                    isClosed)))
  }

  /** The extraction never looks at a style's `visible` flag: an entry whose
      fill or line PIXI would not paint gives the same segment as one it
      would. */
  lemma ExtractIgnoresVisibility(data: seq<GraphicsData>, data': seq<GraphicsData>, isClosed: bool)
    requires |data| == |data'|
    requires forall i :: 0 <= i < |data| ==>
      && data[i].shape == data'[i].shape
      && data[i].fillStyle.Some? == data'[i].fillStyle.Some?
      && data[i].lineStyle.Some? == data'[i].lineStyle.Some?
      && (data[i].fillStyle.Some? ==> data[i].fillStyle.value.color == data'[i].fillStyle.value.color)
      && (data[i].lineStyle.Some? ==> data[i].lineStyle.value.color == data'[i].lineStyle.value.color
                                      && data[i].lineStyle.value.width == data'[i].lineStyle.value.width)
    ensures ExtractPixiGraphicsData(data, isClosed) == ExtractPixiGraphicsData(data', isClosed)
  {
    var r, r' := ExtractPixiGraphicsData(data, isClosed), ExtractPixiGraphicsData(data', isClosed);
    forall i | 0 <= i < |r| ensures r[i] == r'[i] {
    }
  }

  // ---------------------------------------------------------------------
  // What each renderer draws

  /** The commands one segment draws: each of the three supported shapes
      gets its paint passes on its path, filled and stroked as its style
      allows; any other type is skipped (with a console warning). */
  function SegmentCommands(seg: Segment): seq<Command>
  {
    if seg.shape.OtherShape? then []
    else PaintPasses(SegmentPath(seg), Filled(seg), seg.style.fillColor, seg.style.lineColor, seg.style.lineWidth)
  }

  /** The path a segment is drawn on. */
  function SegmentPath(seg: Segment): seq<PathVerb>
  {
    match seg.shape
    case Rect(x, y, w, h) => RectanglePath(x, y, w, h)
    case Circ(x, y, radius) => CirclePath(x, y, radius)
    case Poly(points) => PolygonPath(points, seg.style.isClosed)
    case OtherShape(_) => []
  }

  /** A segment is filled when it is a rectangle or a circle, or a polygon
      with a truthy fill colour; stroked when it is one of the three shapes
      and its line width is positive. */
  predicate Filled(seg: Segment)
  {
    seg.shape.Rect? || seg.shape.Circ? || (seg.shape.Poly? && seg.style.fillColor != 0)
  }

  predicate Stroked(seg: Segment)
  {
    !seg.shape.OtherShape? && seg.style.lineWidth > 0.0
  }

  /** The segments' commands, in list order. */
  function SegmentsCommands(segs: seq<Segment>): seq<Command>
  {
    if segs == [] then [] else SegmentsCommands(segs[..|segs| - 1]) + SegmentCommands(segs[|segs| - 1])
  }

  /** `_renderPixiGraphics`: save, the four transform calls, the segments,
      restore. */
  function GraphicsCommands(t: Transform, data: seq<GraphicsData>, isClosed: bool): seq<Command>
  {
    [Save] + TransformCommands(t) + SegmentsCommands(ExtractPixiGraphicsData(data, isClosed)) + [Restore]
  }

  /** `textureCache.get(key)`: `undefined` on a miss. */
  function Lookup(cache: map<string, Image>, key: string): Option<Image>
  {
    if key in cache then Some(cache[key]) else None
  }

  /** `_renderPixiSprite`: one drawImage of whatever the cache holds for the
      sprite's first texture id, at the sprite's position, with no paint. */
  function SpriteCommands(key: string, x: real, y: real, cache: map<string, Image>): seq<Command>
  {
    [DrawImage(Lookup(cache, key), x, y)]
  }

  /** What rendering one child of a container appends. */
  function NodeCommands(n: Node, cache: map<string, Image>): seq<Command>
    decreases n
  {
    match n
    case Sprite(key, x, y, _, _) => SpriteCommands(key, x, y, cache)
    case Graphics(t, data, isClosed, _) => GraphicsCommands(t, data, isClosed)
    case Container(cs) => ContainerCommands(cs, cache)
    case Other => []
  }

  /** `_renderPixiContainer`: the children's commands in list order, and
      nothing for the container itself. */
  function ContainerCommands(cs: seq<Node>, cache: map<string, Image>): seq<Command>
    decreases cs
  {
    if cs == [] then [] else ContainerCommands(cs[..|cs| - 1], cache) + NodeCommands(cs[|cs| - 1], cache)
  }

  // ---------------------------------------------------------------------
  // Renderers

  /** `_applyPixiTransformationsToSkia`. */
  method ApplyPixiTransformationsToSkia(t: Transform, canvas: Canvas)
    modifies canvas
    ensures canvas.commands == old(canvas.commands) + TransformCommands(t)
  {
    ghost var start := canvas.commands;
    ghost var cmds := TransformCommands(t);
    assert |cmds| == 4;
    canvas.Translate(t.position.x, t.position.y);
    assert canvas.commands == start + cmds[..1];
    canvas.Translate(-t.pivot.x * t.scale.x, -t.pivot.y * t.scale.y);
    assert canvas.commands[|start| + 1] == Command.Translate(-t.pivot.x * t.scale.x, -t.pivot.y * t.scale.y);
    assert cmds[1] == Command.Translate(-t.pivot.x * t.scale.x, -t.pivot.y * t.scale.y);
    assert canvas.commands == start + cmds[..2];
    var rx := t.pivot.x * t.scale.x;
    var ry := t.pivot.y * t.scale.y;
    canvas.Rotate(RadiansToDegrees(t.rotation), rx, ry);
    assert canvas.commands == start + cmds[..3];
    canvas.Scale(t.scale.x, t.scale.y);
    assert cmds[..4] == cmds;
  }

  /** `_renderRectangle`. */
  method RenderRectangle(canvas: Canvas, x: real, y: real, width: real, height: real, style: Style)
    modifies canvas
    ensures canvas.commands == old(canvas.commands)
      + RectangleCommands(x, y, width, height, style.fillColor, style.lineColor, style.lineWidth)
  {
    var path := [MoveTo(Point(x, y)), LineTo(Point(x + width, y)), LineTo(Point(x + width, y + height)),
                 LineTo(Point(x, y + height)), Close];
    var fillPaint := FillPaint(FromDecimal(style.fillColor));
    var strokePaint := StrokePaint(FromDecimal(style.lineColor), style.lineWidth);
    canvas.DrawPath(path, fillPaint);
    if style.lineWidth > 0.0 {
      canvas.DrawPath(path, strokePaint);
    }
  }

  /** `_renderCircle`. */
  method RenderCircle(canvas: Canvas, x: real, y: real, radius: real, style: Style)
    modifies canvas
    ensures canvas.commands == old(canvas.commands)
      + CircleCommands(x, y, radius, style.fillColor, style.lineColor, style.lineWidth)
  {
    var path := [AddCircle(Point(x, y), radius)];
    var fillPaint := FillPaint(FromDecimal(style.fillColor));
    var strokePaint := StrokePaint(FromDecimal(style.lineColor), style.lineWidth);
    canvas.DrawPath(path, fillPaint);
    if style.lineWidth > 0.0 {
      canvas.DrawPath(path, strokePaint);
    }
  }

  /** `_renderPolygon`: close only when the style says so, fill only for a
      truthy fill colour, stroke only for a positive width. */
  method RenderPolygon(canvas: Canvas, points: PolyPoints, style: Style)
    modifies canvas
    ensures canvas.commands == old(canvas.commands)
      + PolygonCommands(points, style.fillColor, style.lineColor, style.lineWidth, style.isClosed)
  {
    var path := TracePolygon(points, style.isClosed);
    if style.fillColor != 0 {
      canvas.DrawPath(path, FillPaint(FromDecimal(style.fillColor)));
    }
    if style.lineWidth > 0.0 {
      canvas.DrawPath(path, StrokePaint(FromDecimal(style.lineColor), style.lineWidth));
    }
  }

  /** One iteration of the `data.forEach` in `_renderPixiGraphics`. */
  method RenderSegment(canvas: Canvas, seg: Segment)
    modifies canvas
    ensures canvas.commands == old(canvas.commands) + SegmentCommands(seg)
  {
    match seg.shape
    case Rect(x, y, w, h) => RenderRectangle(canvas, x, y, w, h, seg.style);
    case Circ(x, y, radius) => RenderCircle(canvas, x, y, radius, seg.style);
    case Poly(points) => RenderPolygon(canvas, points, seg.style);
    case OtherShape(_) =>   // debugLog('warn', 'Unsupported shape type'): console only
  }

  /** The `data.forEach` of `_renderPixiGraphics`: the segments in list
      order. */
  method RenderSegments(canvas: Canvas, segs: seq<Segment>)
    modifies canvas
    ensures canvas.commands == old(canvas.commands) + SegmentsCommands(segs)
  {
    var i := 0;
    while i < |segs|
      invariant 0 <= i <= |segs|
      invariant canvas.commands == old(canvas.commands) + SegmentsCommands(segs[..i])
    {
      TakeLonger(segs, i);
      RenderSegment(canvas, segs[i]);
      AppendAssoc(old(canvas.commands), SegmentsCommands(segs[..i]), SegmentCommands(segs[i]));
      i := i + 1;
    }
    assert segs[..i] == segs;
  }

  /** `_renderPixiGraphics`: save, transform, the segments, restore. */
  method RenderPixiGraphics(g: Node, canvas: Canvas)
    requires g.Graphics?
    modifies canvas
    ensures canvas.commands == old(canvas.commands) + GraphicsCommands(g.transform, g.data, g.isClosed)
  {
    canvas.Save();
    ApplyPixiTransformationsToSkia(g.transform, canvas);
    var segs := ExtractPixiGraphicsData(g.data, g.isClosed);
    RenderSegments(canvas, segs);
    canvas.Restore();
    AppendAssoc5(old(canvas.commands), [Save], TransformCommands(g.transform), SegmentsCommands(segs), [Restore]);
  }

  /** `_renderPixiSprite`: the cache entry is used without a check. */
  method RenderPixiSprite(key: string, x: real, y: real, canvas: Canvas, cache: map<string, Image>)
    modifies canvas
    ensures canvas.commands == old(canvas.commands) + SpriteCommands(key, x, y, cache)
  {
    var texture := if key in cache then Some(cache[key]) else None;
    canvas.DrawImage(texture, x, y);
  }

  /** `_renderPixiContainer`: the children in list order, tested as Sprite,
      then Graphics, then Container. */
  method RenderPixiContainer(cs: seq<Node>, canvas: Canvas, cache: map<string, Image>)
    modifies canvas
    ensures canvas.commands == old(canvas.commands) + ContainerCommands(cs, cache)
    decreases cs
  {
    var i := 0;
    while i < |cs|
      invariant 0 <= i <= |cs|
      invariant canvas.commands == old(canvas.commands) + ContainerCommands(cs[..i], cache)
    {
      TakeLonger(cs, i);
      RenderPixiChild(cs[i], canvas, cache);
      AppendAssoc(old(canvas.commands), ContainerCommands(cs[..i], cache), NodeCommands(cs[i], cache));
      i := i + 1;
    }
    assert cs[..i] == cs;
  }

  /** One child of the `children.forEach` in `_renderPixiContainer`. */
  method RenderPixiChild(child: Node, canvas: Canvas, cache: map<string, Image>)
    modifies canvas
    ensures canvas.commands == old(canvas.commands) + NodeCommands(child, cache)
    decreases child
  {
    match child
    case Sprite(key, x, y, _, _) => RenderPixiSprite(key, x, y, canvas, cache);
    case Graphics(_, _, _, _) => RenderPixiGraphics(child, canvas);
    case Container(children) => RenderPixiContainer(children, canvas, cache);
    case Other =>   // debugLog('warn', 'unknow type'): console only
  }

  // ---------------------------------------------------------------------
  // Properties of the draw lists

  lemma {:induction false} SegmentsCommandsAppend(a: seq<Segment>, b: seq<Segment>)
    ensures SegmentsCommands(a + b) == SegmentsCommands(a) + SegmentsCommands(b)
    decreases |b|
  {
    if b == [] {
      assert a + b == a;
    } else {
      var b', x := b[..|b| - 1], b[|b| - 1];
      AppendLast(a, b);
      SegmentsCommandsAppend(a, b');
      AppendAssoc(SegmentsCommands(a), SegmentsCommands(b'), SegmentCommands(x));
    }
  }

  /** Inside one segment: only path draws, the fill (when there is one)
      before the stroke, and no stack command. */
  lemma SegmentPaintOrder(seg: Segment)
    ensures var r := SegmentCommands(seg);
      && StackFree(r)
      && (forall c <- r :: c.DrawPath?)
      && |r| <= 2
      && (|r| == 2 ==> r[0].paint.FillPaint? && r[1].paint.StrokePaint?)
  {
    if !seg.shape.OtherShape? {
      PaintPassesOrder(SegmentPath(seg), Filled(seg), seg.style.fillColor, seg.style.lineColor, seg.style.lineWidth);
    }
  }

  lemma {:induction false} SegmentsOnlyDrawPaths(segs: seq<Segment>)
    ensures StackFree(SegmentsCommands(segs))
    ensures forall c <- SegmentsCommands(segs) :: c.DrawPath?
    decreases |segs|
  {
    if segs != [] {
      SegmentsOnlyDrawPaths(segs[..|segs| - 1]);
      SegmentPaintOrder(segs[|segs| - 1]);
    }
  }

  function FilledCount(segs: seq<Segment>): nat
  {
    if segs == [] then 0 else FilledCount(segs[..|segs| - 1]) + (if Filled(segs[|segs| - 1]) then 1 else 0)
  }

  function StrokedCount(segs: seq<Segment>): nat
  {
    if segs == [] then 0 else StrokedCount(segs[..|segs| - 1]) + (if Stroked(segs[|segs| - 1]) then 1 else 0)
  }

  /** Which draws the styles allow: the segments draw exactly one fill per
      filled segment and one stroke per stroked segment. */
  lemma {:induction false} SegmentsPaintCounts(segs: seq<Segment>)
    ensures Fills(Paints(SegmentsCommands(segs))) == FilledCount(segs)
    ensures Strokes(Paints(SegmentsCommands(segs))) == StrokedCount(segs)
    decreases |segs|
  {
    if segs != [] {
      var init := segs[..|segs| - 1];
      var seg := segs[|segs| - 1];
      SegmentsPaintCounts(init);
      PaintsAppend(SegmentsCommands(init), SegmentCommands(seg));
      CountsAppend(Paints(SegmentsCommands(init)), Paints(SegmentCommands(seg)));
      if !seg.shape.OtherShape? {
        PaintPassesOrder(SegmentPath(seg), Filled(seg), seg.style.fillColor, seg.style.lineColor, seg.style.lineWidth);
      }
    }
  }

  /** An entry of an unsupported type is skipped: it draws nothing and does
      not disturb the entries around it. */
  lemma UnsupportedSegmentSkipped(a: seq<Segment>, seg: Segment, b: seq<Segment>)
    requires seg.shape.OtherShape?
    ensures SegmentsCommands(a + [seg] + b) == SegmentsCommands(a + b)
  {
    assert SegmentsCommands(a + [seg]) == SegmentsCommands(a) by {
      assert (a + [seg])[..|a|] == a;
      assert SegmentCommands(seg) == [];
    }
    SegmentsCommandsAppend(a + [seg], b);
    SegmentsCommandsAppend(a, b);
  }

  /** A Graphics node's commands open with a save, close with a restore,
      carry the four transform calls right after the save, touch the stack
      nowhere else, and so leave the save depth as they found it. */
  lemma GraphicsBracketed(t: Transform, data: seq<GraphicsData>, isClosed: bool)
    ensures var r := GraphicsCommands(t, data, isClosed);
      && |r| >= 6
      && r[0] == Save && r[|r| - 1] == Restore
      && r[1..5] == TransformCommands(t)
      && StackFree(r[1..|r| - 1])
      && DepthNeutral(r)
  {
    var segs := SegmentsCommands(ExtractPixiGraphicsData(data, isClosed));
    var body := TransformCommands(t) + segs;
    SegmentsOnlyDrawPaths(ExtractPixiGraphicsData(data, isClosed));
    assert StackFree(body);
    var r := GraphicsCommands(t, data, isClosed);
    assert r == [Save] + body + [Restore];
    assert r[1..|r| - 1] == body;
    BracketedIsNeutral(body);
  }

  lemma {:induction false} ContainerCommandsAppend(a: seq<Node>, b: seq<Node>, cache: map<string, Image>)
    ensures ContainerCommands(a + b, cache) == ContainerCommands(a, cache) + ContainerCommands(b, cache)
    decreases |b|
  {
    if b == [] {
      assert a + b == a;
    } else {
      var b' := b[..|b| - 1];
      AppendLast(a, b);
      ContainerCommandsAppend(a, b', cache);
      AppendAssoc(ContainerCommands(a, cache), ContainerCommands(b', cache), NodeCommands(b[|b| - 1], cache));
    }
  }

  /** A container adds nothing of its own: nesting children in a container
      draws exactly what splicing them into the parent's list draws. */
  lemma ContainerIsTransparent(a: seq<Node>, cs: seq<Node>, b: seq<Node>, cache: map<string, Image>)
    ensures ContainerCommands(a + [Container(cs)] + b, cache) == ContainerCommands(a + cs + b, cache)
  {
    ContainerCommandsAppend(a + [Container(cs)], b, cache);
    ContainerCommandsAppend(a, [Container(cs)], cache);
    ContainerCommandsAppend(a + cs, b, cache);
    ContainerCommandsAppend(a, cs, cache);
    assert [Container(cs)][..0] == [];
  }

  /** Rendering any tree leaves the save depth as it found it. */
  lemma {:induction false} ContainerNeutral(cs: seq<Node>, cache: map<string, Image>)
    ensures DepthNeutral(ContainerCommands(cs, cache))
    decreases cs
  {
    if cs == [] {
      forall d: nat ensures Run(d, ContainerCommands(cs, cache)) == d {
      }
    } else {
      ContainerNeutral(cs[..|cs| - 1], cache);
      NodeNeutral(cs[|cs| - 1], cache);
      NeutralConcat(ContainerCommands(cs[..|cs| - 1], cache), NodeCommands(cs[|cs| - 1], cache));
    }
  }

  lemma {:induction false} NodeNeutral(n: Node, cache: map<string, Image>)
    ensures DepthNeutral(NodeCommands(n, cache))
    decreases n
  {
    match n
    case Sprite(key, x, y, _, _) =>
      var r := SpriteCommands(key, x, y, cache);
      forall d: nat ensures Run(d, r) == d {
        StackFreeRun(d, r);
      }
    case Graphics(t, data, isClosed, _) => GraphicsBracketed(t, data, isClosed);
    case Container(cs) => ContainerNeutral(cs, cache);
    case Other =>
      forall d: nat ensures Run(d, NodeCommands(n, cache)) == d {
      }
  }

  /** The image draws a list of sprites calls for, in order. */
  function SpriteDraws(sprites: seq<Node>, cache: map<string, Image>): seq<Command>
  {
    if sprites == [] then []
    else
      var s := sprites[|sprites| - 1];
      SpriteDraws(sprites[..|sprites| - 1], cache)
        + (if s.Sprite? then [DrawImage(Lookup(cache, s.key), s.x, s.y)] else [])
  }

  lemma {:induction false} SpriteDrawsAppend(a: seq<Node>, b: seq<Node>, cache: map<string, Image>)
    ensures SpriteDraws(a + b, cache) == SpriteDraws(a, cache) + SpriteDraws(b, cache)
    decreases |b|
  {
    if b == [] {
      assert a + b == a;
    } else {
      AppendLast(a, b);
      SpriteDrawsAppend(a, b[..|b| - 1], cache);
    }
  }

  /** The visiting order: the image draws of a render are one per sprite
      reached through containers, depth first and in list order, each at the
      sprite's position with the cache entry of its texture id. */
  lemma {:induction false} ImageDrawsFollowSprites(cs: seq<Node>, cache: map<string, Image>)
    ensures ImageDraws(ContainerCommands(cs, cache)) == SpriteDraws(SpritesIn(cs), cache)
    decreases cs
  {
    if cs != [] {
      var init, last := cs[..|cs| - 1], cs[|cs| - 1];
      ImageDrawsFollowSprites(init, cache);
      NodeImageDraws(last, cache);
      ImageDrawsAppend(ContainerCommands(init, cache), NodeCommands(last, cache));
      SpriteDrawsAppend(SpritesIn(init), SpritesOf(last), cache);
    }
  }

  lemma {:induction false} NodeImageDraws(n: Node, cache: map<string, Image>)
    ensures ImageDraws(NodeCommands(n, cache)) == SpriteDraws(SpritesOf(n), cache)
    decreases n
  {
    match n
    case Sprite(key, x, y, _, _) =>
      assert SpriteCommands(key, x, y, cache)[..0] == [];
      assert [n][..0] == [];
    case Graphics(t, data, isClosed, _) => GraphicsDrawNoImages(t, data, isClosed);
    case Container(cs) => ImageDrawsFollowSprites(cs, cache);
    case Other =>
  }

  lemma GraphicsDrawNoImages(t: Transform, data: seq<GraphicsData>, isClosed: bool)
    ensures ImageDraws(GraphicsCommands(t, data, isClosed)) == []
  {
    var segs := ExtractPixiGraphicsData(data, isClosed);
    SegmentsOnlyDrawPaths(segs);
    var r := GraphicsCommands(t, data, isClosed);
    assert forall c <- r :: !c.DrawImage? by {
      forall c <- r ensures !c.DrawImage? {
        assert c in [Save] + TransformCommands(t) || c in SegmentsCommands(segs) || c == Restore;
      }
    }
    NoImageDraws(r);
  }

  lemma {:induction false} NoImageDraws(cmds: seq<Command>)
    requires forall c <- cmds :: !c.DrawImage?
    ensures ImageDraws(cmds) == []
    decreases |cmds|
  {
    if cmds != [] {
      NoImageDraws(cmds[..|cmds| - 1]);
    }
  }

  // ---------------------------------------------------------------------
  // Texture preload

  /** The cache of decoded textures (a Map<string, Image>). */
  class TextureCache {
    var entries: map<string, Image>

    constructor ()
      ensures entries == map[]
    {
      entries := map[];
    }

    /** `Map.set`: a repeated key is overwritten. */
    method Set(url: string, image: Image)
      modifies this
      ensures entries == old(entries)[url := image]
    {
      entries := entries[url := image];
    }
  }

  /** `__loadTextureFrom` with fetch, createImageBitmap and
      MakeImageFromCanvasImageSource abstracted: the answer to the n-th load
      is `respond(n, request)`, and `None` is a load that throws (a failed
      fetch or a null SkImage). The loader keeps the requests it was given,
      in order. */
  class TextureLoader {
    var issued: seq<TextureRequest>
    const respond: (nat, TextureRequest) -> Option<Image>

    constructor (respond: (nat, TextureRequest) -> Option<Image>)
      ensures issued == [] && this.respond == respond
    {
      issued := [];
      this.respond := respond;
    }

    method Load(req: TextureRequest) returns (image: Option<Image>)
      modifies this
      ensures issued == old(issued) + [req]
      ensures image == respond(|old(issued)|, req)
    {
      image := respond(|issued|, req);
      issued := issued + [req];
    }
  }

  /** Where the preload stands: the cache so far, how many loads have been
      started, and whether one of them threw (which rejects the preload). */
  datatype LoadState = LoadState(cache: map<string, Image>, issued: nat, failed: bool)

  /** One `await __loadTextureFrom(...)` followed by `set`. */
  function LoadStep(respond: (nat, TextureRequest) -> Option<Image>, st: LoadState, req: TextureRequest): LoadState
  {
    if st.failed then st
    else match respond(st.issued, req)
      case None => LoadState(st.cache, st.issued + 1, true)
      case Some(image) => LoadState(st.cache[req.url := image], st.issued + 1, false)
  }

  /** The loads of `reqs`, one at a time and in order. */
  function LoadAll(respond: (nat, TextureRequest) -> Option<Image>, st: LoadState, reqs: seq<TextureRequest>): LoadState
  {
    if reqs == [] then st else LoadStep(respond, LoadAll(respond, st, reqs[..|reqs| - 1]), reqs[|reqs| - 1])
  }

  lemma {:induction false} LoadAllAppend(respond: (nat, TextureRequest) -> Option<Image>, st: LoadState,
                                         a: seq<TextureRequest>, b: seq<TextureRequest>)
    ensures LoadAll(respond, st, a + b) == LoadAll(respond, LoadAll(respond, st, a), b)
    decreases |b|
  {
    if b == [] {
      assert a + b == a;
    } else {
      AppendLast(a, b);
      LoadAllAppend(respond, st, a, b[..|b| - 1]);
    }
  }

  /** Once a load has thrown, nothing more is loaded. */
  lemma {:induction false} FailureStops(respond: (nat, TextureRequest) -> Option<Image>, st: LoadState, reqs: seq<TextureRequest>)
    requires st.failed
    ensures LoadAll(respond, st, reqs) == st
    decreases |reqs|
  {
    if reqs != [] {
      FailureStops(respond, st, reqs[..|reqs| - 1]);
    }
  }

  /** Loads are started one at a time in request order, and the preload
      fails exactly at the first load that throws: every load before it
      succeeded, none after it is started, and without a throwing load all
      of them are started and the preload succeeds. */
  lemma {:induction false} LoadsInOrder(respond: (nat, TextureRequest) -> Option<Image>, st: LoadState, reqs: seq<TextureRequest>)
    requires !st.failed
    ensures var r := LoadAll(respond, st, reqs);
      && st.issued <= r.issued <= st.issued + |reqs|
      && (forall j :: 0 <= j < r.issued - st.issued - (if r.failed then 1 else 0) ==>
            respond(st.issued + j, reqs[j]).Some?)
      && (r.failed ==> r.issued > st.issued && respond(r.issued - 1, reqs[r.issued - 1 - st.issued]).None?)
      && (!r.failed ==> r.issued == st.issued + |reqs|)
    decreases |reqs|
  {
    if reqs != [] {
      var init := reqs[..|reqs| - 1];
      LoadsInOrder(respond, st, init);
      var m := LoadAll(respond, st, init);
      if !m.failed {
        assert forall j :: 0 <= j < |init| ==> reqs[j] == init[j];
      }
    }
  }

  /** The last load of a successful preload: the loads before it succeeded
      too, and it sets the image it got under its url. */
  lemma LoadLast(respond: (nat, TextureRequest) -> Option<Image>, st: LoadState, reqs: seq<TextureRequest>)
    requires reqs != [] && !st.failed && !LoadAll(respond, st, reqs).failed
    ensures var m := LoadAll(respond, st, reqs[..|reqs| - 1]);
      && !m.failed && m.issued == st.issued + |reqs| - 1
      && respond(m.issued, reqs[|reqs| - 1]).Some?
      && LoadAll(respond, st, reqs).cache == m.cache[reqs[|reqs| - 1].url := respond(m.issued, reqs[|reqs| - 1]).value]
  {
    var m := LoadAll(respond, st, reqs[..|reqs| - 1]);
    assert !m.failed;
    LoadsInOrder(respond, st, reqs[..|reqs| - 1]);
  }

  /** After a successful preload the cache holds exactly the keys it held
      before and the urls requested. */
  lemma {:induction false} LoadedKeys(respond: (nat, TextureRequest) -> Option<Image>, st: LoadState, reqs: seq<TextureRequest>)
    requires !st.failed && !LoadAll(respond, st, reqs).failed
    ensures LoadAll(respond, st, reqs).cache.Keys == st.cache.Keys + Urls(reqs)
    decreases |reqs|
  {
    if reqs != [] {
      LoadLast(respond, st, reqs);
      LoadedKeys(respond, st, reqs[..|reqs| - 1]);
    }
  }

  /** A key no request names keeps the image it had. */
  lemma {:induction false} UnrequestedKept(respond: (nat, TextureRequest) -> Option<Image>, st: LoadState, reqs: seq<TextureRequest>, u: string)
    requires !st.failed && !LoadAll(respond, st, reqs).failed
    requires u in st.cache && u !in Urls(reqs)
    ensures u in LoadAll(respond, st, reqs).cache && LoadAll(respond, st, reqs).cache[u] == st.cache[u]
    decreases |reqs|
  {
    if reqs != [] {
      LoadLast(respond, st, reqs);
      UnrequestedKept(respond, st, reqs[..|reqs| - 1], u);
    }
  }

  /** A requested url maps to the image of the LAST request for it: a
      repeated key is loaded again and overwritten. */
  lemma {:induction false} LastLoadWins(respond: (nat, TextureRequest) -> Option<Image>, st: LoadState, reqs: seq<TextureRequest>, j: nat)
    requires !st.failed && !LoadAll(respond, st, reqs).failed
    requires j < |reqs| && forall k :: j < k < |reqs| ==> reqs[k].url != reqs[j].url
    ensures reqs[j].url in LoadAll(respond, st, reqs).cache
    ensures Some(LoadAll(respond, st, reqs).cache[reqs[j].url]) == respond(st.issued + j, reqs[j])
    decreases |reqs|
  {
    var init := reqs[..|reqs| - 1];
    LoadLast(respond, st, reqs);
    if j < |init| {
      assert reqs[j] == init[j];
      forall k | j < k < |init| ensures init[k].url != init[j].url {
        assert init[k] == reqs[k];
      }
      LastLoadWins(respond, st, init, j);
    }
  }

  /** The preload from `st0` with the loader's log at `log0` has got as far
      as `cache`, `log` and `ok`: the cache and the number of loads started
      are those of the fold over `reqs`, `ok` says no load threw, and the
      loader was asked for a prefix of `reqs`, in order. */
  ghost predicate Preloaded(respond: (nat, TextureRequest) -> Option<Image>, st0: LoadState, reqs: seq<TextureRequest>,
                            log0: seq<TextureRequest>, cache: map<string, Image>, log: seq<TextureRequest>, ok: bool)
  {
    && !st0.failed && st0.issued == |log0|
    && LoadAll(respond, st0, reqs) == LoadState(cache, |log|, !ok)
    && |log0| <= |log| <= |log0| + |reqs|
    && log == log0 + reqs[..|log| - |log0|]
  }

  lemma ChainPreloads(respond: (nat, TextureRequest) -> Option<Image>, st0: LoadState, a: seq<TextureRequest>,
                      b: seq<TextureRequest>, log0: seq<TextureRequest>, c1: map<string, Image>,
                      l1: seq<TextureRequest>, c2: map<string, Image>, l2: seq<TextureRequest>, ok: bool)
    requires Preloaded(respond, st0, a, log0, c1, l1, true)
    requires Preloaded(respond, LoadState(c1, |l1|, false), b, l1, c2, l2, ok)
    ensures Preloaded(respond, st0, a + b, log0, c2, l2, ok)
  {
    LoadAllAppend(respond, st0, a, b);
    LoadsInOrder(respond, st0, a);
    assert a[..|l1| - |log0|] == a;
    assert (a + b)[..|l2| - |log0|] == a + b[..|l2| - |l1|];
  }

  lemma FailedPreloadStops(respond: (nat, TextureRequest) -> Option<Image>, st0: LoadState, a: seq<TextureRequest>,
                           b: seq<TextureRequest>, log0: seq<TextureRequest>, c: map<string, Image>, l: seq<TextureRequest>)
    requires Preloaded(respond, st0, a, log0, c, l, false)
    ensures Preloaded(respond, st0, a + b, log0, c, l, false)
  {
    LoadAllAppend(respond, st0, a, b);
    FailureStops(respond, LoadAll(respond, st0, a), b);
    assert (a + b)[..|l| - |log0|] == a[..|l| - |log0|];
  }

  /** A failure while parsing the i-th child fails the whole walk, with
      nothing loaded after it. */
  lemma FailedPrefixStops(respond: (nat, TextureRequest) -> Option<Image>, st0: LoadState, cs: seq<Node>, i: nat,
                          log0: seq<TextureRequest>, c: map<string, Image>, l: seq<TextureRequest>)
    requires i < |cs|
    requires Preloaded(respond, st0, RequestsIn(cs[..i + 1]), log0, c, l, false)
    ensures Preloaded(respond, st0, RequestsIn(cs), log0, c, l, false)
  {
    FailedPreloadStops(respond, st0, RequestsIn(cs[..i + 1]), RequestsIn(cs[i + 1..]), log0, c, l);
    RequestsInAppend(cs[..i + 1], cs[i + 1..]);
    assert cs[..i + 1] + cs[i + 1..] == cs;
  }

  /** `__parseTextures`: a sequential for-of over the children; a throwing
      load rejects at once. */
  method ParseTextures(cs: seq<Node>, cache: TextureCache, loader: TextureLoader) returns (ok: bool)
    modifies cache, loader
    ensures Preloaded(loader.respond, LoadState(old(cache.entries), |old(loader.issued)|, false), RequestsIn(cs),
                      old(loader.issued), cache.entries, loader.issued, ok)
    decreases cs
  {
    ghost var respond := loader.respond;
    ghost var st0 := LoadState(cache.entries, |loader.issued|, false);
    ghost var log0 := loader.issued;
    var i := 0;
    while i < |cs|
      invariant 0 <= i <= |cs|
      invariant loader.respond == respond
      invariant Preloaded(respond, st0, RequestsIn(cs[..i]), log0, cache.entries, loader.issued, true)
    {
      RequestsInStep(cs, i);
      ghost var c1, l1 := cache.entries, loader.issued;
      ok := ParseChild(cs[i], cache, loader);
      ChainPreloads(respond, st0, RequestsIn(cs[..i]), RequestsOf(cs[i]), log0, c1, l1, cache.entries, loader.issued, ok);
      if !ok {
        FailedPrefixStops(respond, st0, cs, i, log0, cache.entries, loader.issued);
        return;
      }
      i := i + 1;
    }
    assert cs[..i] == cs;
    ok := true;
  }

  /** One child of the for-of in `__parseTextures`: a sprite's texture is
      loaded and set under its first texture id; any other container is
      parsed recursively (Graphics objects included); anything else is
      passed over. */
  method ParseChild(child: Node, cache: TextureCache, loader: TextureLoader) returns (ok: bool)
    modifies cache, loader
    ensures Preloaded(loader.respond, LoadState(old(cache.entries), |old(loader.issued)|, false), RequestsOf(child),
                      old(loader.issued), cache.entries, loader.issued, ok)
    decreases child
  {
    match child
    case Sprite(key, _, _, w, h) =>
      var req := TextureRequest(key, w, h);
      assert [req][..0] == [];
      var image := loader.Load(req);
      if image.None? {
        return false;
      }
      cache.Set(key, image.value);
      ok := true;
    case Graphics(_, _, _, children) =>
      ok := ParseTextures(children, cache, loader);
    case Container(children) =>
      ok := ParseTextures(children, cache, loader);
    case Other =>
      ok := true;
  }

  /** `_preloadTextures`: parse the root's children into a new, empty
      cache. */
  method PreloadTextures(root: seq<Node>, loader: TextureLoader) returns (cache: TextureCache, ok: bool)
    modifies loader
    ensures fresh(cache)
    ensures Preloaded(loader.respond, LoadState(map[], |old(loader.issued)|, false), RequestsIn(root),
                      old(loader.issued), cache.entries, loader.issued, ok)
  {
    cache := new TextureCache();
    ok := ParseTextures(root, cache, loader);
  }

  /** After a successful preload, no sprite a render reaches misses the
      cache: every image draw of the render carries an image. */
  lemma NoCacheMissAfterPreload(respond: (nat, TextureRequest) -> Option<Image>, n: nat, root: seq<Node>)
    requires !LoadAll(respond, LoadState(map[], n, false), RequestsIn(root)).failed
    ensures var cache := LoadAll(respond, LoadState(map[], n, false), RequestsIn(root)).cache;
      forall c <- ImageDraws(ContainerCommands(root, cache)) :: c.DrawImage? && c.image.Some?
  {
    var cache := LoadAll(respond, LoadState(map[], n, false), RequestsIn(root)).cache;
    ImageDrawsFollowSprites(root, cache);
    RenderedSpritesRequested(root);
    LoadedKeys(respond, LoadState(map[], n, false), RequestsIn(root));
    SpriteDrawsHit(SpritesIn(root), cache);
  }

  lemma {:induction false} SpriteDrawsHit(sprites: seq<Node>, cache: map<string, Image>)
    requires forall s <- sprites :: s.Sprite? && s.key in cache
    ensures forall c <- SpriteDraws(sprites, cache) :: c.DrawImage? && c.image.Some?
    decreases |sprites|
  {
    if sprites != [] {
      SpriteDrawsHit(sprites[..|sprites| - 1], cache);
    }
  }

  // ---------------------------------------------------------------------
  // The conversion session

  /** How a `pixi2skia` session ends: the preload rejects (so does
      `pixi2skia`'s promise); or the drawing callback finds the capture falsy
      and its debugLog('err') throws out of that callback, with no call to
      `onComplete`; or the callback completes, calling `onComplete` when one
      was given. */
  datatype Outcome = PreloadRejected | CaptureFailed | Completed(calledBack: bool)

  /** `pixi2skia`: the preload completes before any drawing; then the same
      tree and cache are rendered onto the visible canvas and onto the
      recording canvas. Whether the recorder yields a picture is a
      parameter (`captureOk`), and so is whether a callback was given. */
  method Convert(root: seq<Node>, loader: TextureLoader, hasCallback: bool, captureOk: bool)
    returns (visible: Canvas?, capture: Canvas?, outcome: Outcome)
    modifies loader
    ensures var r := LoadAll(loader.respond, LoadState(map[], |old(loader.issued)|, false), RequestsIn(root));
      && (outcome.PreloadRejected? <==> r.failed)
      && (r.failed ==> visible == null && capture == null)
      && (!r.failed ==>
            && visible != null && capture != null && fresh(visible) && fresh(capture) && visible != capture
            && visible.commands == ContainerCommands(root, r.cache)
            && capture.commands == visible.commands
            && visible.Depth() == 0
            && (outcome.Completed? <==> captureOk)
            && (outcome.Completed? ==> outcome.calledBack == hasCallback))
  {
    var cache, ok := PreloadTextures(root, loader);
    if !ok {
      return null, null, PreloadRejected;
    }
    visible := new Canvas();
    capture := new Canvas();
    RenderPixiContainer(root, visible, cache.entries);
    RenderPixiContainer(root, capture, cache.entries);
    ContainerNeutral(root, cache.entries);
    assert visible.commands == ContainerCommands(root, cache.entries);
    assert Run(0, ContainerCommands(root, cache.entries)) == 0;
    if captureOk {
      outcome := Completed(hasCallback);
    } else {
      outcome := CaptureFailed;
    }
  }
}
