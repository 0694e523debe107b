/** The earlier PIXI -> Skia translator (src/ts/core/convert.ts): the same
    walk without textures, where sprites draw nothing and polygons are
    always closed and always filled, followed by its byte/Base64 helpers.

    As in the current translator, every renderer appends to a `Canvas` and
    is proved against a function giving the commands it appends. The
    lemmas state what those lists mean, and how they compare with what the
    current translator draws for the same tree. */
module LegacyConvert {
  import opened Common
  import opened Geometry
  import opened Skia
  import opened Primitives
  import opened Scene
  import Helpers
  import opened Base64
  import Pixi2Skia

  // ---------------------------------------------------------------------
  // Items

  /** One `{ type, shape, styles }` record `extractGraphicsData` builds
      (with no `isClosed`); the type is the shape's constructor. */
  datatype Item = Item(shape: Shape, styles: Styles)

  /** `extractGraphicsData`: one item per graphicsData entry, in order and
      with the same shape, defaulting a missing colour to 0x000000 and a
      missing line width to 0. */
  function ExtractGraphicsData(data: seq<GraphicsData>): (r: seq<Item>)
    ensures |r| == |data|
    ensures forall i :: 0 <= i < |r| ==>
      && r[i].shape == data[i].shape
      && (data[i].fillStyle.None? ==> r[i].styles.fillColor == 0)
      && (data[i].fillStyle.Some? ==> r[i].styles.fillColor == data[i].fillStyle.value.color)
      && (data[i].lineStyle.None? ==> r[i].styles.lineColor == 0 && r[i].styles.lineWidth == 0.0)
      && (data[i].lineStyle.Some? ==> r[i].styles.lineColor == data[i].lineStyle.value.color
                                      && r[i].styles.lineWidth == data[i].lineStyle.value.width)
  {
    seq(|data|, i requires 0 <= i < |data| =>
      var d := data[i];
      Item(d.shape,
           Styles(if d.fillStyle.Some? then d.fillStyle.value.color else 0,
                       if d.lineStyle.Some? then d.lineStyle.value.color else 0,
                       if d.lineStyle.Some? then d.lineStyle.value.width else 0.0)))
  }

  /** The two extractions read the same fields the same way: the earlier
      one is the current one without the `isClosed` flag. */
  lemma ExtractionsAgree(data: seq<GraphicsData>, isClosed: bool)
    ensures var items := ExtractGraphicsData(data);
      var segs := Pixi2Skia.ExtractPixiGraphicsData(data, isClosed);
      |items| == |segs|
      && forall i :: 0 <= i < |items| ==>
           && items[i].shape == segs[i].shape
           && items[i].styles == Styles(segs[i].style.fillColor, segs[i].style.lineColor, segs[i].style.lineWidth)
  {
  }

  // ---------------------------------------------------------------------
  // What each renderer draws

  /** The commands one item draws: rectangles and circles as in the
      current translator, polygons always closed and always filled, any
      other type nothing (a console warning). */
  function ItemCommands(item: Item): seq<Command>
  {
    var st := item.styles;
    match item.shape
    case Rect(x, y, w, h) => RectangleCommands(x, y, w, h, st.fillColor, st.lineColor, st.lineWidth)
    case Circ(x, y, radius) => CircleCommands(x, y, radius, st.fillColor, st.lineColor, st.lineWidth)
    case Poly(points) => ClosedPolygonCommands(points, st.fillColor, st.lineColor, st.lineWidth)
    case OtherShape(_) => []
  }

  /** The items' commands, in list order. */
  function ItemsCommands(items: seq<Item>): seq<Command>
  {
    if items == [] then [] else ItemsCommands(items[..|items| - 1]) + ItemCommands(items[|items| - 1])
  }

  /** `renderGraphics`: save, the four transform calls, the items,
      restore. */
  function LegacyGraphicsCommands(t: Transform, data: seq<GraphicsData>): seq<Command>
  {
    [Save] + TransformCommands(t) + ItemsCommands(ExtractGraphicsData(data)) + [Restore]
  }

  /** What `renderContainer` appends for one child: nothing for a sprite
      (its renderer is commented out) or an unknown object. */
  function LegacyNodeCommands(n: Node): seq<Command>
    decreases n
  {
    match n
    case Sprite(_, _, _, _, _) => []
    case Graphics(t, data, _, _) => LegacyGraphicsCommands(t, data)
    case Container(cs) => LegacyContainerCommands(cs)
    case Other => []
  }

  /** `renderContainer`: the children's commands in list order. */
  function LegacyContainerCommands(cs: seq<Node>): seq<Command>
    decreases cs
  {
    if cs == [] then [] else LegacyContainerCommands(cs[..|cs| - 1]) + LegacyNodeCommands(cs[|cs| - 1])
  }

  // ---------------------------------------------------------------------
  // Renderers

  /** `applyTransformationsToSkia`. */
  method ApplyTransformationsToSkia(t: Transform, canvas: Canvas)
    modifies canvas
    ensures canvas.commands == old(canvas.commands) + TransformCommands(t)
  {
    ghost var start := canvas.commands;
    ghost var cmds := TransformCommands(t);
    assert |cmds| == 4;
    canvas.Translate(t.position.x, t.position.y);
    assert canvas.commands == start + cmds[..1];
    canvas.Translate(-t.pivot.x * t.scale.x, -t.pivot.y * t.scale.y);
    assert canvas.commands[|start| + 1] == Command.Translate(-t.pivot.x * t.scale.x, -t.pivot.y * t.scale.y);
    assert cmds[1] == Command.Translate(-t.pivot.x * t.scale.x, -t.pivot.y * t.scale.y);
    assert canvas.commands == start + cmds[..2];
    var rx := t.pivot.x * t.scale.x;
    var ry := t.pivot.y * t.scale.y;
    canvas.Rotate(RadiansToDegrees(t.rotation), rx, ry);
    assert canvas.commands == start + cmds[..3];
    canvas.Scale(t.scale.x, t.scale.y);
    assert cmds[..4] == cmds;
  }

  /** `drawRectangle`. */
  method DrawRectangle(canvas: Canvas, x: real, y: real, width: real, height: real, styles: Styles)
    modifies canvas
    ensures canvas.commands == old(canvas.commands)
      + RectangleCommands(x, y, width, height, styles.fillColor, styles.lineColor, styles.lineWidth)
  {
    var path := [MoveTo(Point(x, y)), LineTo(Point(x + width, y)), LineTo(Point(x + width, y + height)),
                 LineTo(Point(x, y + height)), Close];
    var fillPaint := FillPaint(FromDecimal(styles.fillColor));
    var strokePaint := StrokePaint(FromDecimal(styles.lineColor), styles.lineWidth);
    canvas.DrawPath(path, fillPaint);
    if styles.lineWidth > 0.0 {
      canvas.DrawPath(path, strokePaint);
    }
  }

  /** `drawCircle`. */
  method DrawCircle(canvas: Canvas, x: real, y: real, radius: real, styles: Styles)
    modifies canvas
    ensures canvas.commands == old(canvas.commands)
      + CircleCommands(x, y, radius, styles.fillColor, styles.lineColor, styles.lineWidth)
  {
    var path := [AddCircle(Point(x, y), radius)];
    var fillPaint := FillPaint(FromDecimal(styles.fillColor));
    var strokePaint := StrokePaint(FromDecimal(styles.lineColor), styles.lineWidth);
    canvas.DrawPath(path, fillPaint);
    if styles.lineWidth > 0.0 {
      canvas.DrawPath(path, strokePaint);
    }
  }

  /** `drawPolygon`: the path is always closed and the fill always drawn. */
  method DrawPolygon(canvas: Canvas, points: PolyPoints, styles: Styles)
    modifies canvas
    ensures canvas.commands == old(canvas.commands)
      + ClosedPolygonCommands(points, styles.fillColor, styles.lineColor, styles.lineWidth)
  {
    var fillPaint := FillPaint(FromDecimal(styles.fillColor));
    var path := TracePolygon(points, true);
    canvas.DrawPath(path, fillPaint);
    if styles.lineWidth > 0.0 {
      canvas.DrawPath(path, StrokePaint(FromDecimal(styles.lineColor), styles.lineWidth));
    }
  }

  /** One iteration of the `data.forEach` in `renderGraphics`. */
  method RenderItem(canvas: Canvas, item: Item)
    modifies canvas
    ensures canvas.commands == old(canvas.commands) + ItemCommands(item)
  {
    match item.shape
    case Rect(x, y, w, h) => DrawRectangle(canvas, x, y, w, h, item.styles);
    case Circ(x, y, radius) => DrawCircle(canvas, x, y, radius, item.styles);
    case Poly(points) => DrawPolygon(canvas, points, item.styles);
    case OtherShape(_) =>   // console.warn('Unsupported shape type:', type)
  }

  /** The `data.forEach` of `renderGraphics`: the items in list order. */
  method RenderItems(canvas: Canvas, items: seq<Item>)
    modifies canvas
    ensures canvas.commands == old(canvas.commands) + ItemsCommands(items)
  {
    var i := 0;
    while i < |items|
      invariant 0 <= i <= |items|
      invariant canvas.commands == old(canvas.commands) + ItemsCommands(items[..i])
    {
      TakeLonger(items, i);
      RenderItem(canvas, items[i]);
      AppendAssoc(old(canvas.commands), ItemsCommands(items[..i]), ItemCommands(items[i]));
      i := i + 1;
    }
    assert items[..i] == items;
  }

  /** `renderGraphics`. */
  method RenderGraphics(g: Node, canvas: Canvas)
    requires g.Graphics?
    modifies canvas
    ensures canvas.commands == old(canvas.commands) + LegacyGraphicsCommands(g.transform, g.data)
  {
    canvas.Save();
    ApplyTransformationsToSkia(g.transform, canvas);
    var items := ExtractGraphicsData(g.data);
    RenderItems(canvas, items);
    canvas.Restore();
    AppendAssoc5(old(canvas.commands), [Save], TransformCommands(g.transform), ItemsCommands(items), [Restore]);
  }

  /** `renderContainer`: the children in list order, tested as Sprite,
      then Graphics, then Container. */
  method RenderContainer(cs: seq<Node>, canvas: Canvas)
    modifies canvas
    ensures canvas.commands == old(canvas.commands) + LegacyContainerCommands(cs)
    decreases cs
  {
    var i := 0;
    while i < |cs|
      invariant 0 <= i <= |cs|
      invariant canvas.commands == old(canvas.commands) + LegacyContainerCommands(cs[..i])
    {
      TakeLonger(cs, i);
      RenderChild(cs[i], canvas);
      AppendAssoc(old(canvas.commands), LegacyContainerCommands(cs[..i]), LegacyNodeCommands(cs[i]));
      i := i + 1;
    }
    assert cs[..i] == cs;
  }

  /** One child of the `children.forEach` in `renderContainer`. */
  method RenderChild(child: Node, canvas: Canvas)
    modifies canvas
    ensures canvas.commands == old(canvas.commands) + LegacyNodeCommands(child)
    decreases child
  {
    match child
    case Sprite(_, _, _, _, _) =>
    case Graphics(_, _, _, _) => RenderGraphics(child, canvas);
    case Container(children) => RenderContainer(children, canvas);
    case Other =>   // console.log('unknown type', containerItem)
  }

  /** The colour the canvas is cleared with. */
  const Carbon: string := "rgba(14, 14, 14, 1)"

  /** `convertPixiContainerToSkia`: a new canvas (the surface's), cleared
      with getColor('carbon'), then the container rendered onto it. */
  method ConvertPixiContainerToSkia(root: seq<Node>) returns (canvas: Canvas)
    ensures fresh(canvas)
    ensures canvas.commands == [Clear(Carbon)] + LegacyContainerCommands(root)
  {
    canvas := new Canvas();
    Helpers.GetColorValues();
    var carbon := Helpers.GetColor("carbon");
    canvas.Clear(carbon.value);
    RenderContainer(root, canvas);
  }

  // ---------------------------------------------------------------------
  // Properties of the draw lists

  lemma {:induction false} ItemsCommandsAppend(a: seq<Item>, b: seq<Item>)
    ensures ItemsCommands(a + b) == ItemsCommands(a) + ItemsCommands(b)
    decreases |b|
  {
    if b == [] {
      assert a + b == a;
    } else {
      var b', x := b[..|b| - 1], b[|b| - 1];
      AppendLast(a, b);
      ItemsCommandsAppend(a, b');
      AppendAssoc(ItemsCommands(a), ItemsCommands(b'), ItemCommands(x));
    }
  }

  /** Inside one item: only path draws on the item's one path, no stack
      command; a supported shape is always filled, first, and then stroked
      exactly when its line width is positive; whatever the fill colour. */
  lemma ItemPaintOrder(item: Item)
    ensures var r := ItemCommands(item);
      && StackFree(r)
      && (forall c <- r :: c.DrawPath?)
      && (item.shape.OtherShape? ==> r == [])
      && (!item.shape.OtherShape? ==>
            Paints(r) == [FillPaint(FromDecimal(item.styles.fillColor))]
              + (if item.styles.lineWidth > 0.0
                 then [StrokePaint(FromDecimal(item.styles.lineColor), item.styles.lineWidth)] else []))
  {
    var st := item.styles;
    match item.shape
    case Rect(x, y, w, h) =>
      PaintPassesOrder(RectanglePath(x, y, w, h), true, st.fillColor, st.lineColor, st.lineWidth);
    case Circ(x, y, radius) =>
      PaintPassesOrder(CirclePath(x, y, radius), true, st.fillColor, st.lineColor, st.lineWidth);
    case Poly(points) =>
      PaintPassesOrder(PolygonPath(points, true), true, st.fillColor, st.lineColor, st.lineWidth);
    case OtherShape(_) =>
  }

  /** A polygon item is drawn on the closed path through its points. */
  lemma PolygonItemClosed(item: Item)
    requires item.shape.Poly?
    ensures forall c <- ItemCommands(item) :: c.DrawPath? && c.path == PolygonPath(item.shape.points, true)
    ensures IsClosedPath(PolygonPath(item.shape.points, true))
  {
    var st := item.styles;
    PaintPassesOrder(PolygonPath(item.shape.points, true), true, st.fillColor, st.lineColor, st.lineWidth);
    PolygonPathShape(item.shape.points, true);
  }

  lemma {:induction false} ItemsOnlyDrawPaths(items: seq<Item>)
    ensures StackFree(ItemsCommands(items))
    ensures forall c <- ItemsCommands(items) :: c.DrawPath?
    decreases |items|
  {
    if items != [] {
      ItemsOnlyDrawPaths(items[..|items| - 1]);
      ItemPaintOrder(items[|items| - 1]);
    }
  }

  /** `renderGraphics` brackets the transform and every item draw between
      one save and one restore, and so leaves the save depth unchanged. */
  lemma LegacyGraphicsBracketed(t: Transform, data: seq<GraphicsData>)
    ensures var r := LegacyGraphicsCommands(t, data);
      && |r| >= 6
      && r[0] == Save && r[|r| - 1] == Restore
      && r[1..5] == TransformCommands(t)
      && StackFree(r[1..|r| - 1])
      && DepthNeutral(r)
  {
    var items := ItemsCommands(ExtractGraphicsData(data));
    var body := TransformCommands(t) + items;
    ItemsOnlyDrawPaths(ExtractGraphicsData(data));
    assert StackFree(body);
    var r := LegacyGraphicsCommands(t, data);
    assert r == [Save] + body + [Restore];
    assert r[1..|r| - 1] == body;
    BracketedIsNeutral(body);
  }

  lemma {:induction false} LegacyContainerCommandsAppend(a: seq<Node>, b: seq<Node>)
    ensures LegacyContainerCommands(a + b) == LegacyContainerCommands(a) + LegacyContainerCommands(b)
    decreases |b|
  {
    if b == [] {
      assert a + b == a;
    } else {
      var b' := b[..|b| - 1];
      AppendLast(a, b);
      LegacyContainerCommandsAppend(a, b');
      AppendAssoc(LegacyContainerCommands(a), LegacyContainerCommands(b'), LegacyNodeCommands(b[|b| - 1]));
    }
  }

  /** A sprite child is skipped: removing it changes nothing. */
  lemma SpriteSkipped(a: seq<Node>, s: Node, b: seq<Node>)
    requires s.Sprite?
    ensures LegacyContainerCommands(a + [s] + b) == LegacyContainerCommands(a + b)
  {
    assert LegacyContainerCommands(a + [s]) == LegacyContainerCommands(a) by {
      assert (a + [s])[..|a|] == a;
    }
    LegacyContainerCommandsAppend(a + [s], b);
    LegacyContainerCommandsAppend(a, b);
  }

  /** Containers are recursed into with nothing of their own: nesting
      children draws what splicing them into the parent's list draws. */
  lemma LegacyContainerIsTransparent(a: seq<Node>, cs: seq<Node>, b: seq<Node>)
    ensures LegacyContainerCommands(a + [Container(cs)] + b) == LegacyContainerCommands(a + cs + b)
  {
    LegacyContainerCommandsAppend(a + [Container(cs)], b);
    LegacyContainerCommandsAppend(a, [Container(cs)]);
    LegacyContainerCommandsAppend(a + cs, b);
    LegacyContainerCommandsAppend(a, cs);
    assert [Container(cs)][..0] == [];
  }

  /** Rendering any tree leaves the save depth as it found it. */
  lemma {:induction false} LegacyContainerNeutral(cs: seq<Node>)
    ensures DepthNeutral(LegacyContainerCommands(cs))
    decreases cs
  {
    if cs == [] {
      forall d: nat ensures Run(d, LegacyContainerCommands(cs)) == d {
      }
    } else {
      LegacyContainerNeutral(cs[..|cs| - 1]);
      LegacyNodeNeutral(cs[|cs| - 1]);
      NeutralConcat(LegacyContainerCommands(cs[..|cs| - 1]), LegacyNodeCommands(cs[|cs| - 1]));
    }
  }

  lemma {:induction false} LegacyNodeNeutral(n: Node)
    ensures DepthNeutral(LegacyNodeCommands(n))
    decreases n
  {
    match n
    case Graphics(t, data, _, _) => LegacyGraphicsBracketed(t, data);
    case Container(cs) => LegacyContainerNeutral(cs);
    case _ =>
      forall d: nat ensures Run(d, LegacyNodeCommands(n)) == d {
      }
  }

  /** The earlier translator draws no image, whatever sprites the tree
      holds. */
  lemma {:induction false} LegacyDrawsNoImages(cs: seq<Node>)
    ensures forall c <- LegacyContainerCommands(cs) :: !c.DrawImage?
    decreases cs
  {
    if cs != [] {
      LegacyDrawsNoImages(cs[..|cs| - 1]);
      LegacyNodeDrawsNoImages(cs[|cs| - 1]);
    }
  }

  lemma {:induction false} LegacyNodeDrawsNoImages(n: Node)
    ensures forall c <- LegacyNodeCommands(n) :: !c.DrawImage?
    decreases n
  {
    match n
    case Graphics(t, data, _, _) =>
      ItemsOnlyDrawPaths(ExtractGraphicsData(data));
    case Container(cs) => LegacyDrawsNoImages(cs);
    case _ =>
  }

  /** The whole output: the clear comes first and is the only clear. */
  lemma ClearComesFirst(root: seq<Node>)
    ensures var r := [Clear(Carbon)] + LegacyContainerCommands(root);
      r[0] == Clear(Carbon) && forall c <- r[1..] :: !c.Clear?
  {
    LegacyNoClear(root);
    var r := [Clear(Carbon)] + LegacyContainerCommands(root);
    assert r[1..] == LegacyContainerCommands(root);
  }

  lemma {:induction false} LegacyNoClear(cs: seq<Node>)
    ensures forall c <- LegacyContainerCommands(cs) :: !c.Clear?
    decreases cs
  {
    if cs != [] {
      LegacyNoClear(cs[..|cs| - 1]);
      LegacyNodeNoClear(cs[|cs| - 1]);
    }
  }

  lemma {:induction false} LegacyNodeNoClear(n: Node)
    ensures forall c <- LegacyNodeCommands(n) :: !c.Clear?
    decreases n
  {
    match n
    case Graphics(t, data, _, _) =>
      ItemsOnlyDrawPaths(ExtractGraphicsData(data));
    case Container(cs) => LegacyNoClear(cs);
    case _ =>
  }

  // ---------------------------------------------------------------------
  // Against the current translator

  /** The trees on which the two translators can agree: no sprite is
      reached, every Graphics node is closed, and every polygon has a fill
      of a non-zero colour. */
  ghost predicate Comparable(n: Node)
    decreases n
  {
    match n
    case Sprite(_, _, _, _, _) => false
    case Graphics(_, data, isClosed, _) =>
      isClosed && forall d <- data :: d.shape.Poly? ==> d.fillStyle.Some? && d.fillStyle.value.color != 0
    case Container(cs) => forall c <- cs :: Comparable(c)
    case Other => true
  }

  /** On such trees the earlier translator draws exactly what the current
      one draws, whatever the texture cache holds. */
  lemma {:induction false} TranslatorsAgree(cs: seq<Node>, cache: map<string, Image>)
    requires forall c <- cs :: Comparable(c)
    ensures LegacyContainerCommands(cs) == Pixi2Skia.ContainerCommands(cs, cache)
    decreases cs
  {
    if cs != [] {
      TranslatorsAgree(cs[..|cs| - 1], cache);
      NodesAgree(cs[|cs| - 1], cache);
    }
  }

  lemma {:induction false} NodesAgree(n: Node, cache: map<string, Image>)
    requires Comparable(n)
    ensures LegacyNodeCommands(n) == Pixi2Skia.NodeCommands(n, cache)
    decreases n
  {
    match n
    case Graphics(t, data, isClosed, _) =>
      var items := ExtractGraphicsData(data);
      var segs := Pixi2Skia.ExtractPixiGraphicsData(data, isClosed);
      forall i | 0 <= i < |items| ensures ItemCommands(items[i]) == Pixi2Skia.SegmentCommands(segs[i]) {
        assert data[i] in data;
        ItemAgrees(items[i], segs[i]);
      }
      ItemsAgree(items, segs);
    case Container(cs) => TranslatorsAgree(cs, cache);
    case Other =>
  }

  lemma ItemAgrees(item: Item, seg: Pixi2Skia.Segment)
    requires item.shape == seg.shape && seg.style.isClosed
    requires item.styles == Styles(seg.style.fillColor, seg.style.lineColor, seg.style.lineWidth)
    requires item.shape.Poly? ==> item.styles.fillColor != 0
    ensures ItemCommands(item) == Pixi2Skia.SegmentCommands(seg)
  {
  }

  lemma {:induction false} ItemsAgree(items: seq<Item>, segs: seq<Pixi2Skia.Segment>)
    requires |items| == |segs|
    requires forall i :: 0 <= i < |items| ==> ItemCommands(items[i]) == Pixi2Skia.SegmentCommands(segs[i])
    ensures ItemsCommands(items) == Pixi2Skia.SegmentsCommands(segs)
    decreases |items|
  {
    if items != [] {
      ItemsAgree(items[..|items| - 1], segs[..|segs| - 1]);
    }
  }

  /** And they differ on every tree that reaches a sprite: the current
      translator draws an image for it, the earlier one draws none. */
  lemma TranslatorsDifferOnSprites(cs: seq<Node>, cache: map<string, Image>)
    requires SpritesIn(cs) != []
    ensures LegacyContainerCommands(cs) != Pixi2Skia.ContainerCommands(cs, cache)
  {
    var sprites := SpritesIn(cs);
    Pixi2Skia.ImageDrawsFollowSprites(cs, cache);
    assert Pixi2Skia.SpriteDraws(sprites, cache) != [] by {
      var s := sprites[|sprites| - 1];
      assert s in sprites;
    }
    LegacyDrawsNoImages(cs);
    Pixi2Skia.NoImageDraws(LegacyContainerCommands(cs));
  }

  // ---------------------------------------------------------------------
  // Bytes and Base64

  /** `String.fromCharCode` on each byte, joined: a binary string. */
  function BinaryString(b: seq<Byte>): (r: string)
    ensures |r| == |b| && forall i :: 0 <= i < |r| ==> r[i] as int == b[i]
  {
    seq(|b|, i requires 0 <= i < |b| => b[i] as char)
  }

  /** `charCodeAt` on each character of a binary string. */
  function CharCodes(s: string): (r: seq<Byte>)
    requires forall c <- s :: c as int < 256
    ensures |r| == |s| && forall i :: 0 <= i < |r| ==> r[i] == s[i] as int
  {
    seq(|s|, i requires 0 <= i < |s| => assert s[i] in s; CodeOf(s[i]))
  }

  function CodeOf(c: char): (r: Byte)
    requires c as int < 256
    ensures r == c as int
  {
    c as int
  }

  lemma CharCodesBinary(b: seq<Byte>)
    ensures CharCodes(BinaryString(b)) == b
  {
  }

  /** `atob`: the forgiving decode, as a binary string; None is the
      InvalidCharacterError it throws. */
  function Atob(s: string): (r: Option<string>)
    ensures r.Some? <==> Decode(s).Some?
    ensures r.Some? ==> r.value == BinaryString(Decode(s).value)
  {
    match Decode(s)
    case None => None
    case Some(b) => Some(BinaryString(b))
  }

  /** `btoa`: InvalidCharacterError (None) for a character above U+00FF,
      otherwise the Base64 encoding of the character codes. */
  function Btoa(s: string): (r: Option<string>)
    ensures r.Some? <==> forall c <- s :: c as int < 256
  {
    if forall c <- s :: c as int < 256 then Some(Encode(CharCodes(s))) else None
  }

  /** The text after the first comma, when there is one. */
  function AfterComma(s: string): (r: Option<string>)
    ensures r.Some? <==> ',' in s
    ensures r.Some? ==> s == UpToComma(s) + "," + r.value
  {
    if s == [] then None
    else if s[0] == ',' then Some(s[1..])
    else
      var r := AfterComma(s[1..]);
      if r.Some? then
        assert s == [s[0]] + s[1..];
        Some(r.value)
      else None
  }

  /** The text before the first comma, or the whole string. */
  function UpToComma(s: string): (r: string)
    ensures ',' !in r
    ensures |r| <= |s| && r == s[..|r|]
    ensures |r| < |s| ==> s[|r|] == ','
  {
    if s == [] || s[0] == ',' then [] else [s[0]] + UpToComma(s[1..])
  }

  /** `dataUrl.split(',')[1]`: the second comma-separated piece, or
      `undefined` (None) when the string has no comma. */
  function SecondPiece(dataUrl: string): (r: Option<string>)
    ensures r.Some? <==> ',' in dataUrl
    ensures r.Some? ==> ',' !in r.value
  {
    match AfterComma(dataUrl)
    case None => None
    case Some(rest) => Some(UpToComma(rest))
  }

  /** What `atob` is given: the piece, or "undefined" as `atob` converts
      an undefined argument. */
  function AtobArgument(dataUrl: string): string
  {
    match SecondPiece(dataUrl)
    case None => "undefined"
    case Some(p) => p
  }

  /** Without a comma the data URL has no payload, and `atob` throws: the
      nine characters of "undefined" leave a group of one. */
  lemma NoCommaThrows(dataUrl: string)
    requires ',' !in dataUrl
    ensures Atob(AtobArgument(dataUrl)).None?
  {
    assert SecondPiece(dataUrl).None?;
    assert AtobArgument(dataUrl) == "undefined";
    UndefinedDoesNotDecode();
  }

  /** Nine characters without whitespace or padding leave a group of one,
      which `atob` rejects. */
  lemma UndefinedDoesNotDecode()
    ensures Decode("undefined").None?
  {
    var s := "undefined";
    forall c <- s ensures !IsAsciiWhitespace(c) {
    }
    StripNoWhitespace(s);
    assert |s| % 4 == 1;
    assert StripPadding(s) == s;
    LoneSextetRejected(s);
  }

  /** `canvasToUint8Array` from the data URL on: a Uint8Array as long as
      the decoded binary string, holding its character codes; None is the
      exception `atob` throws. */
  method CanvasToUint8Array(dataUrl: string) returns (r: Option<array<Byte>>)
    ensures r.None? <==> Atob(AtobArgument(dataUrl)).None?
    ensures r.Some? ==>
      var binary := Atob(AtobArgument(dataUrl)).value;
      && fresh(r.value)
      && r.value.Length == |binary|
      && (forall i :: 0 <= i < |binary| ==> r.value[i] == binary[i] as int)
      && r.value[..] == Decode(AtobArgument(dataUrl)).value
  {
    var arg := AtobArgument(dataUrl);
    var decoded := Atob(arg);
    if decoded.None? {
      return None;
    }
    ghost var bytes := Decode(arg).value;
    var a := CharCodeArray(decoded.value, bytes);
    r := Some(a);
  }

  /** The loop of `canvasToUint8Array`: `bytes[i] = binary.charCodeAt(i)`
      for each index of the binary string. */
  method CharCodeArray(binary: string, ghost bytes: seq<Byte>) returns (a: array<Byte>)
    requires binary == BinaryString(bytes)
    ensures fresh(a)
    ensures a.Length == |binary| && forall i :: 0 <= i < |binary| ==> a[i] == binary[i] as int
    ensures a[..] == bytes
  {
    a := new Byte[|binary|](_ => 0);
    for i := 0 to |binary|
      invariant forall j :: 0 <= j < i ==> a[j] == binary[j] as int
    {
      a[i] := binary[i] as int;
    }
  }

  /** `uint8ArrayToBase64`: each byte becomes one character, and the
      string is handed to `btoa`, which never throws on it. */
  function Uint8ArrayToBase64(bytes: seq<Byte>): (r: string)
    ensures Btoa(BinaryString(bytes)) == Some(r)
    ensures r == Encode(bytes)
  {
    var binary := BinaryString(bytes);
    CharCodesBinary(bytes);
    Btoa(binary).value
  }

  /** The encoding has no comma, so it is the payload of a data URL whose
      header has none, and decoding that payload gives the bytes back. */
  lemma DataUrlRoundTrip(header: string, bytes: seq<Byte>)
    requires ',' !in header
    ensures var url := header + "," + Uint8ArrayToBase64(bytes);
      && SecondPiece(url) == Some(Uint8ArrayToBase64(bytes))
      && Atob(AtobArgument(url)) == Some(BinaryString(bytes))
      && Decode(AtobArgument(url)) == Some(bytes)
  {
    var s := Uint8ArrayToBase64(bytes);
    EncodingHasNoComma(bytes);
    SplitAtFirstComma(header, s);
    assert UpToComma(s) == s;
    DecodeEncode(bytes);
  }

  /** The encoding is alphabet characters and padding, so it has no comma. */
  lemma EncodingHasNoComma(bytes: seq<Byte>)
    ensures ',' !in Uint8ArrayToBase64(bytes)
  {
    var s := Uint8ArrayToBase64(bytes);
    EncodeIsCanonical(bytes);
    EncodeShape(bytes);
    forall c <- s ensures c != ',' {
      if c in StripPadding(s) {
        assert IsAlphabet(c);
      }
    }
  }

  lemma {:induction false} SplitAtFirstComma(header: string, s: string)
    requires ',' !in header
    ensures AfterComma(header + "," + s) == Some(s)
    decreases |header|
  {
    if header == [] {
      assert header + "," + s == [','] + s;
    } else {
      assert (header + "," + s)[1..] == header[1..] + "," + s;
      SplitAtFirstComma(header[1..], s);
    }
  }

  /** `uint8ArrayToBase64` inverts the decode step exactly on canonical
      payloads: for bytes decoded from `s`, re-encoding gives `s` back iff
      `s` is canonical. */
  lemma EncodeInvertsDecode(s: string, bytes: seq<Byte>)
    requires Decode(s) == Some(bytes)
    ensures Uint8ArrayToBase64(bytes) == s <==> Canonical(s)
  {
    EncodeDecode(s, bytes);
  }
}
