/** The PIXI scene graph as the translators see it: a tree of display
    objects whose Graphics nodes carry the geometry PIXI recorded for them
    (graphics.geometry.graphicsData) and whose Sprite nodes name a texture.

    The tree is a value. The translators only read it, and how PIXI itself
    turns drawRect/drawPolygon calls into graphicsData is library code that
    is not part of this model. */
module Scene {
  import opened Common
  import opened Geometry

  /** The shape of one graphicsData entry, by PIXI.SHAPES type. */
  datatype Shape =
    | Rect(x: real, y: real, width: real, height: real)    // SHAPES.RECT
    | Circ(x: real, y: real, radius: real)                 // SHAPES.CIRC
    | Poly(points: PolyPoints)                             // SHAPES.POLY
    | OtherShape(kind: nat)                                // SHAPES.ELIP, SHAPES.RREC, ...

  /** The fill and line styles PIXI stores with an entry. The translators
      read the colour and the width and never look at `visible`. */
  datatype FillStyle = FillStyle(color: int, visible: bool)
  datatype LineStyle = LineStyle(color: int, width: real, visible: bool)

  /** One graphicsData entry; a style may be missing (`null`). */
  datatype GraphicsData = GraphicsData(shape: Shape, fillStyle: Option<FillStyle>, lineStyle: Option<LineStyle>)

  /** A display object, classified as the translators classify it with
      `instanceof`: Sprite first, then Graphics, then Container. A Graphics
      object is also a Container and may hold children; a sprite's children
      are read by neither pass and are not kept. `isClosed` is the flag the
      wrapper sets (an unset flag is `undefined`, which is falsy: false). */
  datatype Node =
    | Sprite(key: string, x: real, y: real, width: real, height: real)
    | Graphics(transform: Transform, data: seq<GraphicsData>, isClosed: bool, children: seq<Node>)
    | Container(children: seq<Node>)
    | Other                                                // not a PIXI.Container

  /** The sprites a render pass reaches, in the order it reaches them: the
      children in list order, descending into containers only. */
  function SpritesIn(cs: seq<Node>): (r: seq<Node>)
    ensures forall s <- r :: s.Sprite?
    decreases cs
  {
    if cs == [] then [] else SpritesIn(cs[..|cs| - 1]) + SpritesOf(cs[|cs| - 1])
  }

  function SpritesOf(n: Node): (r: seq<Node>)
    ensures forall s <- r :: s.Sprite?
    decreases n
  {
    match n
    case Sprite(_, _, _, _, _) => [n]
    case Container(cs) => SpritesIn(cs)
    case _ => []
  }

  lemma {:induction false} SpritesInAppend(a: seq<Node>, b: seq<Node>)
    ensures SpritesIn(a + b) == SpritesIn(a) + SpritesIn(b)
    decreases |b|
  {
    if b == [] {
      assert a + b == a;
    } else {
      var b' := b[..|b| - 1];
      AppendLast(a, b);
      SpritesInAppend(a, b');
      AppendAssoc(SpritesIn(a), SpritesIn(b'), SpritesOf(b[|b| - 1]));
    }
  }

  /** What the texture preload asks the loader for: the first texture id of a
      sprite, and the sprite's width and height as the decode size. */
  datatype TextureRequest = TextureRequest(url: string, width: real, height: real)

  /** The requests of the preload walk, in the order it issues them: the
      children in list order, a request per sprite, descending into every
      other PIXI.Container, Graphics objects included. */
  function RequestsIn(cs: seq<Node>): seq<TextureRequest>
    decreases cs
  {
    if cs == [] then [] else RequestsIn(cs[..|cs| - 1]) + RequestsOf(cs[|cs| - 1])
  }

  function RequestsOf(n: Node): seq<TextureRequest>
    decreases n
  {
    match n
    case Sprite(key, _, _, w, h) => [TextureRequest(key, w, h)]
    case Graphics(_, _, _, cs) => RequestsIn(cs)
    case Container(cs) => RequestsIn(cs)
    case Other => []
  }

  lemma {:induction false} RequestsInAppend(a: seq<Node>, b: seq<Node>)
    ensures RequestsIn(a + b) == RequestsIn(a) + RequestsIn(b)
    decreases |b|
  {
    if b == [] {
      assert a + b == a;
    } else {
      var b' := b[..|b| - 1];
      AppendLast(a, b);
      RequestsInAppend(a, b');
      AppendAssoc(RequestsIn(a), RequestsIn(b'), RequestsOf(b[|b| - 1]));
    }
  }

  /** One child more is its requests more. */
  lemma RequestsInStep(cs: seq<Node>, i: nat)
    requires i < |cs|
    ensures RequestsIn(cs[..i + 1]) == RequestsIn(cs[..i]) + RequestsOf(cs[i])
  {
    TakeLonger(cs, i);
  }

  /** Every sprite a render pass reaches had its texture requested by the
      preload walk, which reaches at least as far. */
  lemma {:induction false} RenderedSpritesRequested(cs: seq<Node>)
    ensures forall s <- SpritesIn(cs) :: s.key in Urls(RequestsIn(cs))
    decreases cs
  {
    if cs != [] {
      var init := cs[..|cs| - 1];
      var last := cs[|cs| - 1];
      RenderedSpritesRequested(init);
      RenderedSpriteRequested(last);
      UrlsAppend(RequestsIn(init), RequestsOf(last));
    }
  }

  lemma {:induction false} RenderedSpriteRequested(n: Node)
    ensures forall s <- SpritesOf(n) :: s.key in Urls(RequestsOf(n))
    decreases n
  {
    match n
    case Sprite(key, _, _, w, h) =>
      assert [TextureRequest(key, w, h)][..0] == [];
    case Container(cs) => RenderedSpritesRequested(cs);
    case Graphics(_, _, _, _) =>
    case Other =>
  }

  /** The urls of a list of requests. */
  function Urls(reqs: seq<TextureRequest>): set<string>
  {
    if reqs == [] then {} else Urls(reqs[..|reqs| - 1]) + {reqs[|reqs| - 1].url}
  }

  lemma {:induction false} UrlsAppend(a: seq<TextureRequest>, b: seq<TextureRequest>)
    ensures Urls(a + b) == Urls(a) + Urls(b)
    decreases |b|
  {
    if b == [] {
      assert a + b == a;
    } else {
      var b' := b[..|b| - 1];
      AppendLast(a, b);
      UrlsAppend(a, b');
    }
  }

  lemma {:induction false} UrlsMembers(reqs: seq<TextureRequest>)
    ensures forall u :: u in Urls(reqs) <==> exists j :: 0 <= j < |reqs| && reqs[j].url == u
    decreases |reqs|
  {
    if reqs != [] {
      var init := reqs[..|reqs| - 1];
      UrlsMembers(init);
      forall u ensures u in Urls(reqs) <==> exists j :: 0 <= j < |reqs| && reqs[j].url == u {
        if u in Urls(init) {
          var j :| 0 <= j < |init| && init[j].url == u;
          assert reqs[j].url == u;
        }
        if exists j :: 0 <= j < |reqs| && reqs[j].url == u {
          var j :| 0 <= j < |reqs| && reqs[j].url == u;
          if j < |init| {
            assert init[j].url == u;
          }
        }
      }
    }
  }
}
