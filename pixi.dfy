/** The part of PIXI the builders use: Graphics objects that record the
    drawing calls made on them, containers that keep their children in
    order, and sprites.

    How PIXI turns the recorded calls into graphicsData is library code and
    is not part of this model; a Graphics object here is its fields and the
    calls it received, in order. */
module Pixi {
  import opened Common
  import opened Geometry

  /** A colour argument as the builders pass it: a CSS string as given
      (a name, '#rrggbb', 'rgba(...)'), or `PIXI.utils.string2hex` of one. */
  datatype ColorArg = Css(text: string) | String2Hex(text: string)

  /** The drawing calls made on a Graphics object. */
  datatype DrawCall =
    | LineStyle(width: real, color: ColorArg)
    | BeginFill(fill: Option<ColorArg>)      // None: beginFill() or beginFill(undefined)
    | EndFill
    | DrawRect(x: real, y: real, width: real, height: real)
    | DrawCircle(x: real, y: real, radius: real)
    | DrawPolygon(points: seq<real>)
    | MoveTo(p: Point)
    | LineTo(p: Point)
    | Arc(cx: real, cy: real, radius: real, startAngle: Angle, endAngle: Angle, anticlockwise: bool)
    | ClosePath

  /** Everything a builder sets on a Graphics object, as a value. */
  datatype GraphicsRecord = GraphicsRecord(
    name: Option<string>,     // PIXI's `label`; null until set
    isClosed: Option<bool>,    // undefined until set
    pivot: Point,
    position: Point,
    rotation: Angle,
    calls: seq<DrawCall>)

  /** A new Graphics object: no name, no `isClosed`, pivot and position at
      the origin, no rotation, no calls. */
  const NewGraphics := GraphicsRecord(None, None, Point(0.0, 0.0), Point(0.0, 0.0), Radians(0.0), [])

  class Graphics {
    var name: Option<string>
    var isClosed: Option<bool>
    var pivot: Point
    var position: Point
    var rotation: Angle
    var calls: seq<DrawCall>

    constructor ()
      ensures Record() == NewGraphics
    {
      name := None;
      isClosed := None;
      pivot := Point(0.0, 0.0);
      position := Point(0.0, 0.0);
      rotation := Radians(0.0);
      calls := [];
    }

    function Record(): GraphicsRecord
      reads this
    {
      GraphicsRecord(name, isClosed, pivot, position, rotation, calls)
    }

    method SetName(l: string)
      modifies this
      ensures Record() == old(Record()).(name := Some(l))
    {
      name := Some(l);
    }

    method SetIsClosed(b: bool)
      modifies this
      ensures Record() == old(Record()).(isClosed := Some(b))
    {
      isClosed := Some(b);
    }

    /** `pivot.set(x, y)`. */
    method SetPivot(x: real, y: real)
      modifies this
      ensures Record() == old(Record()).(pivot := Point(x, y))
    {
      pivot := Point(x, y);
    }

    /** `position.set(x, y)`. */
    method SetPosition(x: real, y: real)
      modifies this
      ensures Record() == old(Record()).(position := Point(x, y))
    {
      position := Point(x, y);
    }

    method SetRotation(a: Angle)
      modifies this
      ensures Record() == old(Record()).(rotation := a)
    {
      rotation := a;
    }

    /** Any drawing call: it is recorded after the earlier ones. */
    method Draw(c: DrawCall)
      modifies this
      ensures Record() == old(Record()).(calls := old(calls) + [c])
    {
      calls := calls + [c];
    }
  }

  /** `new PIXI.Rectangle(x, y, width, height)`. */
  datatype Rectangle = Rectangle(x: real, y: real, width: real, height: real)

  /** A display object a container can hold. */
  datatype Child = GraphicsChild(g: Graphics) | ContainerChild(c: Container) | SpriteChild(s: Sprite)

  class Container {
    var name: Option<string>
    var children: seq<Child>
    var hitArea: Option<Rectangle>

    constructor ()
      ensures name == None && children == [] && hitArea == None
    {
      name := None;
      children := [];
      hitArea := None;
    }

    method SetName(l: string)
      modifies this
      ensures name == Some(l) && children == old(children) && hitArea == old(hitArea)
    {
      name := Some(l);
    }

    /** `addChild`: the child goes after the existing ones. */
    method AddChild(child: Child)
      modifies this
      ensures children == old(children) + [child]
      ensures name == old(name) && hitArea == old(hitArea)
    {
      children := children + [child];
    }

    method SetHitArea(r: Rectangle)
      modifies this
      ensures hitArea == Some(r) && name == old(name) && children == old(children)
    {
      hitArea := Some(r);
    }
  }

  /** Every child is a Graphics object. */
  predicate AllGraphics(children: seq<Child>)
  {
    forall k :: 0 <= k < |children| ==> children[k].GraphicsChild?
  }

  /** The Graphics objects of a list of Graphics children. */
  function GraphicsObjects(children: seq<Child>): set<object>
    requires AllGraphics(children)
  {
    set k | 0 <= k < |children| :: children[k].g
  }

  /** The records of a list of Graphics children, in order. */
  function Drawn(children: seq<Child>): (r: seq<GraphicsRecord>)
    requires AllGraphics(children)
    reads GraphicsObjects(children)
    ensures |r| == |children|
  {
    if children == [] then []
    else Drawn(children[..|children| - 1]) + [children[|children| - 1].g.Record()]
  }

  /** A Graphics child added at the end adds its record at the end. */
  lemma DrawnSnoc(children: seq<Child>, g: Graphics)
    requires AllGraphics(children)
    ensures AllGraphics(children + [GraphicsChild(g)])
    ensures Drawn(children + [GraphicsChild(g)]) == Drawn(children) + [g.Record()]
  {
    assert (children + [GraphicsChild(g)])[..|children|] == children;
  }

  /** A sprite over the texture `PIXI.Texture.from(src)`. */
  class Sprite {
    const src: string
    var name: Option<string>
    var x: real
    var y: real
    var width: real
    var height: real

    /** `new PIXI.Sprite(texture)`: its size is the texture's, which is
        not part of this model. */
    constructor (src: string, textureWidth: real, textureHeight: real)
      ensures this.src == src && name == None && x == 0.0 && y == 0.0
      ensures width == textureWidth && height == textureHeight
    {
      this.src := src;
      name := None;
      x := 0.0;
      y := 0.0;
      width := textureWidth;
      height := textureHeight;
    }
  }
}
