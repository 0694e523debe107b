/** The part of CanvasKit (Skia compiled to WebAssembly) that the translators
    use: a canvas that records every call it receives, and keeps the depth of
    its save/restore stack.

    Paths and paints are values here. The WebAssembly objects behind them
    (`Path`, `Paint`, their `delete`), antialiasing and pixel output are not
    part of this model: a canvas is what was asked of it, in order. */
module Skia {
  import opened Common
  import opened Geometry

  /** canvasKit.Color(...decimal2RGBA(decimal)): the colour a paint is built
      from. decimal2RGBA is not part of this model, so the decimal is kept. */
  datatype Colour = FromDecimal(decimal: int)

  datatype Paint =
    | FillPaint(colour: Colour)                 // PaintStyle.Fill
    | StrokePaint(colour: Colour, width: real)  // PaintStyle.Stroke, setStrokeWidth(width)

  datatype PathVerb =
    | MoveTo(p: Point)
    | LineTo(p: Point)
    | AddCircle(centre: Point, radius: real)
    | Close

  /** A decoded SkImage handle. */
  datatype Image = Image(handle: nat)

  datatype Command =
    | Save
    | Restore
    | Translate(dx: real, dy: real)
    | Rotate(degrees: DegreeAngle, rx: real, ry: real)
    | Scale(sx: real, sy: real)
    | DrawPath(path: seq<PathVerb>, paint: Paint)
    | DrawImage(image: Option<Image>, x: real, y: real)   // None: `undefined` from a cache miss
    | Clear(colour: string)                                // clear(parseColorString(colour))

  /** The effect of one command on the depth of the save stack. A restore on
      an empty stack is ignored, as Skia does. */
  function Step(depth: nat, c: Command): nat
  {
    match c
    case Save => depth + 1
    case Restore => if depth > 0 then depth - 1 else 0
    case _ => depth
  }

  /** The depth of the save stack after the commands `cmds`, starting at `depth`. */
  function Run(depth: nat, cmds: seq<Command>): nat
  {
    if cmds == [] then depth else Step(Run(depth, cmds[..|cmds| - 1]), cmds[|cmds| - 1])
  }

  lemma {:induction false} RunAppend(depth: nat, a: seq<Command>, b: seq<Command>)
    ensures Run(depth, a + b) == Run(Run(depth, a), b)
    decreases |b|
  {
    if b == [] {
      assert a + b == a;
    } else {
      var b' := b[..|b| - 1];
      assert (a + b)[..|a + b| - 1] == a + b';
      RunAppend(depth, a, b');
    }
  }

  /** No command of `cmds` touches the save stack. */
  predicate StackFree(cmds: seq<Command>)
  {
    forall c <- cmds :: !c.Save? && !c.Restore?
  }

  lemma {:induction false} StackFreeRun(depth: nat, cmds: seq<Command>)
    requires StackFree(cmds)
    ensures Run(depth, cmds) == depth
    decreases |cmds|
  {
    if cmds != [] {
      StackFreeRun(depth, cmds[..|cmds| - 1]);
    }
  }

  /** Running `cmds` from any depth ends at that same depth. */
  ghost predicate DepthNeutral(cmds: seq<Command>)
  {
    forall d: nat {:trigger Run(d, cmds)} :: Run(d, cmds) == d
  }

  /** A block bracketed by a save and a restore, with no stack command
      inside, leaves the depth as it found it. */
  lemma {:induction false} BracketedIsNeutral(body: seq<Command>)
    requires StackFree(body)
    ensures DepthNeutral([Save] + body + [Restore])
  {
    forall d: nat ensures Run(d, [Save] + body + [Restore]) == d {
      RunAppend(d, [Save] + body, [Restore]);
      RunAppend(d, [Save], body);
      StackFreeRun(d + 1, body);
      assert Run(d, [Save]) == d + 1 by {
        assert [Save][..0] == [];
      }
      assert Run(Run(d, [Save] + body), [Restore]) == Step(Run(d, [Save] + body), Restore) by {
        assert [Restore][..0] == [];
      }
    }
  }

  lemma {:induction false} NeutralConcat(a: seq<Command>, b: seq<Command>)
    requires DepthNeutral(a) && DepthNeutral(b)
    ensures DepthNeutral(a + b)
  {
    forall d: nat ensures Run(d, a + b) == d {
      RunAppend(d, a, b);
      assert Run(d, a) == d;
      assert Run(d, b) == d;
    }
  }

  /** The paints of the path draws among `cmds`, in the order they are drawn. */
  function Paints(cmds: seq<Command>): seq<Paint>
  {
    if cmds == [] then []
    else Paints(cmds[..|cmds| - 1]) + (if cmds[|cmds| - 1].DrawPath? then [cmds[|cmds| - 1].paint] else [])
  }

  lemma {:induction false} PaintsAppend(a: seq<Command>, b: seq<Command>)
    ensures Paints(a + b) == Paints(a) + Paints(b)
    decreases |b|
  {
    if b == [] {
      assert a + b == a;
    } else {
      var b' := b[..|b| - 1];
      assert (a + b)[..|a + b| - 1] == a + b';
      PaintsAppend(a, b');
    }
  }

  /** The image draws among `cmds`, in order. */
  function ImageDraws(cmds: seq<Command>): seq<Command>
  {
    if cmds == [] then []
    else ImageDraws(cmds[..|cmds| - 1]) + (if cmds[|cmds| - 1].DrawImage? then [cmds[|cmds| - 1]] else [])
  }

  lemma {:induction false} ImageDrawsAppend(a: seq<Command>, b: seq<Command>)
    ensures ImageDraws(a + b) == ImageDraws(a) + ImageDraws(b)
    decreases |b|
  {
    if b == [] {
      assert a + b == a;
    } else {
      var b' := b[..|b| - 1];
      assert (a + b)[..|a + b| - 1] == a + b';
      ImageDrawsAppend(a, b');
    }
  }

  /** The number of fills and of strokes among a list of paints. */
  function Fills(ps: seq<Paint>): nat
  {
    if ps == [] then 0 else Fills(ps[..|ps| - 1]) + (if ps[|ps| - 1].FillPaint? then 1 else 0)
  }

  function Strokes(ps: seq<Paint>): nat
  {
    if ps == [] then 0 else Strokes(ps[..|ps| - 1]) + (if ps[|ps| - 1].StrokePaint? then 1 else 0)
  }

  lemma {:induction false} CountsAppend(a: seq<Paint>, b: seq<Paint>)
    ensures Fills(a + b) == Fills(a) + Fills(b)
    ensures Strokes(a + b) == Strokes(a) + Strokes(b)
    decreases |b|
  {
    if b == [] {
      assert a + b == a;
    } else {
      var b' := b[..|b| - 1];
      assert (a + b)[..|a + b| - 1] == a + b';
      CountsAppend(a, b');
    }
  }

  /** Where a point given in the coordinates the commands `cmds` set up lands
      on the canvas. Every call post-multiplies the current matrix, so the
      last call acts on the point first. `trig` gives the cosine and sine of
      a rotation stated in radians; a `rotate` by radians2degrees(a) degrees
      turns by that same rotation about (rx, ry). */
  function MapPoint(trig: Angle -> Rotation, cmds: seq<Command>, p: Point): Point
  {
    if cmds == [] then p
    else MapPoint(trig, cmds[..|cmds| - 1], MapOne(trig, cmds[|cmds| - 1], p))
  }

  /** The action of one command on a point; commands that are not
      transforms leave it where it is. */
  function MapOne(trig: Angle -> Rotation, c: Command, p: Point): Point
  {
    match c
    case Translate(dx, dy) => Point(p.x + dx, p.y + dy)
    case Scale(sx, sy) => Point(sx * p.x, sy * p.y)
    case Rotate(deg, rx, ry) =>
      var r := trig(deg.radians);
      Point(rx + r.cos * (p.x - rx) - r.sin * (p.y - ry),
            ry + r.sin * (p.x - rx) + r.cos * (p.y - ry))
    case _ => p
  }

  /** A canvas (SkCanvas): the log of the calls made on it, in order. */
  class Canvas {
    var commands: seq<Command>

    constructor ()
      ensures commands == []
    {
      commands := [];
    }

    /** The depth of the save stack (getSaveCount() - 1). */
    function Depth(): nat
      reads this
    {
      Run(0, commands)
    }

    method Save()
      modifies this
      ensures commands == old(commands) + [Command.Save]
    {
      commands := commands + [Command.Save];
    }

    method Restore()
      modifies this
      ensures commands == old(commands) + [Command.Restore]
    {
      commands := commands + [Command.Restore];
    }

    method Translate(dx: real, dy: real)
      modifies this
      ensures commands == old(commands) + [Command.Translate(dx, dy)]
    {
      commands := commands + [Command.Translate(dx, dy)];
    }

    method Rotate(degrees: DegreeAngle, rx: real, ry: real)
      modifies this
      ensures commands == old(commands) + [Command.Rotate(degrees, rx, ry)]
    {
      commands := commands + [Command.Rotate(degrees, rx, ry)];
    }

    method Scale(sx: real, sy: real)
      modifies this
      ensures commands == old(commands) + [Command.Scale(sx, sy)]
    {
      commands := commands + [Command.Scale(sx, sy)];
    }

    method DrawPath(path: seq<PathVerb>, paint: Paint)
      modifies this
      ensures commands == old(commands) + [Command.DrawPath(path, paint)]
    {
      commands := commands + [Command.DrawPath(path, paint)];
    }

    method DrawImage(image: Option<Image>, x: real, y: real)
      modifies this
      ensures commands == old(commands) + [Command.DrawImage(image, x, y)]
    {
      commands := commands + [Command.DrawImage(image, x, y)];
    }

    method Clear(colour: string)
      modifies this
      ensures commands == old(commands) + [Command.Clear(colour)]
    {
      commands := commands + [Command.Clear(colour)];
    }
  }
}
