/** Points and symbolic angles shared by the scene model and the canvas model.

    The helpers `degrees2radians` and `radians2degrees`, `Math.PI` and the
    trigonometric functions are not part of this model, so an angle is kept as
    the term that the program computes rather than as a number. */
module Geometry {

  datatype Point = Point(x: real, y: real)

  /** An angle in radians, as a term. */
  datatype Angle =
    | Radians(value: real)               // a rotation stored directly in radians
    | DegreesToRadians(degrees: real)    // degrees2radians(degrees)
    | PlusPi(base: Angle)                // base + Math.PI
    | PiMultiple(offset: real, factor: real)   // offset + factor * Math.PI

  /** radians2degrees(radians): the unit CanvasKit's `rotate` expects. */
  datatype DegreeAngle = RadiansToDegrees(radians: Angle)

  /** The cosine and sine of one rotation. */
  datatype Rotation = Rotation(cos: real, sin: real)

  /** A display object's transform: where its pivot lands in the parent
      (position), the local point it turns about (pivot), its scale factors
      and its rotation. */
  datatype Transform = Transform(position: Point, pivot: Point, scale: Point, rotation: Angle)

  /** A flat coordinate list [x0, y0, x1, y1, ...] with at least one vertex,
      as the polygon renderers read it: they index points[0] and points[1]
      unconditionally and points[i + 1] for every even i below the length. */
  type PolyPoints = s: seq<real> | |s| >= 2 && |s| % 2 == 0 witness [0.0, 0.0]
}
