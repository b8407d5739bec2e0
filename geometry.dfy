/**
 * Values the grid view model works with: points and sizes in screen or grid
 * units, the raw (possibly non-finite) inputs that gesture and layout code hand
 * it, and the path it produces for the renderer.
 */
module Geometry {

  /** A CGFloat as the view model's `isFinite` checks see it: a finite real, or
      one of the infinities or NaN (which the model does not tell apart). */
  datatype Float = Finite(value: real) | NonFinite

  /** A point with finite coordinates. */
  datatype Point = Point(x: real, y: real)

  /** A size (or a screen-space displacement) with finite components. */
  datatype Size = Size(width: real, height: real)

  /** A size or displacement as it arrives from the caller, possibly non-finite. */
  datatype RawSize = RawSize(width: Float, height: Float)

  /** A point as it arrives from the caller, possibly non-finite. */
  datatype RawPoint = RawPoint(x: Float, y: Float)

  /** One straight stroke of a path. */
  datatype Segment = Segment(from: Point, to: Point)

  /** A full circle, the origin marker of the major grid. */
  datatype Circle = Circle(center: Point, radius: real)

  datatype Option<T> = None | Some(value: T)

  /** A drawing path: an optional circle followed by straight line segments. */
  datatype Path = Path(marker: Option<Circle>, lines: seq<Segment>)

  const EmptyPath: Path := Path(None, [])

  /** Floating-point division of a possibly non-finite value by a finite one:
      the quotient is finite exactly when the dividend is finite and the divisor
      is not zero (overflow to infinity is not modelled). */
  function Quotient(a: Float, b: real): (q: Float)
    ensures q.Finite? <==> a.Finite? && b != 0.0
    ensures q.Finite? ==> q.value * b == a.value
  {
    if a.Finite? && b != 0.0 then Finite(a.value / b) else NonFinite
  }
}
