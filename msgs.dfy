/** Message types the map display consumes, and the one C++ exception the core can raise.

    Floating-point values are only copied by the core, never computed with, so a
    `double` is modelled as an exact `real`. */
module MapMsgs {

  /** A message point: the `point` field of a curve sample (x, y, z). */
  datatype Point = Point(x: real, y: real, z: real)

  /** A polyline of the map message: its samples in order (`pts`). */
  datatype Curve = Curve(pts: seq<Point>)

  /** A lane: centre curve and the two boundaries, each sized independently. */
  datatype Lane = Lane(centralCurve: Curve, leftBoundary: Curve, rightBoundary: Curve)

  datatype Section = Section(lanes: seq<Lane>)

  datatype Road = Road(sections: seq<Section>)

  /** The global map: roads, each of sections, each of lanes. */
  datatype Map = Map(roads: seq<Road>)

  /** The current-region message: its id (empty means "no region yet"), a point and a heading. */
  datatype Region = Region(id: string, point: Point, heading: real)

  /** A default-constructed region message: every field empty or zero. */
  const EmptyRegion := Region("", Point(0.0, 0.0, 0.0), 0.0)

  /** The exception raised by `std::vector::at` on an index past the end. */
  datatype Exception = OutOfRange

  /** A computation that either returns a value or raises an exception. */
  datatype Result<T> = Success(value: T) | Failure(error: Exception)

  /** A statement that either completes or raises an exception. */
  datatype Outcome = Pass | Fail(error: Exception)
}
