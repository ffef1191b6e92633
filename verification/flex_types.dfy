/** The shapes of the TypeScript library's `FlexRadius` and
    `FlexCylinderOptions` (from `types.ts`). */
module FlexTypes {
  import opened Wrappers
  import opened Engine

  /** A `Point2`: an elliptic radius, `[x, y]`. */
  datatype Point2 = Point2(x: real, y: real)

  /** One end of a `[start, end]` radius: a number, or a `Point2`. */
  datatype RadiusEnd = Uniform(r: real) | Elliptic(p: Point2)

  /** `number | [number, number] | [Point2, Point2]`. The two ends are taken
      independently, as the code reads them. */
  datatype FlexRadius = Scalar(r: real) | Pair(start: RadiusEnd, end: RadiusEnd)

  /** A normalised radius: `[startRadius, endRadius]`, two `Point2`s. */
  datatype Radii = Radii(start: Point2, end: Point2)

  /** `FlexCylinderOptions`; `None` is an absent key. */
  datatype FlexCylinderOptions = FlexCylinderOptions(
    height: Option<real>,
    segments: Option<int>,
    center: Option<Vec3>,
    angle: Option<Arc>,
    radius: Option<FlexRadius>,
    outer: Option<FlexRadius>,
    inner: Option<FlexRadius>,
    wall: Option<FlexRadius>)

  /** The options with every key absent. */
  const NoOptions: FlexCylinderOptions := FlexCylinderOptions(None, None, None, None, None, None, None, None)

  /** A real `Point2` as the engine receives it. */
  function Lift(p: Point2): Vec2 {
    Vec2(Fin(p.x), Fin(p.y))
  }

  function LiftRadii(r: Radii): RadiusPair {
    RadiusPair(Lift(r.start), Lift(r.end))
  }
}
