/** The JSCAD geometry engine, seen from the outside.

    The engine is not part of this model: every primitive, transform, boolean,
    hull and extrusion it offers appears here as an uninterpreted constructor
    term, so that the modelled code can be stated in terms of WHICH engine call
    it makes with WHICH arguments. Numbers are reals; `Num` adds the NaN that
    JavaScript arithmetic produces on non-numbers. */
module Engine {
  import opened Wrappers

  /** `Math.PI`, read as the exact real its decimal expansion denotes. */
  const Pi: real := 3.141592653589793

  /** A full turn, `Math.PI * 2`. */
  const Tau: real := 2.0 * Pi

  /** Degrees to radians, `deg * PI / 180`. This is the one engine function
      given a meaning: the engine's `degToRad` is taken to compute the same
      formula that the RTK clip writes inline. */
  function DegToRad(deg: real): real {
    deg * Pi / 180.0
  }

  /** A JavaScript number: a real, or NaN (rounding and infinities are left out). */
  datatype Num = Fin(x: real) | NaN {

    /** JavaScript truthiness of a number: neither 0 nor NaN. */
    predicate Truthy() {
      Fin? && x != 0.0
    }
  }

  /** `a - b` on JavaScript numbers. */
  function Sub(a: Num, b: Num): Num {
    if a.Fin? && b.Fin? then Fin(a.x - b.x) else NaN
  }

  /** `a * k` on JavaScript numbers, for a numeric literal `k`. */
  function Mul(a: Num, k: real): Num {
    if a.Fin? then Fin(a.x * k) else NaN
  }

  /** A 2-vector as the engine receives it (a radius at one end of a cylinder). */
  datatype Vec2 = Vec2(x: Num, y: Num)

  /** The start and end radius of an elliptic cylinder. */
  datatype RadiusPair = RadiusPair(start: Vec2, end: Vec2)

  /** A 3-vector: a translation, a position or a per-axis factor. */
  datatype Vec3 = Vec3(x: real, y: real, z: real)

  const Origin: Vec3 := Vec3(0.0, 0.0, 0.0)

  /** The start and end angle (radians) of a partial cylinder. */
  datatype Arc = Arc(startAngle: real, endAngle: real)

  /** The three geometry kinds of the engine (its `type` tags). */
  datatype Variant = Geom2 | Geom3 | Path2

  /** The options handed to `primitives.cylinderElliptic`. An absent `center`
      or `arc` is left to the engine's own default. */
  datatype CylSpec = CylSpec(
    height: real,
    segments: int,
    center: Option<Vec3>,
    radii: RadiusPair,
    arc: Option<Arc>)

  datatype Corners = Edge | Chamfer | Round

  datatype MirrorOptions = MirrorOptions(origin: Vec3, normal: Vec3)

  datatype CenterOptions = CenterOptions(axes: seq<bool>, relativeTo: Vec3)

  /** Options of `expansions.expand` and `expansions.offset`. */
  datatype ExpandOptions = ExpandOptions(delta: real, corners: Corners, segments: int)

  datatype ExtrudeLinearOptions = ExtrudeLinearOptions(height: real, twistAngle: real, twistSteps: int)

  datatype ExtrudeRotateOptions = ExtrudeRotateOptions(angle: real, startAngle: real, segments: int)

  /** One call of the engine's single-geometry transform vocabulary. */
  datatype TransformOp =
    | Translate(offset: Vec3)
    | TranslateX(dx: real)
    | TranslateY(dy: real)
    | TranslateZ(dz: real)
    | Rotate(angles: Vec3)
    | RotateX(ax: real)
    | RotateY(ay: real)
    | RotateZ(az: real)
    | Scale(factor: Vec3)
    | ScaleX(fx: real)
    | ScaleY(fy: real)
    | ScaleZ(fz: real)
    | Mirror(mirror: MirrorOptions)
    | MirrorX
    | MirrorY
    | MirrorZ
    | Center(center: CenterOptions)
    | CenterX
    | CenterY
    | CenterZ
    | Transform(matrix: seq<real>)
    | Colorize(color: seq<real>)
    | Expand(expand: ExpandOptions)
    | Offset(inset: ExpandOptions)

  datatype BoolOp = UnionOp | SubtractOp | IntersectOp

  /** A geometry, as the term of engine calls that built it. */
  datatype Geom =
    | Shape(id: nat)                 // built outside the modelled code
    | Created(variant: Variant)      // geom2.create(), geom3.create(), path2.create()
    | CylinderElliptic(spec: CylSpec)
    | Cylinder(height: real, radius: real, segments: int)
    | Transformed(op: TransformOp, g: Geom)
    | Boolean(bop: BoolOp, operands: seq<Geom>)
    | Hull(parts: seq<Geom>)
    | HullChain(parts: seq<Geom>)
    | ExtrudedLinear(linear: ExtrudeLinearOptions, g: Geom)
    | ExtrudedRotate(rotate: ExtrudeRotateOptions, g: Geom)

  /** The elliptic cylinders a flexible cylinder is built from: one for a
      solid, outer then inner for a hollow one (outer minus inner). */
  function CylinderParts(g: Geom): seq<CylSpec> {
    match g
    case CylinderElliptic(s) => [s]
    case Boolean(op, ops) =>
      if op == SubtractOp && |ops| == 2 && ops[0].CylinderElliptic? && ops[1].CylinderElliptic?
      then [ops[0].spec, ops[1].spec]
      else []
    case _ => []
  }

  /** The engine's read-only queries. */
  datatype Query =
    | BoundingBox | BoundingSphere | CenterOf | Dimensions | Area | Volume
    | Points | Outlines | Polygons

  /** The plain (unwrapped) value the engine returns for a query. */
  datatype Reading = Reading(query: Query, subject: Geom)

  /** `Math.cos` and `Math.sin`, left uninterpreted. */
  datatype Trig = Trig(cos: real -> real, sin: real -> real)
}
