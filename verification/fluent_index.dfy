/** The entry points of the TypeScript library (`index.ts`): the free
    `union`/`subtract`/`intersect`, radius normalisation and the flexible
    cylinder. */
module FluentIndex {
  import opened Wrappers
  import opened Engine
  import opened FlexTypes
  import opened FluentGeom

  // ---------------------------------------------------------------------
  // Boolean dispatch

  function BoolName(op: BoolOp): string {
    match op
    case UnionOp => "union"
    case SubtractOp => "subtract"
    case IntersectOp => "intersect"
  }

  /** `Array.isArray(geometries[0]) ? geometries[0][0] : geometries[0]`:
      `None` when the first operand is an empty array (`undefined`). */
  function FirstOperand(args: seq<Operand>): Option<Fluent>
    requires |args| > 0
  {
    match args[0]
    case One(f) => Some(f)
    case Many(fs) => if |fs| > 0 then Some(fs[0]) else None
  }

  /** `union(...)`, `subtract(...)`, `intersect(...)`: no operands throws before
      the engine is called; otherwise the engine combines the flattened
      operands and the result is a `FluentGeom2` exactly when the first operand
      is one, a `FluentGeom3` in every other case. */
  function Combine(op: BoolOp, args: seq<Operand>): (r: Result<Fluent>)
    ensures r.Failure? <==> |args| == 0
    ensures r.Failure? ==> r.error == BoolName(op) + " requires at least one geometry"
    ensures r.Success? ==> r.value.variant != Path2
    ensures r.Success? ==>
              (r.value.variant == Geom2 <==> FirstOperand(args).Some? && FirstOperand(args).value.variant == Geom2)
    ensures r.Success? ==> r.value.geom == Boolean(op, Flatten(args))
  {
    if |args| == 0 then Failure(BoolName(op) + " requires at least one geometry")
    else
      var first := FirstOperand(args);
      if first.Some? && first.value.variant == Geom2 then Success(New(Geom2, Some(Boolean(op, Flatten(args)))))
      else Success(New(Geom3, Some(Boolean(op, Flatten(args)))))
  }

  /** A path, or an empty array, in first place yields a `FluentGeom3`. */
  lemma NonRegionFirstYieldsSolid(op: BoolOp, args: seq<Operand>)
    requires |args| > 0
    requires args[0] == Many([]) || (args[0].One? && args[0].f.variant == Path2)
    ensures Combine(op, args).Success? && Combine(op, args).value.variant == Geom3
  {
  }

  /** With the receiver in first place, the free function and the method of
      the receiver's class build the same value. */
  lemma CombineAgreesWithMethod(op: BoolOp, f: Fluent, others: seq<Operand>)
    requires f.variant != Path2
    ensures Combine(op, [One(f)] + others) == Success(CombineWith(f, op, others))
  {
    FlattenAppend([One(f)], others);
  }

  /** `union(a, [b, c])` is `union(a, b, c)`: splitting an array operand into
      its elements changes nothing, provided the first operand stays the same. */
  lemma CombineGrouping(op: BoolOp, before: seq<Operand>, fs: seq<Fluent>, after: seq<Operand>)
    requires |before| > 0 || |fs| > 0
    ensures Combine(op, before + [Many(fs)] + after) == Combine(op, before + Singles(fs) + after)
  {
    FlattenAppend(before + [Many(fs)], after);
    FlattenAppend(before, [Many(fs)]);
    FlattenAppend(before + Singles(fs), after);
    FlattenAppend(before, Singles(fs));
    FlattenGrouping(fs);
    if |before| == 0 {
      assert (before + Singles(fs) + after)[0] == One(fs[0]);
    } else {
      assert (before + [Many(fs)] + after)[0] == before[0];
      assert (before + Singles(fs) + after)[0] == before[0];
    }
  }

  // ---------------------------------------------------------------------
  // Radius normalisation

  /** The default of `normalizeRadius`'s second parameter. */
  const DefaultRadius: real := 1.0

  /** One end of a pair: a number `s` becomes `[s, s]`, a `Point2` is kept. */
  function EndPoint(e: RadiusEnd): Point2 {
    match e
    case Uniform(s) => Point2(s, s)
    case Elliptic(p) => p
  }

  /** `normalizeRadius(radius, defaultValue)`: absence is decided with
      `=== undefined`, so a radius of 0 is a radius. */
  function NormalizeRadius(radius: Option<FlexRadius>, defaultValue: real): (r: Radii)
    ensures radius.None? ==> r == Radii(Point2(defaultValue, defaultValue), Point2(defaultValue, defaultValue))
    ensures radius.Some? && radius.value.Scalar? ==>
              r == Radii(Point2(radius.value.r, radius.value.r), Point2(radius.value.r, radius.value.r))
    ensures radius.Some? && radius.value.Pair? && radius.value.start.Uniform? ==>
              r.start == Point2(radius.value.start.r, radius.value.start.r)
    ensures radius.Some? && radius.value.Pair? && radius.value.start.Elliptic? ==> r.start == radius.value.start.p
    ensures radius.Some? && radius.value.Pair? && radius.value.end.Uniform? ==>
              r.end == Point2(radius.value.end.r, radius.value.end.r)
    ensures radius.Some? && radius.value.Pair? && radius.value.end.Elliptic? ==> r.end == radius.value.end.p
  {
    match radius
    case None => Radii(Point2(defaultValue, defaultValue), Point2(defaultValue, defaultValue))
    case Some(Scalar(x)) => Radii(Point2(x, x), Point2(x, x))
    case Some(Pair(s, e)) => Radii(EndPoint(s), EndPoint(e))
  }

  /** A normalised radius written back as a `[Point2, Point2]` radius. */
  function AsFlex(r: Radii): FlexRadius {
    Pair(Elliptic(r.start), Elliptic(r.end))
  }

  /** The canonical form is a fixed point: normalising the normalised radius
      again gives it back, whatever the default. */
  lemma NormalizeIsIdempotent(radius: Option<FlexRadius>, d: real, d': real)
    ensures NormalizeRadius(Some(AsFlex(NormalizeRadius(radius, d))), d') == NormalizeRadius(radius, d)
  {
  }

  /** Only a `Point2` end can be elliptic: an absent radius, a number, or a
      pair of numbers gives circular ends. */
  lemma CircularUnlessElliptic(radius: Option<FlexRadius>, d: real)
    requires radius.Some? && radius.value.Pair? ==> radius.value.start.Uniform? && radius.value.end.Uniform?
    ensures NormalizeRadius(radius, d).start.x == NormalizeRadius(radius, d).start.y
    ensures NormalizeRadius(radius, d).end.x == NormalizeRadius(radius, d).end.y
  {
  }

  /** Examples of the documented shapes. */
  lemma NormalizeExamples()
    ensures NormalizeRadius(Some(Scalar(5.0)), DefaultRadius) == Radii(Point2(5.0, 5.0), Point2(5.0, 5.0))
    ensures NormalizeRadius(Some(Pair(Uniform(5.0), Uniform(3.0))), DefaultRadius) == Radii(Point2(5.0, 5.0), Point2(3.0, 3.0))
    ensures NormalizeRadius(Some(Pair(Elliptic(Point2(5.0, 3.0)), Elliptic(Point2(5.0, 3.0)))), DefaultRadius)
         == Radii(Point2(5.0, 3.0), Point2(5.0, 3.0))
    ensures NormalizeRadius(None, 2.0) == Radii(Point2(2.0, 2.0), Point2(2.0, 2.0))
    ensures NormalizeRadius(Some(Scalar(0.0)), DefaultRadius) == Radii(Point2(0.0, 0.0), Point2(0.0, 0.0))
  {
  }

  // ---------------------------------------------------------------------
  // The flexible cylinder

  const DefaultHeight: real := 1.0
  const DefaultSegments: int := 32

  /** The engine options shared by every cylinder of one call: the defaults
      `height 1`, `segments 32`, centre at the origin, angle `[0, 2π]`. */
  function Spec(o: FlexCylinderOptions, radii: Radii): CylSpec {
    CylSpec(
      o.height.GetOr(DefaultHeight),
      o.segments.GetOr(DefaultSegments),
      Some(o.center.GetOr(Origin)),
      LiftRadii(radii),
      Some(o.angle.GetOr(Arc(0.0, Tau))))
  }

  /** `options.outer ?? options.radius`. */
  function OuterSource(o: FlexCylinderOptions): Option<FlexRadius> {
    if o.outer.Some? then o.outer else o.radius
  }

  /** Componentwise difference at both ends. */
  function Diff(a: Radii, b: Radii): Radii {
    Radii(Point2(a.start.x - b.start.x, a.start.y - b.start.y), Point2(a.end.x - b.end.x, a.end.y - b.end.y))
  }

  /** The inner radius the call works with: derived from `wall` when a wall is
      given (overriding any `inner`), `inner` otherwise. */
  function InnerRadius(o: FlexCylinderOptions): Option<FlexRadius> {
    if o.wall.Some? then
      var outer := NormalizeRadius(OuterSource(o), DefaultRadius);
      var wall := NormalizeRadius(o.wall, DefaultRadius);
      Some(AsFlex(Diff(outer, wall)))
    else o.inner
  }

  predicate Hollow(o: FlexCylinderOptions) {
    o.inner.Some? || o.wall.Some?
  }

  /** `createCylinder(options)`. */
  function CreateCylinder(o: FlexCylinderOptions): (r: Fluent)
    ensures r.variant == Geom3
    ensures var parts := CylinderParts(r.geom);
            && |parts| == (if Hollow(o) then 2 else 1)
            && (Hollow(o) ==> r.geom == Boolean(SubtractOp, [CylinderElliptic(parts[0]), CylinderElliptic(parts[1])]))
            && (!Hollow(o) ==> r.geom == CylinderElliptic(parts[0]))
            && (forall k :: 0 <= k < |parts| ==>
                  && parts[k].height == o.height.GetOr(DefaultHeight)
                  && parts[k].segments == o.segments.GetOr(DefaultSegments)
                  && parts[k].center == Some(o.center.GetOr(Origin))
                  && parts[k].arc == Some(o.angle.GetOr(Arc(0.0, Tau))))
            && (Hollow(o) ==> parts[0].radii == LiftRadii(NormalizeRadius(OuterSource(o), DefaultRadius)))
            && (o.wall.Some? ==> parts[1].radii == LiftRadii(Diff(NormalizeRadius(OuterSource(o), DefaultRadius),
                                                                   NormalizeRadius(o.wall, DefaultRadius))))
            && (o.wall.None? && o.inner.Some? ==> parts[1].radii == LiftRadii(NormalizeRadius(o.inner, DefaultRadius)))
            && (!Hollow(o) ==> parts[0].radii == LiftRadii(NormalizeRadius(o.radius, DefaultRadius)))
  {
    var innerRadius := InnerRadius(o);
    if innerRadius.Some? then
      var outer := CylinderElliptic(Spec(o, NormalizeRadius(OuterSource(o), DefaultRadius)));
      var inner := CylinderElliptic(Spec(o, NormalizeRadius(innerRadius, DefaultRadius)));
      New(Geom3, Some(Boolean(SubtractOp, [outer, inner])))
    else
      New(Geom3, Some(CylinderElliptic(Spec(o, NormalizeRadius(o.radius, DefaultRadius)))))
  }

  /** A wall overrides an explicit inner radius. */
  lemma WallOverridesInner(o: FlexCylinderOptions, inner: Option<FlexRadius>)
    requires o.wall.Some?
    ensures CreateCylinder(o) == CreateCylinder(o.(inner := inner))
  {
  }

  /** Solid mode reads `radius` only: `outer` alone does not make the solid
      bigger. */
  lemma SolidIgnoresOuter(o: FlexCylinderOptions, outer: Option<FlexRadius>)
    requires !Hollow(o)
    ensures CreateCylinder(o) == CreateCylinder(o.(outer := outer))
  {
  }

  /** Without `outer`, a wall is taken off `radius`. */
  lemma WallFallsBackToRadius(o: FlexCylinderOptions)
    requires o.wall.Some? && o.outer.None?
    ensures CylinderParts(CreateCylinder(o).geom)[1].radii
         == LiftRadii(Diff(NormalizeRadius(o.radius, DefaultRadius), NormalizeRadius(o.wall, DefaultRadius)))
  {
  }

  /** The wall is the wall: outer minus derived inner gives back the
      normalised wall at both ends. */
  lemma WallIsThickness(o: FlexCylinderOptions)
    requires o.wall.Some?
    ensures var outer := NormalizeRadius(OuterSource(o), DefaultRadius);
            Diff(outer, NormalizeRadius(InnerRadius(o), DefaultRadius)) == NormalizeRadius(o.wall, DefaultRadius)
  {
  }

  /** `createCylinder({outer: 6, wall: 1, height: 10})`: a pipe of outer radius
      6 and inner radius 5 at both ends. */
  lemma PipeExample()
    ensures var o := NoOptions.(outer := Some(Scalar(6.0)), wall := Some(Scalar(1.0)), height := Some(10.0));
            var six := Radii(Point2(6.0, 6.0), Point2(6.0, 6.0));
            var five := Radii(Point2(5.0, 5.0), Point2(5.0, 5.0));
            CreateCylinder(o).geom == Boolean(SubtractOp, [
              CylinderElliptic(CylSpec(10.0, 32, Some(Origin), LiftRadii(six), Some(Arc(0.0, Tau)))),
              CylinderElliptic(CylSpec(10.0, 32, Some(Origin), LiftRadii(five), Some(Arc(0.0, Tau))))])
  {
  }
}
