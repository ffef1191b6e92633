/** The older flexible cylinder of `utils/cylinder.js`. Its options are
    untyped JavaScript values: absence is decided by falsiness, a default wall
    and a default inner radius are derived by multiplying whatever `outer` is,
    and the derived inner radius is written back into the caller's options. */
module UtilsCylinder {
  import opened Wrappers
  import opened Engine

  /** One end of an array radius: a number or a 2-vector. */
  datatype JsEnd = EndNumber(n: Num) | EndVector(v: Vec2)

  /** A radius-like option as JavaScript sees it. */
  datatype JsValue = Undefined | Null | Number(n: Num) | Pair(start: JsEnd, end: JsEnd) {

    /** Falsy values: `undefined`, `null`, `0` and `NaN`. */
    predicate Truthy() {
      match this
      case Undefined => false
      case Null => false
      case Number(n) => n.Truthy()
      case Pair(_, _) => true
    }

    /** The number `*` sees: an array of two or more numbers is NaN, `null`
        is 0, `undefined` is NaN. */
    function ToNumber(): Num {
      match this
      case Undefined => NaN
      case Null => Fin(0.0)
      case Number(n) => n
      case Pair(_, _) => NaN
    }
  }

  /** `a || b`. */
  function Or(a: JsValue, b: JsValue): JsValue {
    if a.Truthy() then a else b
  }

  /** The options object; `height`, `segments`, `center` and `angle` absent
      take `DEFAULT_OPTIONS`. */
  datatype CylinderOptions = CylinderOptions(
    height: Option<real>,
    segments: Option<int>,
    center: Option<Vec3>,
    angle: Option<Arc>,
    radius: JsValue,
    outer: JsValue,
    inner: JsValue,
    wall: JsValue)

  const NoOptions: CylinderOptions := CylinderOptions(None, None, None, None, Undefined, Undefined, Undefined, Undefined)

  /** An end of an array radius as a 2-vector: a number `s` is `[s, s]`. */
  function EndVec(e: JsEnd): Vec2 {
    match e
    case EndNumber(s) => Vec2(s, s)
    case EndVector(v) => v
  }

  /** `normalizeRadius(radius, defaultValue)`: any falsy radius is absent. */
  function NormalizeRadius(radius: JsValue, defaultValue: Num): (r: RadiusPair)
    ensures !radius.Truthy() ==> r == RadiusPair(Vec2(defaultValue, defaultValue), Vec2(defaultValue, defaultValue))
    ensures radius.Number? && radius.Truthy() ==> r == RadiusPair(Vec2(radius.n, radius.n), Vec2(radius.n, radius.n))
    ensures radius.Pair? ==> r.start == EndVec(radius.start) && r.end == EndVec(radius.end)
  {
    if !radius.Truthy() then RadiusPair(Vec2(defaultValue, defaultValue), Vec2(defaultValue, defaultValue))
    else if !radius.Pair? then RadiusPair(Vec2(radius.n, radius.n), Vec2(radius.n, radius.n))
    else RadiusPair(EndVec(radius.start), EndVec(radius.end))
  }

  /** `0`, `null` and `undefined` are all the absent radius. */
  lemma FalsyRadiusIsAbsent(d: Num)
    ensures NormalizeRadius(Number(Fin(0.0)), d) == NormalizeRadius(Undefined, d)
    ensures NormalizeRadius(Null, d) == NormalizeRadius(Undefined, d)
    ensures NormalizeRadius(Undefined, d) == RadiusPair(Vec2(d, d), Vec2(d, d))
  {
  }

  /** The default wall: `options.outer * 0.2 || 0.2`. */
  function WallDefault(outer: JsValue): Num {
    var fifth := Mul(outer.ToNumber(), 0.2);
    if fifth.Truthy() then fifth else Fin(0.2)
  }

  /** `Vec2` difference, `a.map((r, i) => r - b[i])`. */
  function VecSub(a: Vec2, b: Vec2): Vec2 {
    Vec2(Sub(a.x, b.x), Sub(a.y, b.y))
  }

  /** The inner radius derived from a wall, as written back into
      `options.inner`: `normalizeRadius(outer) - normalizeRadius(wall, default)`
      at both ends. Only `outer` is read, never `radius`. */
  function WallInner(o: CylinderOptions): JsValue {
    var outer := NormalizeRadius(o.outer, Fin(1.0));
    var wall := NormalizeRadius(o.wall, WallDefault(o.outer));
    Pair(EndVector(VecSub(outer.start, wall.start)), EndVector(VecSub(outer.end, wall.end)))
  }

  /** The engine options of every cylinder of one call. */
  function Spec(o: CylinderOptions, radii: RadiusPair): CylSpec {
    CylSpec(
      o.height.GetOr(1.0),
      o.segments.GetOr(32),
      Some(o.center.GetOr(Origin)),
      radii,
      Some(o.angle.GetOr(Arc(0.0, Tau))))
  }

  /** What `cylinder(options)` returns, with the options object as the call
      leaves it. */
  datatype Built = Built(geom: Geom, options: CylinderOptions)

  /** `cylinder(options)`. */
  function Cylinder(o: CylinderOptions): (r: Built)
    ensures o.wall != Undefined ==> r.options == o.(inner := WallInner(o))
    ensures o.wall == Undefined ==> r.options == o
    ensures var parts := CylinderParts(r.geom);
            var hollow := r.options.inner != Undefined;
            var source := Or(o.outer, o.radius);
            && |parts| == (if hollow then 2 else 1)
            && (hollow ==> r.geom == Boolean(SubtractOp, [CylinderElliptic(parts[0]), CylinderElliptic(parts[1])]))
            && (!hollow ==> r.geom == CylinderElliptic(parts[0]))
            && (forall k :: 0 <= k < |parts| ==>
                  && parts[k].height == o.height.GetOr(1.0)
                  && parts[k].segments == o.segments.GetOr(32)
                  && parts[k].center == Some(o.center.GetOr(Origin))
                  && parts[k].arc == Some(o.angle.GetOr(Arc(0.0, Tau))))
            && (hollow ==> parts[0].radii == NormalizeRadius(source, Fin(1.0)))
            && (hollow ==> parts[1].radii == NormalizeRadius(r.options.inner, Mul(source.ToNumber(), 0.8)))
            && (!hollow ==> parts[0].radii == NormalizeRadius(o.radius, Fin(1.0)))
  {
    var options := if o.wall != Undefined then o.(inner := WallInner(o)) else o;
    if options.inner != Undefined then
      var source := Or(options.outer, options.radius);
      var outer := CylinderElliptic(Spec(options, NormalizeRadius(source, Fin(1.0))));
      var inner := CylinderElliptic(Spec(options, NormalizeRadius(options.inner, Mul(source.ToNumber(), 0.8))));
      Built(Boolean(SubtractOp, [outer, inner]), options)
    else
      Built(CylinderElliptic(Spec(options, NormalizeRadius(options.radius, Fin(1.0)))), options)
  }

  /** The inner cylinder of a wall-derived pipe is exactly the radius written
      back, and outer minus inner gives the wall back at both ends. */
  lemma WallIsThickness(o: CylinderOptions)
    requires o.wall != Undefined
    ensures var r := Cylinder(o);
            var outer := NormalizeRadius(o.outer, Fin(1.0));
            var wall := NormalizeRadius(o.wall, WallDefault(o.outer));
            && CylinderParts(r.geom)[1].radii == RadiusPair(VecSub(outer.start, wall.start), VecSub(outer.end, wall.end))
            && (outer.start.x.Fin? && wall.start.x.Fin? ==>
                  Sub(outer.start.x, CylinderParts(r.geom)[1].radii.start.x) == wall.start.x)
            && (outer.start.y.Fin? && wall.start.y.Fin? ==>
                  Sub(outer.start.y, CylinderParts(r.geom)[1].radii.start.y) == wall.start.y)
            && (outer.end.x.Fin? && wall.end.x.Fin? ==>
                  Sub(outer.end.x, CylinderParts(r.geom)[1].radii.end.x) == wall.end.x)
            && (outer.end.y.Fin? && wall.end.y.Fin? ==>
                  Sub(outer.end.y, CylinderParts(r.geom)[1].radii.end.y) == wall.end.y)
  {
  }

  /** A wall overrides any explicit inner radius. */
  lemma WallOverridesInner(o: CylinderOptions, inner: JsValue)
    requires o.wall != Undefined
    ensures Cylinder(o).geom == Cylinder(o.(inner := inner)).geom
  {
  }

  /** The wall is taken off `outer` (default 1) and never off `radius`, even
      though the outer cylinder itself falls back to `radius`. */
  lemma WallIgnoresRadius(o: CylinderOptions, radius: JsValue)
    requires o.wall != Undefined
    ensures Cylinder(o).options.inner == Cylinder(o.(radius := radius)).options.inner
  {
  }

  /** A wall of 0 is falsy, so it takes the default of a fifth of a numeric
      outer radius: the inner radius is four fifths of the outer one. */
  lemma ZeroWallIsFifthOfOuter(x: real)
    requires x != 0.0
    ensures var o := NoOptions.(outer := Number(Fin(x)), wall := Number(Fin(0.0)));
            CylinderParts(Cylinder(o).geom)[1].radii
            == RadiusPair(Vec2(Fin(x - x * 0.2), Fin(x - x * 0.2)), Vec2(Fin(x - x * 0.2), Fin(x - x * 0.2)))
  {
  }

  /** An inner radius of 0 is still defined, so the cylinder is hollow, but it
      is falsy, so the inner radius becomes `(outer || radius) * 0.8`: four
      fifths of a numeric outer radius, and NaN for an array one. */
  lemma ZeroInnerDefaultsToFourFifths(x: real, outerEnds: (JsEnd, JsEnd))
    requires x != 0.0
    ensures var o := NoOptions.(outer := Number(Fin(x)), inner := Number(Fin(0.0)));
            CylinderParts(Cylinder(o).geom)[1].radii
            == RadiusPair(Vec2(Fin(x * 0.8), Fin(x * 0.8)), Vec2(Fin(x * 0.8), Fin(x * 0.8)))
    ensures var o := NoOptions.(outer := Pair(outerEnds.0, outerEnds.1), inner := Number(Fin(0.0)));
            CylinderParts(Cylinder(o).geom)[1].radii == RadiusPair(Vec2(NaN, NaN), Vec2(NaN, NaN))
  {
  }

  // ---------------------------------------------------------------------
  // The example layout of `main`

  function N(x: real): JsValue { Number(Fin(x)) }
  function Taper(a: real, b: real): JsValue { Pair(EndNumber(Fin(a)), EndNumber(Fin(b))) }
  function Ellipse(a: real, b: real): JsValue {
    Pair(EndVector(Vec2(Fin(a), Fin(b))), EndVector(Vec2(Fin(a), Fin(b))))
  }

  const SolidShapes: seq<CylinderOptions> := [
    NoOptions.(radius := N(5.0)),
    NoOptions.(radius := Taper(5.0, 3.0)),
    NoOptions.(radius := Ellipse(5.0, 3.0)),
    NoOptions.(radius := N(5.0), angle := Some(Arc(0.0, Tau / 4.0)))
  ]

  const HollowShapes: seq<CylinderOptions> := [
    NoOptions.(outer := N(6.0), inner := N(4.0)),
    NoOptions.(outer := Taper(6.0, 4.0), inner := Taper(4.0, 2.5)),
    NoOptions.(outer := Ellipse(6.0, 4.0), inner := Ellipse(4.0, 2.5)),
    NoOptions.(outer := N(6.0), inner := N(4.0), angle := Some(Arc(0.0, Tau / 2.0)))
  ]

  const PipeShapes: seq<CylinderOptions> := [
    NoOptions.(outer := N(6.0), wall := N(1.0)),
    NoOptions.(outer := Taper(6.0, 4.0), wall := Taper(1.0, 0.8)),
    NoOptions.(outer := Ellipse(6.0, 4.0), wall := Ellipse(1.5, 0.5)),
    NoOptions.(outer := N(6.0), wall := N(1.0), angle := Some(Arc(0.0, Tau * 3.0 / 4.0)))
  ]

  /** One row of the layout: shape `i` at `x = i * 20 - 20`, height 10. */
  function Row(shapes: seq<CylinderOptions>, y: real): (r: seq<Geom>)
    ensures |r| == |shapes|
    ensures forall i :: 0 <= i < |r| ==>
              r[i] == Cylinder(shapes[i].(height := Some(10.0), center := Some(Vec3((i * 20 - 20) as real, y, 0.0)))).geom
  {
    seq(|shapes|, i requires 0 <= i < |shapes| =>
      Cylinder(shapes[i].(height := Some(10.0), center := Some(Vec3((i * 20 - 20) as real, y, 0.0)))).geom)
  }

  /** `main()`: the solid row at y = 25, the hollow row at y = 0 and the pipe
      row at y = -25. */
  function Main(): seq<Geom> {
    Row(SolidShapes, 25.0) + Row(HollowShapes, 0.0) + Row(PipeShapes, -25.0)
  }

  /** Every cylinder of a row has height 10 and sits at its slot. */
  lemma RowLayout(shapes: seq<CylinderOptions>, y: real)
    ensures forall i, k :: 0 <= i < |shapes| && 0 <= k < |CylinderParts(Row(shapes, y)[i])| ==>
              && CylinderParts(Row(shapes, y)[i])[k].height == 10.0
              && CylinderParts(Row(shapes, y)[i])[k].center == Some(Vec3((i * 20 - 20) as real, y, 0.0))
  {
    var r := Row(shapes, y);
    forall i, k | 0 <= i < |shapes| && 0 <= k < |CylinderParts(r[i])|
      ensures CylinderParts(r[i])[k].height == 10.0
      ensures CylinderParts(r[i])[k].center == Some(Vec3((i * 20 - 20) as real, y, 0.0))
    {
      var o := shapes[i].(height := Some(10.0), center := Some(Vec3((i * 20 - 20) as real, y, 0.0)));
      assert r[i] == Cylinder(o).geom;
    }
  }

  /** A cylinder sits at slot `i` of a row at height `y`: every part has
      height 10 and centre `(i * 20 - 20, y, 0)`. */
  predicate AtSlot(g: Geom, i: int, y: real) {
    forall k :: 0 <= k < |CylinderParts(g)| ==>
      && CylinderParts(g)[k].height == 10.0
      && CylinderParts(g)[k].center == Some(Vec3((i * 20 - 20) as real, y, 0.0))
  }

  /** `main()` gives 12 cylinders: the solid row at y = 25, the hollow row at
      y = 0 and the pipe row at y = -25, each cylinder of height 10 at the
      x of its index in the row. */
  lemma MainLayout()
    ensures |Main()| == 12
    ensures forall i :: 0 <= i < 4 ==> AtSlot(Main()[i], i, 25.0)
    ensures var hollow := Main()[4..8]; forall i :: 0 <= i < 4 ==> AtSlot(hollow[i], i, 0.0)
    ensures var pipes := Main()[8..]; forall i :: 0 <= i < 4 ==> AtSlot(pipes[i], i, -25.0)
  {
    var a, b, c := Row(SolidShapes, 25.0), Row(HollowShapes, 0.0), Row(PipeShapes, -25.0);
    RowLayout(SolidShapes, 25.0);
    RowLayout(HollowShapes, 0.0);
    RowLayout(PipeShapes, -25.0);
    assert Main() == a + b + c;
    forall i | 0 <= i < 4 ensures AtSlot(Main()[i], i, 25.0) {
      assert Main()[i] == a[i];
    }
    assert Main()[4..8] == b;
    assert Main()[8..] == c;
  }

  /** The first pipe of `main` (outer 6, wall 1) is hollow with inner radius 5
      at both ends. */
  lemma MainFirstPipe()
    ensures |CylinderParts(Main()[8])| == 2
    ensures CylinderParts(Main()[8])[0].radii == RadiusPair(Vec2(Fin(6.0), Fin(6.0)), Vec2(Fin(6.0), Fin(6.0)))
    ensures CylinderParts(Main()[8])[1].radii == RadiusPair(Vec2(Fin(5.0), Fin(5.0)), Vec2(Fin(5.0), Fin(5.0)))
  {
    assert Main()[8] == Row(PipeShapes, -25.0)[0];
  }
}
