/** How the TypeScript `createCylinder` and the JavaScript `cylinder` of
    `utils/cylinder.js` relate. They differ in two places: the JavaScript tests
    absence by falsiness, so a radius of 0 is the absent radius, and it takes
    a wall off `outer` alone, never off `radius`. Away from those inputs they
    build the same cylinders. */
module CylinderCompare {
  import opened Wrappers
  import opened Engine
  import opened FlexTypes
  import FluentIndex
  import JS = UtilsCylinder

  /** A TypeScript radius as the JavaScript receives it. */
  function ToJsEnd(e: RadiusEnd): JS.JsEnd {
    match e
    case Uniform(r) => JS.EndNumber(Fin(r))
    case Elliptic(p) => JS.EndVector(Lift(p))
  }

  function ToJs(x: Option<FlexRadius>): (v: JS.JsValue)
    ensures x.None? <==> v == JS.Undefined
  {
    match x
    case None => JS.Undefined
    case Some(Scalar(r)) => JS.Number(Fin(r))
    case Some(Pair(s, e)) => JS.Pair(ToJsEnd(s), ToJsEnd(e))
  }

  /** The same options object, seen by the JavaScript. */
  function ToJsOptions(o: FlexCylinderOptions): JS.CylinderOptions {
    JS.CylinderOptions(o.height, o.segments, o.center, o.angle, ToJs(o.radius), ToJs(o.outer), ToJs(o.inner), ToJs(o.wall))
  }

  /** The one radius the two normalisations read differently. */
  predicate IsZero(x: Option<FlexRadius>) {
    x == Some(Scalar(0.0))
  }

  /** Both normalisations agree on every radius but a plain 0. */
  lemma NormalizeAgrees(x: Option<FlexRadius>, d: real)
    requires !IsZero(x)
    ensures JS.NormalizeRadius(ToJs(x), Fin(d)) == LiftRadii(FluentIndex.NormalizeRadius(x, d))
  {
  }

  /** A radius of 0 is a radius of 0 to the TypeScript and the absent radius
      (the default) to the JavaScript. */
  lemma ZeroRadiusDiffers(d: real)
    requires d != 0.0
    ensures FluentIndex.NormalizeRadius(Some(Scalar(0.0)), d) == Radii(Point2(0.0, 0.0), Point2(0.0, 0.0))
    ensures JS.NormalizeRadius(ToJs(Some(Scalar(0.0))), Fin(d)) == RadiusPair(Vec2(Fin(d), Fin(d)), Vec2(Fin(d), Fin(d)))
    ensures JS.NormalizeRadius(ToJs(Some(Scalar(0.0))), Fin(d)) != LiftRadii(FluentIndex.NormalizeRadius(Some(Scalar(0.0)), d))
  {
  }

  /** The inputs on which the two cylinders are meant to coincide: no radius
      option is a plain 0, and a wall without `outer` comes without `radius`
      too. */
  predicate Comparable(o: FlexCylinderOptions) {
    && !IsZero(o.radius) && !IsZero(o.outer) && !IsZero(o.inner) && !IsZero(o.wall)
    && (o.wall.Some? && o.outer.None? ==> o.radius.None?)
  }

  /** On comparable options the JavaScript cylinder is the TypeScript one. */
  lemma CylindersAgree(o: FlexCylinderOptions)
    requires Comparable(o)
    ensures JS.Cylinder(ToJsOptions(o)).geom == FluentIndex.CreateCylinder(o).geom
  {
    var j := ToJsOptions(o);
    NormalizeAgrees(o.radius, FluentIndex.DefaultRadius);
    NormalizeAgrees(FluentIndex.OuterSource(o), FluentIndex.DefaultRadius);
    assert JS.Or(j.outer, j.radius) == ToJs(FluentIndex.OuterSource(o));
    if o.wall.Some? {
      NormalizeAgrees(o.outer, FluentIndex.DefaultRadius);
      NormalizeAgrees(o.wall, FluentIndex.DefaultRadius);
      var outer := FluentIndex.NormalizeRadius(FluentIndex.OuterSource(o), FluentIndex.DefaultRadius);
      var wall := FluentIndex.NormalizeRadius(o.wall, FluentIndex.DefaultRadius);
      assert JS.NormalizeRadius(j.wall, JS.WallDefault(j.outer)) == LiftRadii(wall);
      assert JS.WallInner(j) == ToJs(FluentIndex.InnerRadius(o));
    } else if o.inner.Some? {
      NormalizeAgrees(o.inner, FluentIndex.DefaultRadius);
    }
  }

  /** A wall given with `radius` and no `outer`: both build the outer
      cylinder from `radius`, but the TypeScript takes the wall off `radius`
      and the JavaScript takes it off the default outer radius 1. */
  lemma WallOffRadiusDiffers(r: real, w: real)
    requires r != 0.0 && w != 0.0
    ensures var o := NoOptions.(radius := Some(Scalar(r)), wall := Some(Scalar(w)));
            && CylinderParts(FluentIndex.CreateCylinder(o).geom)[1].radii
               == RadiusPair(Vec2(Fin(r - w), Fin(r - w)), Vec2(Fin(r - w), Fin(r - w)))
            && CylinderParts(JS.Cylinder(ToJsOptions(o)).geom)[1].radii
               == RadiusPair(Vec2(Fin(1.0 - w), Fin(1.0 - w)), Vec2(Fin(1.0 - w), Fin(1.0 - w)))
            && CylinderParts(FluentIndex.CreateCylinder(o).geom)[0].radii
               == CylinderParts(JS.Cylinder(ToJsOptions(o)).geom)[0].radii
  {
  }
}
