/** What the three copies of the radial/elliptical placement share: the
    option record and its destructuring defaults, `iota`, the linear angle
    schedule, and the per-angle transform of the shape. */
module Placement {
  import opened Wrappers
  import opened Engine

  /** The options object. An absent field takes its destructuring default;
      `radius` absent stands for both `undefined` and `null`. */
  datatype PlacementOptions = PlacementOptions(
    count: Option<int>,
    radius: Option<real>,
    width: Option<real>,
    height: Option<real>,
    start: Option<real>,
    end: Option<real>,
    rotate: bool)

  const DefaultCount: int := 16
  const DefaultWidth: real := 20.0
  const DefaultHeight: real := 20.0
  const DefaultStart: real := 0.0
  const DefaultEnd: real := 360.0

  function Count(o: PlacementOptions): int { o.count.GetOr(DefaultCount) }
  function StartDeg(o: PlacementOptions): real { o.start.GetOr(DefaultStart) }
  function EndDeg(o: PlacementOptions): real { o.end.GetOr(DefaultEnd) }

  /** The ellipse width: a given `radius` overrides `width` with `radius * 2`. */
  function Width(o: PlacementOptions): real {
    if o.radius.Some? then o.radius.value * 2.0 else o.width.GetOr(DefaultWidth)
  }

  /** The ellipse height: a given `radius` overrides `height` with `radius * 2`. */
  function Height(o: PlacementOptions): real {
    if o.radius.Some? then o.radius.value * 2.0 else o.height.GetOr(DefaultHeight)
  }

  /** With a radius the placement is on a circle of that radius. */
  lemma RadiusMakesCircle(o: PlacementOptions)
    requires o.radius.Some?
    ensures Width(o) == Height(o)
    ensures Width(o) / 2.0 == o.radius.value
  {
  }

  /** `n` values `start, start + step, …`, built one at a time. */
  function Steps(n: nat, start: real, step: real): (r: seq<real>)
    ensures |r| == n
    ensures forall i :: 0 <= i < n ==> r[i] == start + (i as real) * step
  {
    if n == 0 then [] else Steps(n - 1, start, step) + [start + ((n - 1) as real) * step]
  }

  /** The unvalidated `iota(n, start, step)` of the shade holder and of the RTK
      clip: `Array.from({ length: n })` takes a negative length as 0. */
  function Iota(n: int, start: real, step: real): (r: seq<real>)
    ensures |r| == (if n < 0 then 0 else n)
    ensures forall i :: 0 <= i < |r| ==> r[i] == start + (i as real) * step
  {
    Steps(if n < 0 then 0 else n, start, step)
  }

  /** The i-th angle of the linear schedule from `startRad` to `endRad` over
      `count` positions. */
  function AngleAt(startRad: real, endRad: real, count: int, i: int): real
    requires count != 1
  {
    startRad + (i as real) * ((endRad - startRad) / ((count - 1) as real))
  }

  /** The schedule starts at `startRad` and, with two or more positions, ends
      exactly at `endRad`. */
  lemma AngleEndpoints(startRad: real, endRad: real, count: int)
    requires count >= 2
    ensures AngleAt(startRad, endRad, count, 0) == startRad
    ensures AngleAt(startRad, endRad, count, count - 1) == endRad
  {
    var d := (count - 1) as real;
    assert ((count - 1) as real) * ((endRad - startRad) / d) == endRad - startRad;
  }

  /** The schedule is strictly increasing when `startRad < endRad` and
      strictly decreasing when `startRad > endRad`. */
  lemma AngleMonotone(startRad: real, endRad: real, count: int, i: int, j: int)
    requires count >= 2 && i < j
    ensures startRad < endRad ==> AngleAt(startRad, endRad, count, i) < AngleAt(startRad, endRad, count, j)
    ensures startRad > endRad ==> AngleAt(startRad, endRad, count, i) > AngleAt(startRad, endRad, count, j)
  {
    var step := (endRad - startRad) / ((count - 1) as real);
    assert startRad < endRad ==> step > 0.0;
    assert startRad > endRad ==> step < 0.0;
    assert AngleAt(startRad, endRad, count, j) - AngleAt(startRad, endRad, count, i) == ((j - i) as real) * step;
  }

  /** One placed copy: optionally `rotateZ(angle)` first, then a translation
      to `(rx cos angle, ry sin angle, 0)`. */
  function Place(trig: Trig, rx: real, ry: real, rotate: bool, shape: Geom, angle: real): (r: Geom)
    ensures r.Transformed? && r.op.Translate?
    ensures r.op.offset == Vec3(rx * trig.cos(angle), ry * trig.sin(angle), 0.0)
    ensures !rotate ==> r.g == shape
    ensures rotate ==> r.g == Transformed(RotateZ(angle), shape)
  {
    var rotated := if rotate then Transformed(RotateZ(angle), shape) else shape;
    Transformed(Translate(Vec3(rx * trig.cos(angle), ry * trig.sin(angle), 0.0)), rotated)
  }

  /** `angles.map(angle => …)`: one placed copy per angle, in angle order. */
  function PlaceAll(trig: Trig, rx: real, ry: real, rotate: bool, shape: Geom, angles: seq<real>): (r: seq<Geom>)
    ensures |r| == |angles|
    ensures forall k :: 0 <= k < |r| ==> r[k] == Place(trig, rx, ry, rotate, shape, angles[k])
  {
    seq(|angles|, k requires 0 <= k < |angles| => Place(trig, rx, ry, rotate, shape, angles[k]))
  }

  /** With radius 0 every copy sits at the origin: the translation is zero and
      only the optional rotation acts. */
  lemma ZeroRadiusPlacesAtOrigin(trig: Trig, rotate: bool, shape: Geom, angle: real)
    ensures Place(trig, 0.0, 0.0, rotate, shape, angle)
         == Transformed(Translate(Origin), if rotate then Transformed(RotateZ(angle), shape) else shape)
  {
  }
}
