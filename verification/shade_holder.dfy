/** The placement copy and the two tube builders of
    `shade-holder/shade-holder.js`. The placement validates nothing but treats
    a single copy specially. */
module ShadeHolder {
  import opened Wrappers
  import opened Engine
  import P = Placement

  /** The angle list: `[startRad]` for one copy, otherwise
      `startRad + i * angleStep` over `iota(count)`. The source computes
      `angleStep` before the test, dividing by zero when `count` is 1; that value
      is never used, and here it is computed only where it is. */
  function Angles(count: int, startRad: real, endRad: real): (r: seq<real>)
    ensures count == 1 ==> r == [startRad]
    ensures count != 1 ==> |r| == (if count < 0 then 0 else count)
    ensures count != 1 ==> forall i :: 0 <= i < |r| ==> r[i] == P.AngleAt(startRad, endRad, count, i)
  {
    if count == 1 then [startRad]
    else
      var angleStep := (endRad - startRad) / ((count - 1) as real);
      var xs := P.Iota(count, 0.0, 1.0);
      seq(|xs|, k requires 0 <= k < |xs| => startRad + xs[k] * angleStep)
  }

  /** The angle of the i-th copy. */
  function AngleOf(o: P.PlacementOptions, i: int): real {
    var startRad := DegToRad(P.StartDeg(o));
    if P.Count(o) == 1 then startRad else P.AngleAt(startRad, DegToRad(P.EndDeg(o)), P.Count(o), i)
  }

  /** The number of copies: one for `count == 1`, otherwise `count` (none for
      `count <= 0`). */
  function Copies(o: P.PlacementOptions): nat {
    if P.Count(o) == 1 then 1 else if P.Count(o) < 0 then 0 else P.Count(o)
  }

  /** `createRotatedPlacement(options, shape)`. */
  function CreateRotatedPlacement(o: P.PlacementOptions, shape: Geom, trig: Trig): (r: seq<Geom>)
    ensures |r| == Copies(o)
    ensures forall i :: 0 <= i < |r| ==>
              r[i] == P.Place(trig, P.Width(o) / 2.0, P.Height(o) / 2.0, o.rotate, shape, AngleOf(o, i))
  {
    var angles := Angles(P.Count(o), DegToRad(P.StartDeg(o)), DegToRad(P.EndDeg(o)));
    P.PlaceAll(trig, P.Width(o) / 2.0, P.Height(o) / 2.0, o.rotate, shape, angles)
  }

  /** One copy is placed at `start`, whatever `end` is. */
  lemma SingleCopyIgnoresEnd(o: P.PlacementOptions, shape: Geom, trig: Trig)
    requires P.Count(o) == 1
    ensures CreateRotatedPlacement(o, shape, trig)
         == [P.Place(trig, P.Width(o) / 2.0, P.Height(o) / 2.0, o.rotate, shape, DegToRad(P.StartDeg(o)))]
  {
    var r := CreateRotatedPlacement(o, shape, trig);
    assert |r| == 1;
  }

  /** A count of zero or less places nothing, and nothing is reported. */
  lemma NoCopiesForNonPositiveCount(o: P.PlacementOptions, shape: Geom, trig: Trig)
    requires P.Count(o) <= 0
    ensures CreateRotatedPlacement(o, shape, trig) == []
  {
  }

  /** `cycl(outer, wall, height)`: a tube, the difference of two plain
      cylinders of 64 segments. */
  function Cycl(outer: real, wall: real, height: real): (r: Geom)
    ensures r.Boolean? && r.bop == SubtractOp && |r.operands| == 2
    ensures r.operands[0].Cylinder? && r.operands[1].Cylinder?
    ensures r.operands[0].radius == outer / 2.0
    ensures r.operands[0].radius - r.operands[1].radius == wall
    ensures r.operands[0].height == height && r.operands[1].height == height
    ensures r.operands[0].segments == 64 && r.operands[1].segments == 64
  {
    Boolean(SubtractOp, [Cylinder(height, outer / 2.0, 64), Cylinder(height, outer / 2.0 - wall, 64)])
  }

  /** A circular end of radius `r`. */
  function Circle(r: real): Vec2 {
    Vec2(Fin(r), Fin(r))
  }

  /** `cone(outer1, outer2, wall, height)`: a tapered tube, the difference of
      two elliptic cylinders of 64 segments (centre and arc left to the
      engine's defaults). */
  function Cone(outer1: real, outer2: real, wall: real, height: real): (r: Geom)
    ensures r.Boolean? && r.bop == SubtractOp && |r.operands| == 2
    ensures r.operands[0].CylinderElliptic? && r.operands[1].CylinderElliptic?
    ensures r.operands[0].spec.radii == RadiusPair(Circle(outer1 / 2.0), Circle(outer2 / 2.0))
    ensures Sub(r.operands[0].spec.radii.start.x, r.operands[1].spec.radii.start.x) == Fin(wall)
    ensures Sub(r.operands[0].spec.radii.end.x, r.operands[1].spec.radii.end.x) == Fin(wall)
    ensures r.operands[1].spec.radii.start.x == r.operands[1].spec.radii.start.y
    ensures r.operands[1].spec.radii.end.x == r.operands[1].spec.radii.end.y
    ensures forall k :: 0 <= k < 2 ==>
              r.operands[k].spec.height == height && r.operands[k].spec.segments == 64
              && r.operands[k].spec.center.None? && r.operands[k].spec.arc.None?
  {
    var radius11 := outer1 / 2.0;
    var radius12 := outer2 / 2.0;
    var radius21 := outer1 / 2.0 - wall;
    var radius22 := outer2 / 2.0 - wall;
    Boolean(SubtractOp, [
      CylinderElliptic(CylSpec(height, 64, None, RadiusPair(Circle(radius11), Circle(radius12)), None)),
      CylinderElliptic(CylSpec(height, 64, None, RadiusPair(Circle(radius21), Circle(radius22)), None))
    ])
  }
}
