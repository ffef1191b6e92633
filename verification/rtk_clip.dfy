/** The placement copy of `RTK/RTKClip.js`: no validation and no special case
    for a single copy. With `count == 1` the source divides by zero and the
    angle is NaN; that input is excluded here. */
module RtkClip {
  import opened Wrappers
  import opened Engine
  import P = Placement

  /** The angle list: `startRad + i * angleStep` over `iota(count)`, with
      degrees converted as `deg * PI / 180`. */
  function Angles(count: int, startRad: real, endRad: real): (r: seq<real>)
    requires count != 1
    ensures |r| == (if count < 0 then 0 else count)
    ensures forall i :: 0 <= i < |r| ==> r[i] == P.AngleAt(startRad, endRad, count, i)
  {
    var angleStep := (endRad - startRad) / ((count - 1) as real);
    var xs := P.Iota(count, 0.0, 1.0);
    seq(|xs|, k requires 0 <= k < |xs| => startRad + xs[k] * angleStep)
  }

  /** `createRotatedPlacement(options, shape)`. */
  function CreateRotatedPlacement(o: P.PlacementOptions, shape: Geom, trig: Trig): (r: seq<Geom>)
    requires P.Count(o) != 1
    ensures |r| == (if P.Count(o) < 0 then 0 else P.Count(o))
    ensures forall i :: 0 <= i < |r| ==>
              r[i] == P.Place(trig, P.Width(o) / 2.0, P.Height(o) / 2.0, o.rotate, shape,
                              P.AngleAt(DegToRad(P.StartDeg(o)), DegToRad(P.EndDeg(o)), P.Count(o), i))
  {
    var startRad := DegToRad(P.StartDeg(o));
    var endRad := DegToRad(P.EndDeg(o));
    var angles := Angles(P.Count(o), startRad, endRad);
    P.PlaceAll(trig, P.Width(o) / 2.0, P.Height(o) / 2.0, o.rotate, shape, angles)
  }

  /** The clip arc of `main`: from `90 - gap/2` down to `-270 + gap/2` degrees
      over 25 copies of the given radius. */
  function ClipArcOptions(gap: real, radius: real): P.PlacementOptions {
    P.PlacementOptions(Some(25), Some(radius), None, None, Some(90.0 - gap / 2.0), Some(-270.0 + gap / 2.0), false)
  }

  /** Nothing orders `start` before `end`: for any gap under 360 degrees the
      clip arc of `main` runs backwards, its angles strictly decreasing from
      the start to the end. */
  lemma ClipArcRunsBackwards(gap: real, radius: real)
    requires gap < 360.0
    ensures var o := ClipArcOptions(gap, radius);
            var a := Angles(25, DegToRad(P.StartDeg(o)), DegToRad(P.EndDeg(o)));
            && |a| == 25
            && a[0] == DegToRad(90.0 - gap / 2.0)
            && a[24] == DegToRad(-270.0 + gap / 2.0)
            && forall i, j :: 0 <= i < j < 25 ==> a[i] > a[j]
  {
    var o := ClipArcOptions(gap, radius);
    var s := DegToRad(P.StartDeg(o));
    var e := DegToRad(P.EndDeg(o));
    assert s > e;
    var a := Angles(25, s, e);
    P.AngleEndpoints(s, e, 25);
    forall i, j | 0 <= i < j < 25 ensures a[i] > a[j] {
      P.AngleMonotone(s, e, 25, i, j);
    }
  }
}
