/** The validated placement of `utils/rotatedPlacement.js`: every option is
    checked, in a fixed order, before any transform, and a violation throws. */
module UtilsPlacement {
  import opened Wrappers
  import opened Engine
  import P = Placement

  /** `iota(n, start, step)`: a negative length is refused. */
  function Iota(n: int, start: real, step: real): (r: Result<seq<real>>)
    ensures r.Failure? <==> n < 0
    ensures r.Failure? ==> r.error == "Length must be a non-negative integer"
    ensures r.Success? ==> |r.value| == n
    ensures r.Success? ==> forall i :: 0 <= i < n ==> r.value[i] == start + (i as real) * step
  {
    if n < 0 then Failure("Length must be a non-negative integer")
    else Success(P.Steps(n, start, step))
  }

  /** The angle list: `[startRad]` for one copy, otherwise
      `startRad + i * (endRad - startRad) / (count - 1)` over `iota(count)`. */
  function Angles(count: int, startRad: real, endRad: real): (r: seq<real>)
    requires count >= 1
    ensures |r| == count
    ensures count == 1 ==> r[0] == startRad
    ensures count >= 2 ==> forall i :: 0 <= i < count ==> r[i] == P.AngleAt(startRad, endRad, count, i)
  {
    if count == 1 then [startRad]
    else
      var xs := Iota(count, 0.0, 1.0).value;
      seq(|xs|, k requires 0 <= k < |xs| => startRad + xs[k] * (endRad - startRad) / ((count - 1) as real))
  }

  /** For a valid arc the angles run from `startRad` to `endRad`, strictly
      increasing. */
  lemma AnglesSpanArc(count: int, startRad: real, endRad: real)
    requires count >= 1 && startRad < endRad
    ensures Angles(count, startRad, endRad)[0] == startRad
    ensures Angles(count, startRad, endRad)[count - 1] == (if count == 1 then startRad else endRad)
    ensures forall i, j :: 0 <= i < j < count ==> Angles(count, startRad, endRad)[i] < Angles(count, startRad, endRad)[j]
  {
    var r := Angles(count, startRad, endRad);
    if count >= 2 {
      P.AngleEndpoints(startRad, endRad, count);
      forall i, j | 0 <= i < j < count ensures r[i] < r[j] {
        P.AngleMonotone(startRad, endRad, count, i, j);
      }
    }
  }

  /** The options the placement accepts: a shape, a positive count, a
      non-empty increasing arc and a positive ellipse. */
  predicate Valid(o: P.PlacementOptions, shape: Option<Geom>) {
    && shape.Some?
    && P.Count(o) >= 1
    && P.StartDeg(o) < P.EndDeg(o)
    && P.Width(o) > 0.0
    && P.Height(o) > 0.0
  }

  /** The angle of the i-th copy. */
  function AngleOf(o: P.PlacementOptions, i: int): real {
    var startRad := DegToRad(P.StartDeg(o));
    if P.Count(o) == 1 then startRad else P.AngleAt(startRad, DegToRad(P.EndDeg(o)), P.Count(o), i)
  }

  /** `rotatedPlacement(options, shape)`. */
  function RotatedPlacement(o: P.PlacementOptions, shape: Option<Geom>, trig: Trig): (r: Result<seq<Geom>>)
    ensures r.Success? <==> Valid(o, shape)
    ensures shape.None? ==> r == Failure("Shape parameter is required")
    ensures shape.Some? && P.Count(o) < 1 ==> r == Failure("Count must be a positive integer")
    ensures shape.Some? && P.Count(o) >= 1 && P.StartDeg(o) >= P.EndDeg(o)
            ==> r == Failure("Start angle must be less than end angle")
    ensures shape.Some? && P.Count(o) >= 1 && P.StartDeg(o) < P.EndDeg(o) && (P.Width(o) <= 0.0 || P.Height(o) <= 0.0)
            ==> r == Failure("Invalid dimensions: width and height must be positive")
    ensures r.Success? ==> |r.value| == P.Count(o)
    ensures r.Success? ==> forall i :: 0 <= i < |r.value| ==>
              r.value[i] == P.Place(trig, P.Width(o) / 2.0, P.Height(o) / 2.0, o.rotate, shape.value, AngleOf(o, i))
  {
    if shape.None? then Failure("Shape parameter is required")
    else if P.Count(o) < 1 then Failure("Count must be a positive integer")
    else if P.StartDeg(o) >= P.EndDeg(o) then Failure("Start angle must be less than end angle")
    else
      var finalWidth := P.Width(o);
      var finalHeight := P.Height(o);
      if finalWidth <= 0.0 || finalHeight <= 0.0 then
        Failure("Invalid dimensions: width and height must be positive")
      else
        var angles := Angles(P.Count(o), DegToRad(P.StartDeg(o)), DegToRad(P.EndDeg(o)));
        Success(P.PlaceAll(trig, finalWidth / 2.0, finalHeight / 2.0, o.rotate, shape.value, angles))
  }
}
