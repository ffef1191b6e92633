/** How the three placement copies relate: where they agree, and the inputs
    on which the validated copy refuses what the others accept. */
module PlacementCompare {
  import opened Wrappers
  import opened Engine
  import P = Placement
  import UtilsPlacement
  import ShadeHolder
  import RtkClip

  /** Whatever the validated placement accepts, the shade-holder copy places
      identically. */
  lemma ShadeAgreesWithUtils(o: P.PlacementOptions, shape: Geom, trig: Trig)
    requires UtilsPlacement.RotatedPlacement(o, Some(shape), trig).Success?
    ensures ShadeHolder.CreateRotatedPlacement(o, shape, trig)
         == UtilsPlacement.RotatedPlacement(o, Some(shape), trig).value
  {
    var u := UtilsPlacement.RotatedPlacement(o, Some(shape), trig).value;
    var s := ShadeHolder.CreateRotatedPlacement(o, shape, trig);
    assert |s| == |u|;
    forall i | 0 <= i < |s| ensures s[i] == u[i] {
      assert ShadeHolder.AngleOf(o, i) == UtilsPlacement.AngleOf(o, i);
    }
  }

  /** Away from a single copy the RTK copy and the shade-holder copy agree. */
  lemma RtkAgreesWithShade(o: P.PlacementOptions, shape: Geom, trig: Trig)
    requires P.Count(o) != 1
    ensures RtkClip.CreateRotatedPlacement(o, shape, trig) == ShadeHolder.CreateRotatedPlacement(o, shape, trig)
  {
    var r := RtkClip.CreateRotatedPlacement(o, shape, trig);
    var s := ShadeHolder.CreateRotatedPlacement(o, shape, trig);
    assert |r| == |s|;
  }

  /** The arch top of the shade holder: one copy with `start == end == 60`.
      The validated placement refuses it; the shade-holder copy places the
      single copy at 60 degrees. */
  lemma ArchTopAcceptedOnlyByShade(radius: real, shape: Geom, trig: Trig)
    ensures var o := P.PlacementOptions(Some(1), Some(radius), None, None, Some(60.0), Some(60.0), true);
            && UtilsPlacement.RotatedPlacement(o, Some(shape), trig) == Failure("Start angle must be less than end angle")
            && ShadeHolder.CreateRotatedPlacement(o, shape, trig)
               == [P.Place(trig, radius, radius, true, shape, DegToRad(60.0))]
  {
    var o := P.PlacementOptions(Some(1), Some(radius), None, None, Some(60.0), Some(60.0), true);
    ShadeHolder.SingleCopyIgnoresEnd(o, shape, trig);
  }

  /** The three arches of the shade holder: `radius: 0` over 0..240 degrees.
      The validated placement refuses the zero radius; the shade-holder copy
      leaves every copy at the origin, only rotated by its angle. */
  lemma ZeroRadiusAcceptedOnlyByShade(shape: Geom, trig: Trig)
    ensures var o := P.PlacementOptions(Some(3), Some(0.0), None, None, Some(0.0), Some(240.0), true);
            var r := ShadeHolder.CreateRotatedPlacement(o, shape, trig);
            && UtilsPlacement.RotatedPlacement(o, Some(shape), trig)
               == Failure("Invalid dimensions: width and height must be positive")
            && |r| == 3
            && forall i :: 0 <= i < 3 ==>
                 r[i] == Transformed(Translate(Origin), Transformed(RotateZ(DegToRad(120.0 * (i as real))), shape))
  {
    var o := P.PlacementOptions(Some(3), Some(0.0), None, None, Some(0.0), Some(240.0), true);
    var r := ShadeHolder.CreateRotatedPlacement(o, shape, trig);
    forall i | 0 <= i < 3
      ensures r[i] == Transformed(Translate(Origin), Transformed(RotateZ(DegToRad(120.0 * (i as real))), shape))
    {
      assert ShadeHolder.AngleOf(o, i) == DegToRad(120.0 * (i as real));
      P.ZeroRadiusPlacesAtOrigin(trig, true, shape, ShadeHolder.AngleOf(o, i));
    }
  }

  /** Four copies on a circle of radius 10 over 0..270 degrees sit at 0, 90,
      180 and 270 degrees. */
  lemma QuarterTurns(shape: Geom, trig: Trig, rotate: bool)
    ensures var o := P.PlacementOptions(Some(4), Some(10.0), None, None, Some(0.0), Some(270.0), rotate);
            var r := UtilsPlacement.RotatedPlacement(o, Some(shape), trig);
            && r.Success? && |r.value| == 4
            && forall i :: 0 <= i < 4 ==> r.value[i] == P.Place(trig, 10.0, 10.0, rotate, shape, (i as real) * Pi / 2.0)
  {
    var o := P.PlacementOptions(Some(4), Some(10.0), None, None, Some(0.0), Some(270.0), rotate);
    forall i | 0 <= i < 4 ensures UtilsPlacement.AngleOf(o, i) == (i as real) * Pi / 2.0 {
    }
  }

  /** A single copy over an empty arc (`start == end == 30`) is refused by the
      validated placement and placed at 30 degrees by the shade-holder copy. */
  lemma EmptyArcSingleCopy(shape: Geom, trig: Trig)
    ensures var o := P.PlacementOptions(Some(1), None, None, None, Some(30.0), Some(30.0), false);
            && UtilsPlacement.RotatedPlacement(o, Some(shape), trig).Failure?
            && ShadeHolder.CreateRotatedPlacement(o, shape, trig)
               == [P.Place(trig, 10.0, 10.0, false, shape, DegToRad(30.0))]
  {
    var o := P.PlacementOptions(Some(1), None, None, None, Some(30.0), Some(30.0), false);
    ShadeHolder.SingleCopyIgnoresEnd(o, shape, trig);
  }

  /** No copies and a reversed arc are each refused before anything is placed. */
  lemma RefusedOptions(shape: Geom, trig: Trig)
    ensures UtilsPlacement.RotatedPlacement(P.PlacementOptions(Some(0), None, None, None, None, None, false), Some(shape), trig)
         == Failure("Count must be a positive integer")
    ensures UtilsPlacement.RotatedPlacement(P.PlacementOptions(Some(5), None, None, None, Some(10.0), Some(5.0), false), Some(shape), trig)
         == Failure("Start angle must be less than end angle")
  {
  }
}
