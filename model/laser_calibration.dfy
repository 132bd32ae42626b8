/** Axis signs, neutral positions, travel limits and rotation-distance conversions of the mirror axes. */
module LaserCalibration {
  import opened Wrappers
  import opened Transcendentals

  const Y_SIGN: real := -1.0
  const X_SIGN: real := 1.0

  const X_NEUTRAL_MM: real := 108.5
  const Y_NEUTRAL_MM: real := 71.0

  const Y_MIN: real := 0.0
  const Y_MAX: real := 136.8
  const X_MIN: real := 0.0
  const X_MAX: real := 207.0

  const Y_ROTATION_DISTANCE: real := 720.0
  const X_ROTATION_DISTANCE: real := 720.0

  const LASER_HEIGHT_M: real := 1.119

  /** Klipper "mm" per radian of mirror rotation: one full turn (2 pi) is one rotation distance. */
  function MmPerRad(lib: Maths, rotationDistance: real): (k: real)
    ensures k * (2.0 * lib.pi) == rotationDistance
  {
    rotationDistance / (2.0 * lib.pi)
  }

  /** Klipper "mm" per degree: 360 degrees is one rotation distance. */
  function MmPerDeg(rotationDistance: real): (k: real)
    ensures k * 360.0 == rotationDistance
  {
    rotationDistance / 360.0
  }

  /** Degrees per Klipper "mm"; Python raises ZeroDivisionError for a zero rotation distance. */
  function DegPerMm(rotationDistance: real): (k: Result<real>)
    ensures k.Ok? <==> rotationDistance != 0.0
    ensures k.Ok? ==> k.value * rotationDistance == 360.0
  {
    if rotationDistance == 0.0 then Err(ZeroDivisionError) else Ok(360.0 / rotationDistance)
  }

  /** The two per-degree conversions are inverse to each other. */
  lemma MmPerDegInverse(rotationDistance: real)
    requires rotationDistance != 0.0
    ensures MmPerDeg(rotationDistance) * DegPerMm(rotationDistance).value == 1.0
  {
    var a, b := MmPerDeg(rotationDistance), DegPerMm(rotationDistance).value;
    assert a == rotationDistance / 360.0;
    assert b == 360.0 / rotationDistance;
    calc {
      a * b;
      (rotationDistance / 360.0) * (360.0 / rotationDistance);
      (rotationDistance * 360.0) / (360.0 * rotationDistance);
      1.0;
    }
  }

  /** The rotation distance that makes a commanded move of commandedMm turn the mirror by measuredDegrees. */
  function ComputeRotationDistance(commandedMm: real, measuredDegrees: real): (r: Result<real>)
    ensures r.Err? <==> measuredDegrees <= 0.0 || commandedMm <= 0.0
    ensures r.Ok? ==> r.value > 0.0 && r.value * measuredDegrees == commandedMm * 360.0
  {
    if measuredDegrees <= 0.0 then Err(ValueError)
    else if commandedMm <= 0.0 then Err(ValueError)
    else Ok(commandedMm * (360.0 / measuredDegrees))
  }

  /** The worked example of the calibration procedure: 10 mm that turned the mirror 5 degrees gives 720. */
  lemma RotationDistanceExample()
    ensures ComputeRotationDistance(10.0, 5.0) == Ok(720.0)
  {
  }

  /** With the computed rotation distance, the commanded move converts back to the measured angle. */
  lemma RotationDistanceRoundTrip(commandedMm: real, measuredDegrees: real)
    requires commandedMm > 0.0 && measuredDegrees > 0.0
    ensures commandedMm * DegPerMm(ComputeRotationDistance(commandedMm, measuredDegrees).value).value == measuredDegrees
  {
    var r := ComputeRotationDistance(commandedMm, measuredDegrees).value;
    assert r == commandedMm * 360.0 / measuredDegrees;
    calc {
      commandedMm * DegPerMm(r).value;
      commandedMm * (360.0 / r);
      commandedMm * (360.0 / (commandedMm * 360.0 / measuredDegrees));
      measuredDegrees;
    }
  }

  /**
   * Plausibility check of a rotation distance. Both warnings print deg_per_mm of the value,
   * so a rotation distance of zero (below the lower bound) raises ZeroDivisionError there.
   */
  function ValidateRotationDistance(rotationDistance: real): (r: Result<bool>)
    ensures r.Err? <==> rotationDistance == 0.0
    ensures r.Err? ==> r.error == ZeroDivisionError
    ensures r.Ok? ==> (r.value <==> 50.0 <= rotationDistance <= 5000.0)
  {
    if rotationDistance < 50.0 then
      if DegPerMm(rotationDistance).Err? then Err(ZeroDivisionError) else Ok(false)
    else if rotationDistance > 5000.0 then
      if DegPerMm(rotationDistance).Err? then Err(ZeroDivisionError) else Ok(false)
    else Ok(true)
  }

  /** The neutral mirror positions lie inside the travel limits. */
  lemma NeutralWithinLimits()
    ensures X_MIN <= X_NEUTRAL_MM <= X_MAX
    ensures Y_MIN <= Y_NEUTRAL_MM <= Y_MAX
  {
  }
}
