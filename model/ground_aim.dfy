/**
 * Motor deltas that put the laser spot on a ground point (x to the right, z forward,
 * both in metres): the mirror half-angle law, roll compensation on the Y axis only,
 * and the conversion of mirror radians into Klipper "mm".
 */
module GroundAim {
  import opened Wrappers
  import opened Transcendentals
  import opened LaserCalibration

  /** Angle of the beam below the horizontal that reaches a ground point at the given horizontal distance. */
  function BeamAngle(lib: Maths, groundDist: real): (a: real)
    requires groundDist > 0.0
    ensures a > 0.0
  {
    lib.atan(LASER_HEIGHT_M / groundDist)
  }

  /** Horizontal distance from the laser to the ground point. */
  function GroundDistance(lib: Maths, x: real, z: real): (d: real)
    requires z > 0.0
    ensures d > 0.0
  {
    lib.sqrt(x * x + z * z)
  }

  /**
   * (dx_mm, dy_mm) to add to the neutral position to hit (x, z); `roll` is the platform
   * roll in radians (the module global PLATFORM_ROLL_RAD). A point not in front of the
   * laser (z <= 0) raises ValueError.
   */
  function MotorDeltas(lib: Maths, roll: real, x: real, z: real): (r: Result<(real, real)>)
    ensures r.Err? <==> z <= 0.0
    ensures r.Err? ==> r.error == ValueError
  {
    if z <= 0.0 then Err(ValueError)
    else
      var alphaMirror := BeamAngle(lib, GroundDistance(lib, x, z)) / 2.0;
      var alphaY := alphaMirror - roll / 2.0;
      var dy := Y_SIGN * alphaY * MmPerRad(lib, Y_ROTATION_DISTANCE);
      var dx := X_SIGN * (lib.atan2(x, z) / 2.0) * MmPerRad(lib, X_ROTATION_DISTANCE);
      Ok((dx, dy))
  }

  /**
   * The mirror half-angle law, read back from the Y delta: the mirror rotation the delta
   * commands, plus half the roll, is half the beam angle, so doubling it gives the beam
   * angle below the horizontal.
   */
  lemma HalfAngleLaw(lib: Maths, roll: real, x: real, z: real)
    requires z > 0.0
    ensures var dy := MotorDeltas(lib, roll, x, z).value.1;
      2.0 * (dy / (Y_SIGN * MmPerRad(lib, Y_ROTATION_DISTANCE)) + roll / 2.0)
        == BeamAngle(lib, GroundDistance(lib, x, z))
  {
    var k := Y_SIGN * MmPerRad(lib, Y_ROTATION_DISTANCE);
    assert MmPerRad(lib, Y_ROTATION_DISTANCE) > 0.0;
    var alpha := BeamAngle(lib, GroundDistance(lib, x, z)) / 2.0 - roll / 2.0;
    assert MotorDeltas(lib, roll, x, z).value.1 == alpha * k;
    assert alpha * k / k == alpha;
  }

  /** The same law on the X axis: the mirror rotation the X delta commands, doubled, is the beam's yaw atan2(x, z). */
  lemma HalfAngleLawX(lib: Maths, roll: real, x: real, z: real)
    requires z > 0.0
    ensures var dx := MotorDeltas(lib, roll, x, z).value.0;
      2.0 * (dx / (X_SIGN * MmPerRad(lib, X_ROTATION_DISTANCE))) == lib.atan2(x, z)
  {
    var k := X_SIGN * MmPerRad(lib, X_ROTATION_DISTANCE);
    assert MmPerRad(lib, X_ROTATION_DISTANCE) > 0.0;
    var alpha := lib.atan2(x, z) / 2.0;
    assert MotorDeltas(lib, roll, x, z).value.0 == alpha * k;
    assert alpha * k / k == alpha;
  }

  /** Roll moves only the Y delta, by -Y_SIGN * (roll / 2) mirror radians; X is unaffected. */
  lemma RollCompensatesYOnly(lib: Maths, roll: real, x: real, z: real)
    requires z > 0.0
    ensures MotorDeltas(lib, roll, x, z).value.0 == MotorDeltas(lib, 0.0, x, z).value.0
    ensures MotorDeltas(lib, roll, x, z).value.1
         == MotorDeltas(lib, 0.0, x, z).value.1 - Y_SIGN * (roll / 2.0) * MmPerRad(lib, Y_ROTATION_DISTANCE)
  {
  }

  /** A point straight ahead needs no X deflection. */
  lemma StraightAheadNoX(lib: Maths, roll: real, z: real)
    requires z > 0.0
    ensures MotorDeltas(lib, roll, 0.0, z).value.0 == 0.0
  {
  }

  /** On a level platform every ground point in front of the laser needs a negative Y delta (Y_SIGN is -1). */
  lemma LevelAimIsDownward(lib: Maths, x: real, z: real)
    requires z > 0.0
    ensures MotorDeltas(lib, 0.0, x, z).value.1 < 0.0
  {
    var g := GroundDistance(lib, x, z);
    assert LASER_HEIGHT_M / g > 0.0;
    assert BeamAngle(lib, g) > 0.0;
    assert MmPerRad(lib, Y_ROTATION_DISTANCE) > 0.0;
  }
}
