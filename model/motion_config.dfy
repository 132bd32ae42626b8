/** Motion-stage limits, neutral pose and the Z millimetre/degree conversion. */
module MotionConfig {
  const X_MIN: real := 0.0
  const X_MAX: real := 11.5
  const Y_MIN: real := 0.0
  const Y_MAX: real := 7.60
  const Z_MIN: real := 0.0
  const Z_MAX: real := 20.0

  const NEUTRAL_X: real := 5.75
  const NEUTRAL_Y: real := 3.80
  const NEUTRAL_Z: real := 10.0

  const ROTATION_DISTANCE_MM: real := 8.0
  const DEGREES_PER_REVOLUTION: real := 360.0
  const MM_PER_DEGREE: real := ROTATION_DISTANCE_MM / DEGREES_PER_REVOLUTION

  const SEARCH_START_Z: real := NEUTRAL_Z

  function ZMmToAngle(zMm: real): (angle: real)
    ensures angle * MM_PER_DEGREE == zMm
  {
    zMm / MM_PER_DEGREE
  }

  function AngleToZMm(angleDeg: real): (zMm: real)
    ensures zMm * 45.0 == angleDeg
  {
    angleDeg * MM_PER_DEGREE
  }

  const SEARCH_MIN_ANGLE: real := ZMmToAngle(Z_MIN)
  const SEARCH_MAX_ANGLE: real := ZMmToAngle(Z_MAX)
  const SEARCH_START_ANGLE: real := ZMmToAngle(SEARCH_START_Z)

  /** Converting a Z position to an angle and back gives the position again. */
  lemma ZRoundTrip(zMm: real)
    ensures AngleToZMm(ZMmToAngle(zMm)) == zMm
  {
  }

  /** Converting an angle to a Z position and back gives the angle again. */
  lemma AngleRoundTrip(angleDeg: real)
    ensures ZMmToAngle(AngleToZMm(angleDeg)) == angleDeg
  {
  }

  /** The derived constants: 8/360 mm per degree, and a 0..900 degree sweep starting at 450. */
  lemma DerivedConstants()
    ensures MM_PER_DEGREE == 8.0 / 360.0
    ensures SEARCH_MIN_ANGLE == 0.0 && SEARCH_MAX_ANGLE == 900.0 && SEARCH_START_ANGLE == 450.0
  {
  }

  /** Each neutral coordinate lies within its axis limits. */
  lemma NeutralWithinLimits()
    ensures X_MIN <= NEUTRAL_X <= X_MAX && Y_MIN <= NEUTRAL_Y <= Y_MAX && Z_MIN <= NEUTRAL_Z <= Z_MAX
  {
  }
}
