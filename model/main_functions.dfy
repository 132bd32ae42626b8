/** The state-math helpers of Main_Functions.py. */
module MainFunctions {
  /** compute_next_search_position: one step in the direction, clamped (with a turn) only when it passes a bound. */
  function NextSearchPosition(currentZ: real, direction: int, lower: real, upper: real, step: real): (real, int) {
    if direction > 0 then
      var next := currentZ + step;
      if next > upper then (upper, -1) else (next, direction)
    else
      var next := currentZ - step;
      if next < lower then (lower, 1) else (next, direction)
  }

  /** The defaults lower=0, upper=20, step=1. */
  function NextSearchPositionDefault(currentZ: real, direction: int): (real, int) {
    NextSearchPosition(currentZ, direction, 0.0, 20.0, 1.0)
  }

  /** From a position within [lower, upper], a non-negative step lands within [lower, upper]. */
  lemma StaysInBounds(currentZ: real, direction: int, lower: real, upper: real, step: real)
    requires lower <= currentZ <= upper && step >= 0.0
    ensures lower <= NextSearchPosition(currentZ, direction, lower, upper, step).0 <= upper
  {
  }

  /** Passing upper clamps there and turns down; passing lower clamps there and turns up. */
  lemma ClampsAndTurns(currentZ: real, direction: int, lower: real, upper: real, step: real)
    ensures direction > 0 && currentZ + step > upper ==> NextSearchPosition(currentZ, direction, lower, upper, step) == (upper, -1)
    ensures direction <= 0 && currentZ - step < lower ==> NextSearchPosition(currentZ, direction, lower, upper, step) == (lower, 1)
  {
  }

  /**
   * Landing exactly on a bound keeps the direction (the tests are strict), so the turn comes
   * one call later, from the bound itself when the step is positive.
   */
  lemma LandingOnBoundKeepsDirection(currentZ: real, direction: int, lower: real, upper: real, step: real)
    ensures direction > 0 && currentZ + step == upper ==>
      NextSearchPosition(currentZ, direction, lower, upper, step) == (upper, direction)
    ensures direction <= 0 && currentZ - step == lower ==>
      NextSearchPosition(currentZ, direction, lower, upper, step) == (lower, direction)
    ensures direction > 0 && step > 0.0 ==> NextSearchPosition(upper, direction, lower, upper, step) == (upper, -1)
    ensures direction <= 0 && step > 0.0 ==> NextSearchPosition(lower, direction, lower, upper, step) == (lower, 1)
  {
  }

  /** With the defaults: 19 going up lands on 20 still going up, and only the next call turns. */
  lemma LandingOnUpperKeepsDirection()
    ensures NextSearchPositionDefault(19.0, 1) == (20.0, 1)
    ensures NextSearchPositionDefault(20.0, 1) == (20.0, -1)
  {
    LandingOnBoundKeepsDirection(19.0, 1, 0.0, 20.0, 1.0);
  }

  /** compute_mirror_angles is a placeholder that aims nowhere. */
  function MirrorAngles<T>(feetPoint: T): (angles: (real, real))
    ensures angles == (0.0, 0.0)
  {
    (0.0, 0.0)
  }
}
