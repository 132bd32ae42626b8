/** Absolute motor targets for a ground point: neutral position plus the GroundAim deltas. */
module AimSolver {
  import opened Wrappers
  import opened Transcendentals
  import opened LaserCalibration
  import GroundAim

  function SolveGroundHit(lib: Maths, roll: real, x: real, z: real): (r: Result<(real, real)>)
    ensures r.Err? <==> z <= 0.0
    ensures r.Err? ==> r.error == ValueError
    ensures r.Ok? ==> r.value.0 == X_NEUTRAL_MM + GroundAim.MotorDeltas(lib, roll, x, z).value.0
    ensures r.Ok? ==> r.value.1 == Y_NEUTRAL_MM + GroundAim.MotorDeltas(lib, roll, x, z).value.1
  {
    match GroundAim.MotorDeltas(lib, roll, x, z)
    case Err(e) => Err(e)
    case Ok((dx, dy)) => Ok((X_NEUTRAL_MM + dx, Y_NEUTRAL_MM + dy))
  }

  /** A point straight ahead is hit with the X mirror at its neutral position. */
  lemma StraightAheadAtNeutralX(lib: Maths, roll: real, z: real)
    requires z > 0.0
    ensures SolveGroundHit(lib, roll, 0.0, z).Ok?
    ensures SolveGroundHit(lib, roll, 0.0, z).value.0 == X_NEUTRAL_MM
  {
    GroundAim.StraightAheadNoX(lib, roll, z);
  }

  /** On a level platform the Y target is below the neutral position. */
  lemma LevelAimBelowNeutralY(lib: Maths, x: real, z: real)
    requires z > 0.0
    ensures SolveGroundHit(lib, 0.0, x, z).value.1 < Y_NEUTRAL_MM
  {
    GroundAim.LevelAimIsDownward(lib, x, z);
  }
}
