/**
 * The blocking Z tracker of Behavior/Tracking.py. Its module state (_TrackState) is the
 * class below; the relative moves it issues are recorded in `sent`. Z_MIN and Z_MAX come
 * from a Limits module that is not part of this model, so they are constructor arguments.
 */
module LegacyTracking {
  import opened Wrappers
  import opened Commands
  import Smoothing

  const GAIN_MM_PER_PX: real := 0.0030
  const DEADZONE_PX: real := 15.0
  const MAX_STEP_MM: real := 0.8
  const TRACK_SPEED: int := 400

  function Abs(a: real): real { if a >= 0.0 then a else -a }

  /** The relative Z move track() makes, if any, from the smoothed centre and the current Z. */
  function StepFor(zMin: real, zMax: real, currentZ: real, smoothedCx: real, frameWidth: int): Option<real> {
    var errorPx := smoothedCx - frameWidth as real / 2.0;
    if Abs(errorPx) < DEADZONE_PX then None
    else
      var raw := errorPx * GAIN_MM_PER_PX;
      var dz := if raw > 0.0 then (if MAX_STEP_MM <= raw then MAX_STEP_MM else raw)
                else (if -MAX_STEP_MM >= raw then -MAX_STEP_MM else raw);
      var dz' := if currentZ + dz > zMax then zMax - currentZ
                 else if currentZ + dz < zMin then zMin - currentZ
                 else dz;
      if dz' == 0.0 then None else Some(dz')
  }

  /** The step before the limit check never exceeds MAX_STEP_MM, so a move is at most that long when Z starts in bounds. */
  lemma StepBounded(zMin: real, zMax: real, currentZ: real, smoothedCx: real, frameWidth: int)
    requires zMin <= currentZ <= zMax
    ensures var m := StepFor(zMin, zMax, currentZ, smoothedCx, frameWidth);
      m.Some? ==> Abs(m.value) <= MAX_STEP_MM && zMin <= currentZ + m.value <= zMax
  {
  }

  /** Whatever Z the tracker starts from (the search may leave it anywhere), a move it makes ends inside the limits. */
  lemma MoveLandsInLimits(zMin: real, zMax: real, currentZ: real, smoothedCx: real, frameWidth: int)
    requires zMin <= zMax
    ensures var m := StepFor(zMin, zMax, currentZ, smoothedCx, frameWidth);
      m.Some? ==> zMin <= currentZ + m.value <= zMax
  {
  }

  /** Inside the deadzone no move is made. */
  lemma DeadzoneNoMove(zMin: real, zMax: real, currentZ: real, smoothedCx: real, frameWidth: int)
    requires Abs(smoothedCx - frameWidth as real / 2.0) < DEADZONE_PX
    ensures StepFor(zMin, zMax, currentZ, smoothedCx, frameWidth).None?
  {
  }

  class Tracker {
    const zMin: real
    const zMax: real
    var currentZ: real
    var errorHistory: seq<int>
    var sent: seq<Command>

    ghost predicate Valid()
      reads this
    {
      |errorHistory| <= Smoothing.WINDOW
    }

    constructor (limitMin: real, limitMax: real)
      ensures Valid() && zMin == limitMin && zMax == limitMax
      ensures currentZ == 10.0 && errorHistory == [] && sent == []
    {
      zMin, zMax := limitMin, limitMax;
      currentZ := 10.0;
      errorHistory := [];
      sent := [];
    }

    /** reset_tracking(): clears the history; takes z_start as the current Z when given. */
    method ResetTracking(zStart: Option<real>)
      requires Valid()
      modifies this
      ensures Valid()
      ensures errorHistory == [] && sent == old(sent)
      ensures currentZ == if zStart.Some? then zStart.value else old(currentZ)
    {
      errorHistory := [];
      if zStart.Some? {
        currentZ := zStart.value;
      }
    }

    /** track(): smooth, then make one relative move (and only then update Z) unless in the deadzone or at a limit. */
    method Track(cx: int, frameWidth: int)
      requires Valid()
      modifies this
      ensures Valid()
      ensures errorHistory == Smoothing.Push(old(errorHistory), cx)
      ensures var m := StepFor(zMin, zMax, old(currentZ), Smoothing.Mean(errorHistory), frameWidth);
        && (m.None? ==> currentZ == old(currentZ) && sent == old(sent))
        && (m.Some? ==> currentZ == old(currentZ) + m.value
                        && sent == old(sent) + [MoveAxes(None, None, Some(m.value), TRACK_SPEED)])
      ensures zMin <= zMax && currentZ != old(currentZ) ==> zMin <= currentZ <= zMax
    {
      errorHistory := Smoothing.Push(errorHistory, cx);
      var smoothed := Smoothing.Mean(errorHistory);
      var m := StepFor(zMin, zMax, currentZ, smoothed, frameWidth);
      if zMin <= zMax {
        MoveLandsInLimits(zMin, zMax, currentZ, smoothed, frameWidth);
      }
      if m.None? {
        return;
      }
      sent := sent + [MoveAxes(None, None, Some(m.value), TRACK_SPEED)];
      currentZ := currentZ + m.value;
    }
  }
}
