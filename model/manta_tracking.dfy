/** The rate-limited absolute-move Z tracker of Manta/MantaMovement/Tracking.py; its module globals are the class below. */
module MantaTracking {
  import opened Wrappers
  import opened Commands
  import Smoothing

  const Z_MIN: real := 0.0
  const Z_MAX: real := 20.0
  const GAIN_MM_PER_PX: real := 0.0030
  const DEADZONE_PX: real := 15.0
  const MAX_STEP_MM: real := 0.8
  const FEEDRATE: real := 600.0
  const UPDATE_HZ: real := 20.0
  const DT: real := 1.0 / UPDATE_HZ

  function Abs(a: real): real { if a >= 0.0 then a else -a }

  /** The absolute Z target for a smoothed centre, or None inside the deadzone. */
  function Target(currentZ: real, smoothedCx: real, frameWidth: int): Option<real> {
    var errorPx := smoothedCx - frameWidth as real / 2.0;
    if Abs(errorPx) < DEADZONE_PX then None
    else
      var raw := errorPx * GAIN_MM_PER_PX;
      var dz := if raw > 0.0 then (if MAX_STEP_MM <= raw then MAX_STEP_MM else raw)
                else (if -MAX_STEP_MM >= raw then -MAX_STEP_MM else raw);
      var next := currentZ + dz;
      var upper := if Z_MAX <= next then Z_MAX else next;
      Some(if Z_MIN >= upper then Z_MIN else upper)
  }

  /** The target always lies within [Z_MIN, Z_MAX] and, from a position in bounds, at most MAX_STEP_MM away. */
  lemma TargetBounded(currentZ: real, smoothedCx: real, frameWidth: int)
    ensures var t := Target(currentZ, smoothedCx, frameWidth);
      t.Some? ==> Z_MIN <= t.value <= Z_MAX
    ensures var t := Target(currentZ, smoothedCx, frameWidth);
      t.Some? && Z_MIN <= currentZ <= Z_MAX ==> Abs(t.value - currentZ) <= MAX_STEP_MM
  {
  }

  class MantaTracker {
    var currentZ: real
    var last: real
    var errorHistory: seq<int>
    var sent: seq<Command>

    ghost predicate Valid()
      reads this
    {
      |errorHistory| <= Smoothing.WINDOW
    }

    constructor ()
      ensures Valid() && currentZ == 10.0 && last == 0.0 && errorHistory == [] && sent == []
    {
      currentZ := 10.0;
      last := 0.0;
      errorHistory := [];
      sent := [];
    }

    method SetCurrentZ(z: real)
      modifies this
      ensures currentZ == z && last == old(last) && errorHistory == old(errorHistory) && sent == old(sent)
    {
      currentZ := z;
    }

    /** track_z(): rate-limited; inside the deadzone only the time is taken; otherwise one absolute G1 move. */
    method TrackZ(cx: int, frameWidth: int, now: real)
      requires Valid()
      modifies this
      ensures Valid()
      ensures now - old(last) < DT ==>
        currentZ == old(currentZ) && last == old(last) && errorHistory == old(errorHistory) && sent == old(sent)
      ensures now - old(last) >= DT ==>
        && errorHistory == Smoothing.Push(old(errorHistory), cx)
        && last == now
        && var t := Target(old(currentZ), Smoothing.Mean(errorHistory), frameWidth);
           && (t.None? ==> currentZ == old(currentZ) && sent == old(sent))
           && (t.Some? ==> currentZ == t.value && sent == old(sent) + [AbsoluteZ(t.value, FEEDRATE)])
    {
      if now - last < DT {
        return;
      }
      errorHistory := Smoothing.Push(errorHistory, cx);
      var t := Target(currentZ, Smoothing.Mean(errorHistory), frameWidth);
      if t.None? {
        last := now;
        return;
      }
      sent := sent + [AbsoluteZ(t.value, FEEDRATE)];
      currentZ := t.value;
      last := now;
    }
  }
}
