/** The rate-limited streaming pan of Manta/MantaMovement/Search.py; its module globals are the class below. */
module MantaSearch {
  import opened Commands

  const Z_MIN: real := 0.0
  const Z_MAX: real := 20.0
  const STEP_MM: real := 0.4
  const FEEDRATE: real := 150.0
  const UPDATE_HZ: real := 25.0
  const DT: real := 1.0 / UPDATE_HZ

  /** The next Z and direction: a step in the current direction, clamped and turned back at either limit. */
  function PanStep(currentZ: real, dir: int): (r: (real, int))
    ensures Z_MIN <= r.0 <= Z_MAX
    ensures r.0 == Z_MIN ==> r.1 == 1
    ensures r.0 == Z_MAX ==> r.1 == -1
    ensures Z_MIN < r.0 < Z_MAX ==> r == (currentZ + (dir as real) * STEP_MM, dir)
  {
    var next := currentZ + (dir as real) * STEP_MM;
    if next <= Z_MIN then (Z_MIN, 1)
    else if next >= Z_MAX then (Z_MAX, -1)
    else (next, dir)
  }

  class MantaPanner {
    var currentZ: real
    var dir: int
    var last: real
    var sent: seq<Command>

    constructor ()
      ensures currentZ == 10.0 && dir == -1 && last == 0.0 && sent == []
    {
      currentZ := 10.0;
      dir := -1;
      last := 0.0;
      sent := [];
    }

    /** pan_z(): nothing within 1/UPDATE_HZ of the last send; otherwise one absolute G1 move to the next Z. */
    method PanZ(now: real)
      modifies this
      ensures now - old(last) < DT ==> currentZ == old(currentZ) && dir == old(dir) && last == old(last) && sent == old(sent)
      ensures now - old(last) >= DT ==>
        && (currentZ, dir) == PanStep(old(currentZ), old(dir))
        && Z_MIN <= currentZ <= Z_MAX
        && (currentZ == Z_MIN ==> dir == 1) && (currentZ == Z_MAX ==> dir == -1)
        && sent == old(sent) + [AbsoluteZ(currentZ, FEEDRATE)]
        && last == now
    {
      if now - last < DT {
        return;
      }
      var next := currentZ + (dir as real) * STEP_MM;
      if next <= Z_MIN {
        next := Z_MIN;
        dir := 1;
      } else if next >= Z_MAX {
        next := Z_MAX;
        dir := -1;
      }
      sent := sent + [AbsoluteZ(next, FEEDRATE)];
      currentZ := next;
      last := now;
    }

    /** get_current_z */
    function GetCurrentZ(): real
      reads this
    {
      currentZ
    }

    method SetCurrentZ(z: real)
      modifies this
      ensures GetCurrentZ() == z
      ensures dir == old(dir) && last == old(last) && sent == old(sent)
    {
      currentZ := z;
    }
  }
}
