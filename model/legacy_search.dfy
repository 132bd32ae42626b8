/** The blocking bouncing pan of Behavior/Search.py; its module globals are the class below. */
module LegacySearch {
  import opened Wrappers
  import opened Commands

  const STEP_MM: real := 0.4
  const SEARCH_SPEED: int := 300
  const Z_MIN: real := 0.0
  const Z_MAX: real := 20.0

  /** The next Z and direction: a step in the current direction, clamped and turned back at either limit. */
  function PanStep(currentZ: real, dir: int): (real, int) {
    var next := currentZ + (dir as real) * STEP_MM;
    if next <= Z_MIN then (Z_MIN, 1)
    else if next >= Z_MAX then (Z_MAX, -1)
    else (next, dir)
  }

  /** Z stays within [Z_MIN, Z_MAX], the direction turns up at Z_MIN and down at Z_MAX, interior steps move STEP_MM. */
  lemma PanStepProperties(currentZ: real, dir: int)
    ensures Z_MIN <= PanStep(currentZ, dir).0 <= Z_MAX
    ensures PanStep(currentZ, dir).0 == Z_MIN ==> PanStep(currentZ, dir).1 == 1
    ensures PanStep(currentZ, dir).0 == Z_MAX ==> PanStep(currentZ, dir).1 == -1
    ensures Z_MIN < currentZ + (dir as real) * STEP_MM < Z_MAX ==> PanStep(currentZ, dir) == (currentZ + (dir as real) * STEP_MM, dir)
  {
  }

  class Panner {
    var currentZ: real
    var dir: int
    var sent: seq<Command>

    constructor ()
      ensures currentZ == 10.0 && dir == -1 && sent == []
    {
      currentZ := 10.0;
      dir := -1;
      sent := [];
    }

    /** pan_z_step(): one relative move of next_z - current_z, and only then the new Z. */
    method PanZStep()
      modifies this
      ensures (currentZ, dir) == PanStep(old(currentZ), old(dir))
      ensures sent == old(sent) + [MoveAxes(None, None, Some(currentZ - old(currentZ)), SEARCH_SPEED)]
    {
      var next := currentZ + (dir as real) * STEP_MM;
      if next <= Z_MIN {
        next := Z_MIN;
        dir := 1;
      } else if next >= Z_MAX {
        next := Z_MAX;
        dir := -1;
      }
      sent := sent + [MoveAxes(None, None, Some(next - currentZ), SEARCH_SPEED)];
      currentZ := next;
    }
  }
}
