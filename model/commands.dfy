/**
 * The commands the controller sends to the motion stage (as G-code text over the
 * Moonraker link) and to the laser switch. Each constructor stands for one command
 * text; number formatting is not modelled.
 */
module Commands {
  import opened Wrappers

  datatype Command =
    /** "GRID_DEFINE X1=.. Y1=.. .. X4=.. Y4=.. SPEED=.. DWELL=..": the four absolute corner positions. */
    | GridDefine(positions: seq<(real, real)>, patternSpeed: int, dwellMs: int)
    /** "GRID_START" */
    | GridStart
    /** "GRID_STOP" */
    | GridStop
    /** "Move x=.. y=..": a relative mirror move. */
    | MoveRelativeXY(dx: real, dy: real)
    /** "G91" then "G1 Z.. F..": a relative Z move. */
    | RelativeZ(dz: real, feed: real)
    /** "M400": wait for queued moves. */
    | WaitForMoves
    /** "Move z=.. F..": a relative Z move of the motion controller. */
    | MoveZ(dz: real, feed: real)
    /** "MOVE x=.. y=.. SPEED=..": an absolute X/Y move with the axes present. */
    | MoveXY(x: Option<real>, y: Option<real>, speed: real)
    /** "G90" then "G0 X.. Y.. Z.. F..": an absolute rapid move with the axes present. */
    | AbsoluteRapid(x: Option<real>, y: Option<real>, z: Option<real>, feed: real)
    /** "G91", "G0 Z.. F..", "M400", "G90": a relative Z move that waits, back in absolute mode. */
    | RelativeZAndWait(dz: real, feed: real)
    /** "MOVE X=.. Y=.. Z=.. SPEED=..": the MOVE text of Motion/Move.py and motion/Com.py. */
    | MoveAxes(ax: Option<real>, ay: Option<real>, az: Option<real>, axesSpeed: int)
    /** "G1 Z.. F..": an absolute Z move. */
    | AbsoluteZ(targetZ: real, feed: real)
}
