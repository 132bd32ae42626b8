/** The square deterrence pattern: its ground corners, their motor positions and the commands that run it. */
module DeterrencePattern {
  import opened Wrappers
  import opened Transcendentals
  import opened Commands
  import AimSolver

  function InchesToMeters(inches: real): real { inches * 0.0254 }

  function FeetToMeters(feet: real): real { feet * 0.3048 }

  /** Twelve inches make a foot in both conversions. */
  lemma FootIsTwelveInches(feet: real)
    ensures InchesToMeters(feet * 12.0) == FeetToMeters(feet)
  {
  }

  /** The corners of a square of side sizeFt centred distIn ahead, as (x, z) ground points in metres,
    * in the order bottom-left, bottom-right, top-right, top-left. */
  function SquareCorners(distIn: real, sizeFt: real): (c: seq<(real, real)>)
    ensures |c| == 4
  {
    var zc := InchesToMeters(distIn);
    var h := FeetToMeters(sizeFt) / 2.0;
    [(-h, zc - h), (h, zc - h), (h, zc + h), (-h, zc + h)]
  }

  /** The corners are centred on (0, distIn) and lie half a side away from it in each direction. */
  lemma CornersCentredOnTarget(distIn: real, sizeFt: real)
    ensures var c := SquareCorners(distIn, sizeFt);
      forall i {:trigger c[i]} :: 0 <= i < 4 ==>
        && (c[i].0 == FeetToMeters(sizeFt) / 2.0 || c[i].0 == -FeetToMeters(sizeFt) / 2.0)
        && (c[i].1 == InchesToMeters(distIn) + FeetToMeters(sizeFt) / 2.0 || c[i].1 == InchesToMeters(distIn) - FeetToMeters(sizeFt) / 2.0)
    ensures var c := SquareCorners(distIn, sizeFt);
      c[0].0 + c[2].0 == 0.0 && c[0].1 + c[2].1 == 2.0 * InchesToMeters(distIn)
  {
  }

  /** p and q differ in exactly one coordinate, by `side`. */
  predicate IsSide(p: (real, real), q: (real, real), side: real) {
    || (p.1 == q.1 && p.0 != q.0 && (q.0 - p.0 == side || p.0 - q.0 == side))
    || (p.0 == q.0 && p.1 != q.1 && (q.1 - p.1 == side || p.1 - q.1 == side))
  }

  /** Walking BL, BR, TR, TL and back to BL, each side changes exactly one coordinate, by the full side length. */
  lemma CornersTraceSquare(distIn: real, sizeFt: real)
    requires sizeFt > 0.0
    ensures var c, side := SquareCorners(distIn, sizeFt), FeetToMeters(sizeFt);
      IsSide(c[0], c[1], side) && IsSide(c[1], c[2], side) && IsSide(c[2], c[3], side) && IsSide(c[3], c[0], side)
  {
  }

  /** Every corner lies in front of the laser when the centre is more than half a side ahead. */
  lemma CornersInFront(distIn: real, sizeFt: real)
    requires sizeFt >= 0.0 && InchesToMeters(distIn) > FeetToMeters(sizeFt) / 2.0
    ensures forall i :: 0 <= i < 4 ==> SquareCorners(distIn, sizeFt)[i].1 > 0.0
  {
  }

  /** The absolute motor positions of the given ground points, in order; ValueError for the first point not in front. */
  function MotorPositions(lib: Maths, roll: real, corners: seq<(real, real)>): (r: Result<seq<(real, real)>>)
    ensures r.Ok? <==> forall i :: 0 <= i < |corners| ==> corners[i].1 > 0.0
    ensures r.Err? ==> r.error == ValueError
    ensures r.Ok? ==> (|r.value| == |corners|
      && forall i :: 0 <= i < |corners| ==> AimSolver.SolveGroundHit(lib, roll, corners[i].0, corners[i].1) == Ok(r.value[i]))
  {
    if corners == [] then Ok([])
    else
      match AimSolver.SolveGroundHit(lib, roll, corners[0].0, corners[0].1)
      case Err(e) => Err(e)
      case Ok(p) =>
        match MotorPositions(lib, roll, corners[1..])
        case Err(e) => Err(e)
        case Ok(ps) => Ok([p] + ps)
  }

  /** The loop of compute_motor_positions: solves each corner in turn and stops at the first failure. */
  method ComputeMotorPositions(lib: Maths, roll: real, corners: seq<(real, real)>) returns (r: Result<seq<(real, real)>>)
    ensures r == MotorPositions(lib, roll, corners)
  {
    var positions: seq<(real, real)> := [];
    var i := 0;
    while i < |corners|
      invariant 0 <= i <= |corners| && |positions| == i
      invariant forall j :: 0 <= j < i ==> AimSolver.SolveGroundHit(lib, roll, corners[j].0, corners[j].1) == Ok(positions[j])
    {
      var hit := AimSolver.SolveGroundHit(lib, roll, corners[i].0, corners[i].1);
      if hit.Err? {
        return Err(hit.error);
      }
      positions := positions + [hit.value];
      i := i + 1;
    }
    r := Ok(positions);
    assert MotorPositions(lib, roll, corners).Ok?;
    assert MotorPositions(lib, roll, corners).value == positions;
  }

  /** The commands start_square_pattern sends: the definition with the four positions, then the start. */
  function SquarePatternCommands(lib: Maths, roll: real, distIn: real, sizeFt: real, speed: int, dwellMs: int): (r: Result<seq<Command>>)
    ensures r.Ok? <==> MotorPositions(lib, roll, SquareCorners(distIn, sizeFt)).Ok?
    ensures r.Ok? ==> (|r.value| == 2 && r.value[1] == GridStart
      && r.value[0].GridDefine? && r.value[0].patternSpeed == speed && r.value[0].dwellMs == dwellMs
      && r.value[0].positions == MotorPositions(lib, roll, SquareCorners(distIn, sizeFt)).value
      && |r.value[0].positions| == 4)
  {
    match MotorPositions(lib, roll, SquareCorners(distIn, sizeFt))
    case Err(e) => Err(e)
    case Ok(positions) => Ok([GridDefine(positions, speed, dwellMs), GridStart])
  }

  /** start_square_pattern: computes the positions, then returns the commands it sends, in order. */
  method StartSquarePattern(lib: Maths, roll: real, distIn: real, sizeFt: real, speed: int, dwellMs: int) returns (r: Result<seq<Command>>)
    ensures r == SquarePatternCommands(lib, roll, distIn, sizeFt, speed, dwellMs)
  {
    var corners := SquareCorners(distIn, sizeFt);
    var positions := ComputeMotorPositions(lib, roll, corners);
    if positions.Err? {
      return Err(positions.error);
    }
    r := Ok([GridDefine(positions.value, speed, dwellMs), GridStart]);
  }

  /** A pattern centred more than half a side ahead always starts. */
  lemma PatternStartsInFront(lib: Maths, roll: real, distIn: real, sizeFt: real, speed: int, dwellMs: int)
    requires sizeFt >= 0.0 && InchesToMeters(distIn) > FeetToMeters(sizeFt) / 2.0
    ensures SquarePatternCommands(lib, roll, distIn, sizeFt, speed, dwellMs).Ok?
  {
    CornersInFront(distIn, sizeFt);
  }

  /** stop_pattern sends one GRID_STOP. */
  function StopPatternCommands(): (r: seq<Command>)
    ensures |r| == 1 && r[0].GridStop?
  {
    [GridStop]
  }
}
