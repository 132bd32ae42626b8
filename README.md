# Goose-deterrence controller, modelled in Dafny

The system keeps geese off an area. A camera detector reports birds and people in each frame. A
SEARCH/TRACK state machine then turns the bottom pixel row of a bird's bounding box into a ground
distance, using operator-supplied calibration points. It converts that distance into galvo-mirror
motor positions through the mirror half-angle law, and drives a Klipper/Moonraker motion stage and a
laser switch. Once the aim has settled, a square deterrence pattern is swept around the bird. A
person anywhere in view switches the laser and the pattern off in the same pass of the loop.

The model lives in `model/`. Each core source file has one Dafny module. A few further modules hold what several of them share: `commands.dfy`, `text_format.dfy`, `smoothing.dfy`, `sorting.dfy`, `transcendentals.dfy`, `wrappers.dfy` and `py_int.dfy`.

- **Orchestrator** (`system_main.dfy`, `live_calibration.dfy`):
  - `SystemState` is a class whose methods make one pass of the main loop: person override, keyboard, then the SEARCH or TRACK branch.
  - The pass is stated against a pure step function `Tick`, and a session against `Session`.
  - The lemmas prove the safety invariant: the laser is on only in TRACK and never while paused.
  - Further lemmas cover the person override, confirmation and loss counting, the conditions under which the laser is switched on, pause and resume, quit and the teardown order.
  - The live calibration window's point list is a second class, with its own step functions.
- **Legacy loops** (`main_loop.dfy`, `main_laser.dfy`, `aim_test.dfy`): the SEARCH/TRACK loops of `Main.py` and `main_laser.py`, and the command loop of `Aim_Test.py`, with the calls they make recorded in order.
- **Distance** (`distance_from_json.dfy`, `distance_model.dfy`, `sorting.dfy`, `storage.dfy`, `video_calibration.dfy`, `video_handler.dfy`):
  - the clamped interpolation of `distance_from_y`;
  - the four interpolation arrays of `Model.py`, read through numpy's `interp`;
  - the calibration file with its named table;
  - the video calibrator's points and zoom;
  - the video handler's frame navigation.
- **Aiming** (`ground_aim.dfy`, `aim_solver.dfy`, `laser_calibration.dfy`, `deterrence_pattern.dfy`, `transcendentals.dfy`):
  - motor deltas and absolute targets for a ground point;
  - rotation-distance conversions;
  - the square pattern's corners and commands.
  - `pi`, `sqrt`, `atan` and `atan2` are a record of functions obeying the few laws the proofs use.
- **Motion** (`motion_controller.dfy`, `move.dfy`, `com.dfy`, `motion_config.dfy`, `commands.dfy`, `text_format.dfy`):
  - the rate-limited streaming controller;
  - the MOVE command builders;
  - the Z millimetre/degree conversion.
- **Behaviours** (`search_v2.dfy`, `legacy_search.dfy`, `manta_search.dfy`, `main_functions.dfy`, `tracking_controller.dfy`, `legacy_tracking.dfy`, `manta_tracking.dfy`, `smoothing.dfy`): the four bouncing Z sweeps and the three proportional Z trackers.
- **Vision** (`tiling.dfy`, `detection.dfy`, `vision_config.dfy`, `py_int.dfy`): tile regions, IoU, non-maximum suppression, best-box selection, and the validated, cached vision configuration.

Python's `int()` of a float truncates toward zero; `PyInt.TruncToZero` writes that out. Floor
division (`//`) on integers is Dafny's `/` where the operands are non-negative. All other
quantities are unbounded integers or reals.

Where the code and its own comments disagree, the model follows the code:

- `Distance/Model.py:40` says numpy's `interp` extrapolates linearly beyond the calibrated range. It holds the end values instead, and `DistanceModel.NoExtrapolation` proves that outcome.
- With repeated pixel rows, `distance_from_y` still never divides by zero. The first pair that brackets the query always has `y1 > y`, so only an empty list fails (`DistanceFromJson.DistanceDefinedIffNonEmpty`).
- In TRACK, an out-of-range distance sets `lost_frame_count` to 0 and then adds 1 (`SystemMain.py:684`, `SystemMain.py:723-727`), so out-of-range frames alone never reach `LOST_FRAMES_TO_EXIT`. `SystemMain.OutOfRangeCountsOnce` states this as written.
- `main_laser.py` returns to SEARCH only when `lost_count > LOST_LIMIT`, that is after 9 misses rather than 8 (`MainLaser.NineMissesToSearch`).
- In `handle_video_key`, the masked arrow codes 81 and 83 are the letters 'Q' and 'S'. Because the quit test comes first, the left arrow quits (`VideoHandler.ArrowCodesShareLetters`).
- When `start_square_pattern` raises `ValueError` after the laser was switched on, the `except` branch only counts a lost frame: the laser stays on with the pattern inactive (`SystemMain.Engage`). The safety invariant still holds, because the mode is TRACK and the loop is not paused. With the routines `main()` wires (`SystemMain.Wiring`), the pattern fails only at a distance of at most half the square's side, which the engagement range excludes (`SystemMain.ReadyEngages`), so this path is reachable only with other routines.
- The aim before a pattern sends the ground-aim deltas, which are offsets from neutral, through the relative MOVE macro (`Commands.MoveRelativeXY`), as the code does.

## Model

| member | source | states |
|---|---|---|
| PyInt.TruncToZero | YoloModel/Detection.py:38 | int() of a float: the integer toward zero, within one of it and never beyond it |
| LaserCalibration.MmPerRad | Laser/Calibration.py:96-108 | one full mirror turn (2 pi radians) is one rotation distance |
| LaserCalibration.MmPerDeg | Laser/Calibration.py:110-120 | 360 degrees is one rotation distance |
| LaserCalibration.DegPerMm | Laser/Calibration.py:122-132 | defined exactly when the rotation distance is non-zero (ZeroDivisionError otherwise), and then times the rotation distance gives 360 |
| LaserCalibration.MmPerDegInverse | Laser/Calibration.py:110-132 | mm per degree and degrees per mm are reciprocal |
| LaserCalibration.ComputeRotationDistance | Laser/Calibration.py:138-178 | ValueError exactly when the measured angle or the commanded move is not positive; otherwise a positive rotation distance with r * degrees = mm * 360 |
| LaserCalibration.RotationDistanceExample | Laser/Calibration.py:155-157 | the documented example: 10 mm turning the mirror 5 degrees gives 720 |
| LaserCalibration.RotationDistanceRoundTrip | Laser/Calibration.py:138-178 | converting the commanded move back with the computed rotation distance gives the measured angle |
| LaserCalibration.ValidateRotationDistance | Laser/Calibration.py:184-211 | ZeroDivisionError exactly for a rotation distance of 0 (the low-value warning divides by it); otherwise accepted exactly when the value lies in [50, 5000] |
| LaserCalibration.NeutralWithinLimits | Laser/Calibration.py:54-65 | the neutral mirror positions lie inside the X and Y travel limits |
| GroundAim.GroundDistance | Laser/GroundAim.py:63 | the horizontal distance to a point in front of the laser is positive |
| GroundAim.MotorDeltas | Laser/GroundAim.py:41-56 | ValueError exactly when z <= 0 |
| GroundAim.HalfAngleLaw | Laser/GroundAim.py:63-106 | the mirror half-angle law on Y: the mirror rotation commanded by the Y delta, plus half the roll, doubled, is the beam angle atan(height / ground distance) |
| GroundAim.HalfAngleLawX | Laser/GroundAim.py:113-119 | the same law on X: the mirror rotation commanded by the X delta, doubled, is the beam yaw atan2(x, z) |
| GroundAim.RollCompensatesYOnly | Laser/GroundAim.py:103-119 | the platform roll leaves X unchanged and shifts Y by -Y_SIGN * roll / 2 mirror radians |
| GroundAim.StraightAheadNoX | Laser/GroundAim.py:113-119 | a point straight ahead needs no X deflection |
| GroundAim.LevelAimIsDownward | Laser/GroundAim.py:63-106 | on a level platform every point in front needs a negative Y delta |
| AimSolver.SolveGroundHit | Laser/AimSolver.py:8-17 | propagates the ValueError for z <= 0; otherwise each target is the neutral position plus the GroundAim delta |
| AimSolver.StraightAheadAtNeutralX | Laser/AimSolver.py:8-17 | a point straight ahead is hit with X at its neutral position |
| AimSolver.LevelAimBelowNeutralY | Laser/AimSolver.py:8-17 | on a level platform the Y target is below neutral |
| DeterrencePattern.FootIsTwelveInches | Laser/DeterrencePattern.py:25-31 | the inch and foot conversions agree: 12 inches make a foot |
| DeterrencePattern.CornersCentredOnTarget | Laser/DeterrencePattern.py:37-73 | the four corners are centred on (0, distance) and each lies half a side from the centre on both axes; the first and third corners are opposite about the centre |
| DeterrencePattern.CornersTraceSquare | Laser/DeterrencePattern.py:66-71 | walking BL, BR, TR, TL and back, each edge changes one coordinate by the full side |
| DeterrencePattern.CornersInFront | Laser/DeterrencePattern.py:61-71 | every corner is in front of the laser when the centre is more than half a side ahead |
| DeterrencePattern.MotorPositions | Laser/DeterrencePattern.py:75-93 | succeeds exactly when every point is in front (ValueError otherwise); each position is the AimSolver target of the point at the same index |
| DeterrencePattern.ComputeMotorPositions | Laser/DeterrencePattern.py:87-93 | the loop yields MotorPositions of the corners |
| DeterrencePattern.SquarePatternCommands | Laser/DeterrencePattern.py:99-155 | fails exactly when a corner cannot be aimed; otherwise two commands: GRID_DEFINE with the four corner positions in order, the speed and the dwell, then GRID_START |
| DeterrencePattern.StartSquarePattern | Laser/DeterrencePattern.py:121-153 | the method sends SquarePatternCommands |
| DeterrencePattern.PatternStartsInFront | Laser/DeterrencePattern.py:99-155 | a pattern centred more than half a side ahead never raises |
| DeterrencePattern.StopPatternCommands | Laser/DeterrencePattern.py:157-165 | stop_pattern sends exactly one GRID_STOP |
| MotionConfig.ZMmToAngle | Config/motion_config.py:59-61 | the angle times MM_PER_DEGREE gives the Z millimetres back |
| MotionConfig.AngleToZMm | Config/motion_config.py:63-65 | 45 degrees per millimetre |
| MotionConfig.ZRoundTrip | Config/motion_config.py:59-65 | millimetres to angle and back is the identity |
| MotionConfig.AngleRoundTrip | Config/motion_config.py:59-65 | angle to millimetres and back is the identity |
| MotionConfig.DerivedConstants | Config/motion_config.py:28-30 | MM_PER_DEGREE is 8/360; the search sweep is 0 to 900 degrees from 450 |
| MotionConfig.NeutralWithinLimits | Config/motion_config.py:10-22 | the neutral pose lies within the axis limits |
| GroundAim.BeamAngle | Laser/GroundAim.py:63-67 | the beam angle below horizontal, atan of the laser height over the ground distance, is positive for every target |
| DeterrencePattern.SquareCorners | Laser/DeterrencePattern.py:37-73 | the four corners of the square at the given distance and side, bottom-left, bottom-right, top-right, top-left; CornersCentredOnTarget, CornersTraceSquare and CornersInFront state their placement |
| MainFunctions.StaysInBounds | Main_Functions.py:20-32 | from a position within [lower, upper], a non-negative step lands within [lower, upper] |
| MainFunctions.ClampsAndTurns | Main_Functions.py:22-31 | passing upper clamps there and turns down; passing lower clamps there and turns up |
| MainFunctions.LandingOnBoundKeepsDirection | Main_Functions.py:20-32 | for every position and step, landing exactly on upper (going up) or lower (going down) keeps the direction, and with a positive step the next call from that bound turns |
| MainFunctions.LandingOnUpperKeepsDirection | Main_Functions.py:20-26 | with the defaults, landing exactly on 20 keeps the upward direction (the test is strict) and the turn comes on the next call |
| MainFunctions.MirrorAngles | Main_Functions.py:34-37 | the placeholder always answers (0, 0) |
| LegacySearch.PanStepProperties | Behavior/Search.py:11-21 | Z stays within [Z_MIN, Z_MAX]; the direction is +1 at Z_MIN and -1 at Z_MAX; an interior step moves STEP_MM in the current direction |
| LegacySearch.Panner.constructor | Behavior/Search.py:7-8 | the pan starts at Z 10 heading down, with nothing sent |
| LegacySearch.Panner.PanZStep | Behavior/Search.py:11-28 | one relative move of next_z - current_z at SEARCH_SPEED, and then the new Z and direction of PanStep |
| Smoothing.Push | Behavior/Tracking.py:32-34 | the history keeps the last three samples, newest last |
| LegacyTracking.StepBounded | Behavior/Tracking.py:46-61 | from a Z within the limits, every move is at most MAX_STEP_MM long and lands within the limits |
| LegacyTracking.MoveLandsInLimits | Behavior/Tracking.py:54-58 | from any Z, even one outside the limits, a move that is made ends within [Z_MIN, Z_MAX] |
| LegacyTracking.DeadzoneNoMove | Behavior/Tracking.py:38-43 | a smoothed centre within DEADZONE_PX of the frame centre makes no move |
| LegacyTracking.Tracker.constructor | Behavior/Tracking.py:12-18 | the tracker starts at Z 10 with an empty history, whatever the limits |
| LegacyTracking.Tracker.ResetTracking | Behavior/Tracking.py:21-25 | clears the history and takes z_start, any value, as the current Z only when given |
| LegacyTracking.Tracker.Track | Behavior/Tracking.py:28-68 | pushes the sample, then makes the move StepFor gives for the mean, if any, and only then adds it to Z; from any starting Z, a Z that changes ends within the limits |
| MantaSearch.MantaPanner.constructor | Manta/MantaMovement/Search.py:13-17 | the pan starts at Z 10 heading down, never sent |
| MantaSearch.MantaPanner.PanZ | Manta/MantaMovement/Search.py:31-54 | within 1/UPDATE_HZ of the last send nothing changes; otherwise one absolute G1 move to the clamped next Z, which stays within [Z_MIN, Z_MAX] and turns the direction at either limit |
| MantaSearch.MantaPanner.SetCurrentZ | Manta/MantaMovement/Search.py:57-63 | get_current_z answers the Z just set; nothing else changes |
| MantaTracking.TargetBounded | Manta/MantaMovement/Tracking.py:62-73 | every target lies within [Z_MIN, Z_MAX] and, from a Z in bounds, at most MAX_STEP_MM away |
| MantaTracking.MantaTracker.constructor | Manta/MantaMovement/Tracking.py:16-21 | the tracker starts at Z 10 with an empty history, never sent |
| MantaTracking.MantaTracker.SetCurrentZ | Manta/MantaMovement/Tracking.py:35-37 | sets the Z; nothing else changes |
| MantaTracking.MantaTracker.TrackZ | Manta/MantaMovement/Tracking.py:40-80 | within 1/UPDATE_HZ of the last send nothing changes; otherwise the sample is pushed and either only the time is taken (deadzone) or one absolute G1 move to Target is sent and becomes the Z |
| SearchV2.UpdateKeepsBounds | Behavior/Search_v2.py:32-53 | a position within [min_z, max_z] stays within it |
| SearchV2.UpdateReportsMove | Behavior/Search_v2.py:32-53 | z_delta is the position change and z_absolute the new position |
| SearchV2.UpdateBounces | Behavior/Search_v2.py:42-50 | reaching max_z clamps there and turns down; otherwise reaching min_z clamps there and turns up |
| SearchV2.UpdateInterior | Behavior/Search_v2.py:38-53 | strictly inside the bounds the sweep moves step_size in its direction and keeps the direction |
| SearchV2.UpdateStepBounded | Behavior/Search_v2.py:32-53 | from a position in bounds with direction +1 or -1, no delta is longer than step_size |
| SearchV2.SearchController.constructor | Behavior/Search_v2.py:22-26 | starts at start_z with the initial direction |
| SearchV2.SearchController.Reset | Behavior/Search_v2.py:28-30 | back to start_z and the initial direction |
| SearchV2.SearchController.Update | Behavior/Search_v2.py:32-53 | the new state and the returned step are UpdateStep of the old state |
| Smoothing.Mean | Behavior/Tracking.py:36 | the average of the error history that the trackers steer by; Tracker.Track and MantaTracker.TrackZ state the move made from it |
| MainFunctions.NextSearchPosition | Main_Functions.py:20-32 | the next search Z and direction; StaysInBounds, ClampsAndTurns and LandingOnBoundKeepsDirection state its bounds and turns |
| MainFunctions.NextSearchPositionDefault | Main_Functions.py:20 | the same step with the default limits 0 and 20 and step 1; LandingOnUpperKeepsDirection evaluates it at the top |
| LegacySearch.PanStep | Behavior/Search.py:11-21 | the next Z and direction of the legacy pan; PanStepProperties states its bounds and turns and Panner.PanZStep applies it |
| LegacyTracking.StepFor | Behavior/Tracking.py:36-61 | the relative move, if any, for a smoothed centre; StepBounded, MoveLandsInLimits and DeadzoneNoMove state it |
| MantaSearch.PanStep | Manta/MantaMovement/Search.py:41-49 | the next Z lies within [Z_MIN, Z_MAX]; reaching Z_MIN turns the pan up, reaching Z_MAX turns it down, and strictly inside the bounds it moves STEP_MM in the current direction |
| MantaSearch.MantaPanner.GetCurrentZ | Manta/MantaMovement/Search.py:57-58 | reads the pan's current Z; SetCurrentZ states that it answers the Z just set |
| MantaTracking.Target | Manta/MantaMovement/Tracking.py:62-73 | the proportional, clamped next Z; TargetBounded states its bounds |
| SearchV2.UpdateStep | Behavior/Search_v2.py:32-53 | the new sweep state and step; UpdateKeepsBounds, UpdateReportsMove, UpdateBounces, UpdateInterior and UpdateStepBounded state it, and SearchController.Update applies it |
| TrackingController.NoTargetNoMove | Behavior/TrackingController.py:80-88 | no detection, or one below the confidence threshold: no move, not locked, one more frame without target |
| TrackingController.ValidTargetResetsCounter | Behavior/TrackingController.py:90-96 | a valid detection resets the counter, reports the error cx - frame_width // 2 and is locked |
| TrackingController.DeadzoneHolds | Behavior/TrackingController.py:98-105 | inside the deadzone there is no move and a zero delta |
| TrackingController.StepBounded | Behavior/TrackingController.py:110-113 | no delta is longer than max_step_mm |
| TrackingController.MoveTowardTarget | Behavior/TrackingController.py:107-129 | a move is at least min_step_mm long and, for a positive gain, has the sign of the error |
| TrackingController.TrackingController.constructor | Behavior/TrackingController.py:51-58 | a new tracker has counted no frames without target |
| TrackingController.TrackingController.Reset | Behavior/TrackingController.py:60-62 | the counter is back to zero |
| TrackingController.TrackingController.Update | Behavior/TrackingController.py:64-129 | the new counter and the returned decision are UpdateStep of the old counter |
| TrackingController.LostAfterFiveMisses | Behavior/TrackingController.py:131-136 | five misses from a reset make the target lost, one does not, and a valid detection always clears it |
| TrackingController.UpdateStep | Behavior/TrackingController.py:64-129 | the new miss counter and track result of one update; NoTargetNoMove, ValidTargetResetsCounter, DeadzoneHolds, StepBounded and MoveTowardTarget state it, and TrackingController.Update applies it |
| TrackingController.TrackingController.IsTargetLost | Behavior/TrackingController.py:131-136 | whether the miss counter has reached the lost threshold; LostAfterFiveMisses states when it holds |
| TextFormat.JoinSnoc | Motion/Move.py:20 | joining parts with one more part appended puts it after a separator at the end |
| TextFormat.IntToString | Motion/Move.py:18 | the decimal text of an integer starts with '-' exactly for a negative number, is otherwise all digits, and reads back as the same integer |
| TextFormat.NatToString | Motion/Move.py:18 | the digits of a natural number denote that number and have no leading zero |
| Move.PresentAxes | Motion/Move.py:6-13 | exactly the given axes, each with its value, in X, Y, Z order; empty exactly when no axis is given |
| Move.AxisParts | Motion/Move.py:8-13 | one "<axis>=<value>" part per present axis, in order |
| Move.MoveScript | Motion/Move.py:15-20 | no command exactly when no axis is given; otherwise a script starting with "MOVE " |
| Move.MoveScriptLayout | Motion/Move.py:18-20 | the script is "MOVE ", the axis parts joined by spaces, then " SPEED=<speed>" |
| Move.SendMove | Motion/Move.py:4-26 | one script call with the built command when some axis is given, none otherwise |
| Com.MoveAllScript | motion/Com.py:6-19 | the posted script starts with "MOVE " |
| Com.SpeedOnly | motion/Com.py:6-19 | with no axis given, move_all still posts "MOVE SPEED=<speed>", where Move() sends nothing |
| Com.AgreesWithMove | motion/Com.py:6-19 | with some axis given, move_all posts exactly the script Move() sends |
| Com.MoveAll | motion/Com.py:6-24 | exactly one POST per call, carrying MoveAllScript |
| MotionController.Clamp | Motion/MotionController.py:130-137 | the clamped value is at most a configured upper bound, at least a configured lower bound when the bounds are ordered, and the value itself when already within them |
| MotionController.RateLimited | Motion/MotionController.py:115-119 | before the send period has elapsed, update changes nothing and sends nothing |
| MotionController.SentXYWithinLimits | Motion/MotionController.py:151-164 | every X or Y value sent lies within the configured limits |
| MotionController.OutOfRangeXResent | Motion/MotionController.py:151-164 | an X intent beyond the upper limit is compared with the clamped value last sent, so the same clamped X is sent again on every eligible tick |
| MotionController.NoZMoveBeforeZKnown | Motion/MotionController.py:126-149 | while no Z has been commanded, update never sends a Z move and still knows no Z |
| MotionController.ZBookkeepingAfterZMove | Motion/MotionController.py:180-198 | after a Z move the last commanded Z and the last sent Z are both the clamped Z target |
| MotionController.NothingSentNothingChanged | Motion/MotionController.py:166-171 | an update that sends nothing leaves the whole state, send time included, as it was |
| MotionController.AtMostTwoCommands | Motion/MotionController.py:180-212 | an update sends at most a Z move and an X/Y move, the Z move first |
| MotionController.SetIntentOnlyGivenAxes | Motion/MotionController.py:69-91 | set_intent changes only the axes it is given, and an angle overrides z with angle * mm per degree |
| MotionController.MoveBlockingSendsClampedTargets | Motion/MotionController.py:217-264 | move_blocking sends one absolute move carrying every set axis clamped, and takes the clamped Z as the commanded Z |
| MotionController.Controller.constructor | Motion/MotionController.py:23-65 | no intent, nothing sent, no commanded Z, send time 0 |
| MotionController.Controller.SetIntent | Motion/MotionController.py:69-91 | the intent becomes SetIntentStep of the old intent; nothing else changes |
| MotionController.Controller.SetNeutralIntent | Motion/MotionController.py:93-103 | each configured neutral coordinate becomes the intent, with a given z overriding the neutral z |
| MotionController.Controller.Update | Motion/MotionController.py:105-215 | the new state is UpdateStep of the old one and the commands it gives are appended to the sent log |
| MotionController.Controller.MoveBlocking | Motion/MotionController.py:217-264 | returns True; the new state and the commands sent are MoveBlockingStep |
| MotionController.RelativeZUnknownSendsOnly | Motion/MotionController.py:287-303 | with no known Z the delta is sent once and no bookkeeping changes |
| MotionController.Controller.MoveZRelativeBlocking | Motion/MotionController.py:266-306 | the relative move is always sent and the new state is MoveZRelativeStep; returns True when a Z was known and raises TypeError exactly when none was |
| MotionController.RelativeZClamped | Motion/MotionController.py:266-306 | with a known Z, one waiting relative move of the delta is sent and the commanded Z becomes the old Z plus the delta, kept below the upper limit and exact when within the limits; the intent and send time are untouched |
| MotionController.UpdateStep | Motion/MotionController.py:105-215 | the new state and the commands of one update; RateLimited, SentXYWithinLimits, OutOfRangeXResent, NoZMoveBeforeZKnown, ZBookkeepingAfterZMove, NothingSentNothingChanged and AtMostTwoCommands state it, and Controller.Update applies it |
| MotionController.SetIntentStep | Motion/MotionController.py:69-91 | the new intent; SetIntentOnlyGivenAxes states it and Controller.SetIntent applies it |
| MotionController.MoveBlockingStep | Motion/MotionController.py:217-264 | the new state and commands of a blocking move; MoveBlockingSendsClampedTargets states it and Controller.MoveBlocking applies it |
| MotionController.MoveZRelativeStep | Motion/MotionController.py:266-306 | the new state and commands of a relative Z move; RelativeZClamped and RelativeZUnknownSendsOnly state it and Controller.MoveZRelativeBlocking applies it |
| Sorting.SortBy | Distance/DistanceFromJSON.py:10 | sorted() returns a permutation of its input |
| Sorting.SortBySorted | Distance/DistanceFromJSON.py:10 | sorted() orders the result by its key |
| Sorting.SortedUnique | Distance/Model.py:25-33 | two key-ordered permutations of each other with no repeated key are equal |
| Sorting.SortByOrderIndependent | Distance/Model.py:25-33 | with no repeated key, the sorted result does not depend on the input order |
| DistanceFromJson.SortedDescending | Distance/DistanceFromJSON.py:10 | the calibration list re-ordered by pixel row, largest first, as a permutation of the input |
| DistanceFromJson.FractionBetween | Distance/DistanceFromJSON.py:21-22 | a point a fraction t in [0, 1] of the way from d2 to d1 lies between them |
| DistanceFromJson.LerpBetween | Distance/DistanceFromJSON.py:20-22 | for y1 > y >= y2 the interpolation does not divide by zero, lies between d1 and d2, and is d2 at y2 |
| DistanceFromJson.ScanFinds | Distance/DistanceFromJSON.py:18-25 | strictly inside a descending list the loop stops at the first pair with y1 > y >= y2, so it neither divides by zero nor falls through, and its result lies on the line through that pair |
| DistanceFromJson.DistanceDefinedIffNonEmpty | Distance/DistanceFromJSON.py:3-25 | the result is defined exactly for a non-empty list; the empty list is an IndexError |
| DistanceFromJson.ClampedOutsideRange | Distance/DistanceFromJSON.py:12-16 | at or above the largest row the result is that row's distance; at or below the smallest, that row's |
| DistanceFromJson.InteriorBetweenNeighbours | Distance/DistanceFromJSON.py:18-22 | strictly inside the calibrated range the result is defined and is the linear interpolation between two adjacent rows that enclose y: on the line through them and between their distances |
| DistanceFromJson.ExactInStrictlyDescending | Distance/DistanceFromJSON.py:12-22 | on a strictly descending list a query at one of its rows returns that row's distance |
| DistanceFromJson.ExactAtCalibratedRow | Distance/DistanceFromJSON.py:3-25 | with distinct rows, a query at a calibrated row returns exactly that point's distance |
| DistanceFromJson.OrderIndependent | Distance/DistanceFromJSON.py:3-25 | with distinct rows the result does not depend on the order of the calibration list |
| DistanceModel.SegmentBetween | Distance/Model.py:45 | numpy's slope form on one bracket lies between the bracket's values and meets them at its ends |
| DistanceModel.ScanOnSegment | Distance/Model.py:45 | inside the sampled range the interpolant lies on the segment of two adjacent samples that enclose x |
| DistanceModel.InterpInRange | Distance/Model.py:45 | within the sampled range the interpolant lies between two adjacent samples that bracket x |
| DistanceModel.InterpAtSample | Distance/Model.py:45 | with strictly increasing samples the interpolant passes through every sample |
| DistanceModel.RowArraysSorted | Distance/Model.py:29-33 | the arrays for get_distance hold every point once, rows ascending, each row paired with its own distance |
| DistanceModel.DistanceArraysSorted | Distance/Model.py:23-27 | the arrays for get_y hold every point once, distances ascending |
| DistanceModel.DistanceInterpolates | Distance/Model.py:37-45 | within the calibrated rows get_distance lies between the distances of two adjacent points whose rows enclose y |
| DistanceModel.NoExtrapolation | Distance/Model.py:37-45 | for every y, get_distance lies between two calibrated distances: np.interp holds the end values instead of extrapolating |
| DistanceModel.DistanceAtCalibratedRow | Distance/Model.py:37-45 | with distinct rows, get_distance at a calibrated row returns that point's distance |
| DistanceModel.SortedRowExact | Distance/Model.py:45 | on a row-ordered list without repeated rows, np.interp at a point's row returns that point's distance |
| DistanceModel.Model.constructor | Distance/Model.py:3-10 | nothing is loaded at start |
| DistanceModel.Model.LoadModel | Distance/Model.py:12-35 | fewer than two points is a ValueError that leaves the model as it was; otherwise all four arrays are rebuilt from the new points alone |
| DistanceModel.Model.GetDistance | Distance/Model.py:37-45 | RuntimeError exactly before a load; otherwise np.interp over the row arrays |
| DistanceModel.Model.GetY | Distance/Model.py:47-54 | RuntimeError exactly before a load; otherwise np.interp over the distance arrays |
| DistanceModel.SortedBracket | Distance/Model.py:37-45 | for every y there are two points of the row-sorted list whose distances enclose get_distance |
| DistanceFromJson.Lerp | Distance/DistanceFromJSON.py:20-22 | the interpolation divides by zero exactly when y1 == y2; otherwise its result lies on the straight line through (y1, d1) and (y2, d2) |
| DistanceFromJson.Scan | Distance/DistanceFromJSON.py:18-25 | the pairwise loop over the sorted list; ScanFirstEnclosing states what it returns |
| DistanceFromJson.ScanFirstEnclosing | Distance/DistanceFromJSON.py:18-25 | the loop returns the interpolation of the first adjacent pair with y1 >= y >= y2 (a ZeroDivisionError when its rows are equal), and falls through to None only when no pair encloses y |
| DistanceFromJson.Lookup | Distance/DistanceFromJSON.py:12-25 | the clamps at both ends, then the loop, then the last distance; ClampedOutsideRange, InteriorBetweenNeighbours and ExactInStrictlyDescending state it |
| DistanceFromJson.DistanceFromY | Distance/DistanceFromJSON.py:3-25 | the whole lookup on the sorted calibration; DistanceDefinedIffNonEmpty, ExactAtCalibratedRow and OrderIndependent state it |
| DistanceModel.Interp | Distance/Model.py:45 | np.interp with held end values; InterpInRange, InterpAtSample and ScanOnSegment state it |
| DistanceModel.DistanceAt | Distance/Model.py:37-45 | get_distance on loaded points; DistanceInterpolates, NoExtrapolation, SortedBracket and DistanceAtCalibratedRow state it |
| Storage.Get | Distance/Storage.py:113 | a name is found exactly when the table holds it, and then with the calibration stored under it |
| Storage.Put | Distance/Storage.py:151-158 | after the assignment the name holds the new calibration and every other name reads as before |
| Storage.PutOrder | Distance/Storage.py:151-158 | as a Python dict does, an overwritten name keeps its place and a new name is listed last |
| Storage.PutUnique | Distance/Storage.py:151-158 | the assignment never duplicates a name |
| Storage.Remove | Distance/Storage.py:182 | after del the name is gone, every other name reads as before, and no name is added |
| Storage.RemoveUnique | Distance/Storage.py:182 | deleting never duplicates a name |
| Storage.DefaultStore | Distance/Storage.py:14-19 | version "2.0" with no calibrations |
| Storage.Migrate | Distance/Storage.py:52-74 | an empty legacy list gives the default store; otherwise the single "legacy_calibration" entry holds the points, their distances as distance list and no test results |
| Storage.Load | Distance/Storage.py:22-38 | a missing, unparsable or unreadable file reads as the default store, a stored document as itself, and a JSON list is migrated |
| Storage.Create | Distance/Storage.py:146-158 | the named entry is (re)written with the given fields and no test results; every other name reads as before |
| Storage.AppendResult | Distance/Storage.py:208-209 | the result, stamped with the current time, goes at the end of that entry's list; other entries and the name order are unchanged |
| Storage.ClearResults | Distance/Storage.py:246 | only the named entry's test results are emptied; the name order is unchanged |
| Storage.PreferredPoints | Distance/Storage.py:276-290 | None exactly without calibrations; otherwise the points of "default", else of "legacy_calibration", else of the first entry |
| Storage.CreateThenGet | Distance/Storage.py:133-163 | reading back a created calibration gives exactly what was created; an existing name keeps its place and a new one is listed last |
| Storage.CalibrationFile.constructor | Distance/Storage.py:11 | the file starts with the given contents |
| Storage.CalibrationFile.SaveStorage | Distance/Storage.py:41-49 | True and the new document when the write succeeds, else False and no change |
| Storage.CalibrationFile.CreateCalibration | Distance/Storage.py:133-163 | returns whether the write succeeded and, if so, the file holds Create of what was loaded |
| Storage.CalibrationFile.DeleteCalibration | Distance/Storage.py:166-187 | an unknown name returns False without writing; otherwise the file holds the table with the name removed when the write succeeds |
| Storage.CalibrationFile.AddTestResult | Distance/Storage.py:190-211 | an unknown name returns False without writing; otherwise the file holds AppendResult when the write succeeds |
| Storage.CalibrationFile.ClearTestResults | Distance/Storage.py:230-247 | an unknown name returns False without writing; otherwise the file holds ClearResults when the write succeeds |
| Storage.CalibrationFile.ListCalibrations | Distance/Storage.py:79-99 | one summary per calibration, in table order, counting its points |
| Storage.CalibrationFile.GetCalibration | Distance/Storage.py:102-113 | the stored calibration exactly when the name is present |
| Storage.CalibrationFile.GetCalibrationPoints | Distance/Storage.py:116-130 | None for a missing name; otherwise the points of that entry |
| Storage.CalibrationFile.GetTestResults | Distance/Storage.py:214-227 | the empty list for a missing name; otherwise that entry's results |
| Storage.CalibrationFile.SaveCalibrationData | Distance/Storage.py:252-268 | the file becomes exactly what create_calibration("default") writes, with the "default" zoom label and the points' distances as distance list: "default" holds the new points with no test results, every other calibration reads back unchanged; a failed write leaves the file as it was |
| Storage.CalibrationFile.LoadCalibrationData | Distance/Storage.py:271-290 | PreferredPoints of the loaded table, None exactly without calibrations |
| VideoHandler.KeyBinding | Distance/VideoHandler.py:473-537 | quit exactly on 'q', 'Q' and ESC; every step moves 1, 5, 30 or 60 frames and is named step_* for up to 5 frames and fast_* beyond |
| VideoHandler.ArrowCodesShareLetters | Distance/VideoHandler.py:486-505 | the masked arrow codes 81 and 83 are 'Q' and 'S': left arrow quits instead of stepping back, right arrow steps forward, and only ',' and code 1 step back one frame |
| VideoHandler.ForwardTarget | Distance/VideoHandler.py:114 | min(frame + n, total - 1): never past the last frame nor past frame + n, and equal to one of them |
| VideoHandler.BackwardTarget | Distance/VideoHandler.py:126 | max(frame - n, 0): never before frame 0 nor before frame - n, and equal to one of them |
| VideoHandler.SeekTarget | Distance/VideoHandler.py:136 | the seek clamp lands in [0, total - 1] and leaves an in-range frame number as it is |
| VideoHandler.SeekPercentProgress | Distance/VideoHandler.py:140-143 | for a percentage in [0, 100] the frame seeked to exists, its progress percentage is at most the one asked for, and below 100 it is less than one frame's worth lower |
| VideoHandler.ResizeForDisplay | Distance/VideoHandler.py:539-569 | a missing frame gives (None, 1.0); the scale is at most 1 and positive for positive limits; at scale 1 the frame is returned unchanged, below it the resized frame fits the limits and is no larger than the original |
| VideoHandler.ScaledFits | Distance/VideoHandler.py:555-567 | scaling a side by at most limit/side and at most 1 keeps it within the limit and within the side |
| VideoHandler.Handler.constructor | Distance/VideoHandler.py:17-33 | no capture, paused, no frame, frame 0 of 0, 30 fps |
| VideoHandler.Handler.Open | Distance/VideoHandler.py:35-52 | the capture is held even when it failed to open, and the result says whether it opened; on success the count, size and fps (0 read as 30) are taken and the first frame is read when there is one |
| VideoHandler.Handler.Close | Distance/VideoHandler.py:54-58 | releases the capture and keeps the pause state and the held frame |
| VideoHandler.Handler.ReadNextFrame | Distance/VideoHandler.py:60-72 | a read succeeds exactly when an opened capture is before its end; it then holds that frame and advances the cursor, and otherwise nothing changes |
| VideoHandler.Handler.SeekFrame | Distance/VideoHandler.py:131-138 | False without a capture; succeeds exactly when the capture is open and has frames, and then holds the clamped target frame inside the video; a failed seek keeps the held frame |
| VideoHandler.Handler.SeekPercent | Distance/VideoHandler.py:140-143 | succeeds exactly when seek_frame would, and then holds the clamped frame int(percent / 100 * total) |
| VideoHandler.Handler.GetMetadata | Distance/VideoHandler.py:145-153 | the width, height, fps, frame count and path of the video |
| VideoHandler.Handler.TogglePause | Distance/VideoHandler.py:101-105 | flips and returns the pause state, restarts the frame clock, and leaves the position alone |
| VideoHandler.Handler.StepForward | Distance/VideoHandler.py:107-117 | pauses; when min(frame + n, total - 1) is the current frame nothing moves, otherwise an open video seeks there; returns the held frame |
| VideoHandler.Handler.StepBackward | Distance/VideoHandler.py:119-129 | pauses; when max(frame - n, 0) is the current frame nothing moves, otherwise an open video seeks there; returns the held frame |
| VideoHandler.Handler.GetFrame | Distance/VideoHandler.py:74-99 | None and no change without a capture; paused, the held frame and no change; playing, nothing changes before one frame interval (1/fps) has passed, after it the next frame is read, the end wraps to frame 0, and the clock restarts |
| VideoHandler.Handler.ProgressPercent | Distance/VideoHandler.py:155-159 | 0 for a video without frames, and in [0, 100) for a frame inside the video |
| VideoHandler.Handler.HandleVideoKey | Distance/VideoHandler.py:473-537 | quits exactly on a quit key and reports the bound name; unbound and quit keys change nothing, space flips the pause state, and every step key leaves the video paused |
| VideoHandler.PercentFrame | Distance/VideoHandler.py:141-143 | the frame number for a percentage, truncated toward zero; SeekPercentProgress states where the seek lands |
| VideoHandler.Handler.IsOpen | Distance/VideoHandler.py:161-163 | whether a capture is held and open; SeekFrame and SeekPercent state their results in terms of it |
| VideoCalibration.ZoomWindow | Distance/Calibration.py:101-114 | the zoomed view's side int(side / zoom) and its start, centred where the frame allows: the window lies inside the frame |
| VideoCalibration.ShrinkWithin | Distance/Calibration.py:100-101 | dividing a non-negative side by a zoom of at least 1 gives a length between 0 and the side |
| VideoCalibration.DisplayToOriginalCorners | Distance/Calibration.py:93-123 | unzoomed at display scale 1 a click maps to the same pixel; zoomed, the display's corner maps to the crop window's corner |
| VideoCalibration.ExtendIncreasing | Distance/Calibration.py:465-467 | appending a value above the last keeps the distance list strictly increasing |
| VideoCalibration.ReadDistances | Distance/Calibration.py:461-472 | the prompts succeed exactly when every answer parses as a float and each exceeds the one before, and then return those answers in order |
| VideoCalibration.ValidateSetup | Distance/Calibration.py:426-489 | a setup is accepted exactly when the name is non-empty, the video exists, the point count is at least two, the distances parse and increase and the answer is y; it then carries the name, path, zoom label ("default" when blank) and the increasing distances |
| VideoCalibration.Calibrator.constructor | Distance/Calibration.py:24-52 | no points captured, unzoomed with no centre, display scale 1 |
| VideoCalibration.Calibrator.ShowFrame | Distance/Calibration.py:307-314 | records the displayed frame's size and display scale and keeps the points and zoom |
| VideoCalibration.Calibrator.MouseCallback | Distance/Calibration.py:54-91 | a move records the cursor position; a left click while distances remain appends (pixel row, next distance) and otherwise captures nothing; a right click sets the zoom centre and zooms to 2x from 1x; each point keeps the distance of its position |
| VideoCalibration.Calibrator.HandleUndo | Distance/Calibration.py:360-367 | drops the last point, and does nothing without points; the zoom is untouched |
| VideoCalibration.Calibrator.ZoomIn | Distance/Calibration.py:369-379 | centres on the frame when there is no centre and goes up one zoom level unless at the top |
| VideoCalibration.Calibrator.ZoomOut | Distance/Calibration.py:381-390 | goes down one zoom level unless at 1x, forgetting the centre on reaching 1x |
| VideoCalibration.Calibrator.ZoomReset | Distance/Calibration.py:392-397 | back to 1x with no centre, points kept |
| VideoCalibration.Calibrator.HandleSave | Distance/Calibration.py:399-423 | fewer than two points refuses and writes nothing; otherwise the calibration is created from the video's metadata and the first len(points) distances, which are the points' own distances |
| VideoCalibration.DisplayToOriginal | Distance/Calibration.py:93-123 | the original-frame pixel for a display click, through the zoom window; DisplayToOriginalCorners states it |
| Detection.Midpoint | YoloModel/Detection.py:49-50 | the floor-divided centre of an integer box lies between its corners on each axis |
| Detection.DetectHuman | YoloModel/Detection.py:10-52 | no detector output or no box of class 0 with confidence at least 0.4 gives (False, None, None, 0.0); otherwise the first box of greatest confidence among those, with its integer corners, centre and confidence |
| Detection.FirstBestUnique | YoloModel/Detection.py:30-43 | the strict > comparison makes the chosen box unique: only one index is first among the most confident |
| Detection.FoundIsPerson | YoloModel/Detection.py:38-52 | a reported person is a class-0 box with confidence at least 0.4, and its centre lies inside its box |
| Yolov8.DetectHumanLive | YoloModel/yolov8.py:63-67 | a failed camera read gives the failure tuple; otherwise the same selection as detect_human |
| Tiling.MakeTileConfig | YoloModel/Tiling.py:29-34 | ValueError exactly when the grid is smaller than 1x1 or the overlap is outside [0, 0.5]; otherwise the configuration as given |
| Tiling.Area | YoloModel/Tiling.py:47-50 | the area is never negative, and is 0 for a box with a side that does not extend |
| Tiling.MulIsProduct | YoloModel/Tiling.py:50 | the area's side product, written as repeated addition, is the product |
| Tiling.MulMono | YoloModel/Tiling.py:50 | larger sides give a larger area |
| Tiling.Center | YoloModel/Tiling.py:52-55 | the floor-divided centre lies between the corners on each axis |
| Tiling.AxisSpan | YoloModel/Tiling.py:92-122 | on one axis, a tile's start and end satisfy 0 <= start <= end <= frame side, whatever the clamping and edge adjustment did |
| Tiling.TileRegion | YoloModel/Tiling.py:104-123 | every tile region lies inside the frame: 0 <= x1 <= x2 <= w and 0 <= y1 <= y2 <= h |
| Tiling.RowSpec | YoloModel/Tiling.py:105-123 | one grid row holds cols regions, the k-th being column k's |
| Tiling.GridRowsAt | YoloModel/Tiling.py:104-123 | the r-th row of the grid is row r's regions |
| Tiling.FlattenLength | YoloModel/Tiling.py:123 | appending rows of cols regions each gives cols times the row count |
| Tiling.FlattenAt | YoloModel/Tiling.py:123 | ... with row r, column k at index cols * r + k |
| Tiling.GridSize | YoloModel/Tiling.py:74-125 | calculate_tile_regions returns rows * cols regions |
| Tiling.GridRowMajor | YoloModel/Tiling.py:104-125 | the regions are in row-major order: row r, column k is at index r * cols + k |
| Tiling.GridInFrame | YoloModel/Tiling.py:74-125 | every region returned lies inside the frame |
| Tiling.RowRegions | YoloModel/Tiling.py:105-123 | the inner loop produces row r's regions, left to right |
| Tiling.CalculateTileRegions | YoloModel/Tiling.py:74-125 | the loops produce the whole grid, row by row |
| Tiling.ExtractTiles | YoloModel/Tiling.py:128-159 | one tile per region, tile idx cut from region idx with its corner as offset and its size, placed at row idx // cols and column idx % cols |
| Tiling.DivModPlace | YoloModel/Tiling.py:144-145 | index r * cols + k divides back into row r and column k |
| Tiling.TilePlacement | YoloModel/Tiling.py:128-159 | the tile at index r * cols + k is row r, column k, cut from that cell's region, inside the frame with non-negative size |
| Tiling.Shift | YoloModel/Tiling.py:178-185 | a moved detection keeps its confidence, class and side lengths |
| Tiling.ShiftKeepsAreaAndInverts | YoloModel/Tiling.py:162-186 | moving a detection keeps its area, and moving it back by the opposite offset restores it |
| Tiling.ConvertToFrameCoords | YoloModel/Tiling.py:162-186 | every detection, in order, moved by the tile's offset |
| Tiling.Intersection | YoloModel/Tiling.py:200-206 | the overlap area is never negative |
| Tiling.IntersectionWithinBoth | YoloModel/Tiling.py:200-213 | the overlap is no larger than either box |
| Tiling.Iou | YoloModel/Tiling.py:189-219 | the IoU lies in [0, 1], and is 0 when the boxes do not overlap |
| Tiling.OverlapPositiveIou | YoloModel/Tiling.py:208-219 | boxes that overlap at all have a positive IoU: the zero-union guard is never taken for them |
| Tiling.IouSymmetric | YoloModel/Tiling.py:189-219 | the IoU does not depend on the order of the boxes |
| Tiling.DisjointIouZero | YoloModel/Tiling.py:200-209 | boxes separated on either axis have IoU 0 |
| Tiling.Survivors | YoloModel/Tiling.py:250-255 | one pass keeps only detections of its input whose IoU with the best is below the threshold |
| Tiling.SurvivorsSorted | YoloModel/Tiling.py:250-255 | a pass keeps the confidence order of what it filters |
| Tiling.SuppressHead | YoloModel/Tiling.py:245-248 | the first detection kept is the first of the sorted list, and nothing is kept only from nothing |
| Tiling.SuppressDrawsFromInput | YoloModel/Tiling.py:245-257 | suppression keeps only detections of its input, none more often than it occurs |
| Tiling.SuppressTailSurvives | YoloModel/Tiling.py:247-255 | every detection kept after the first survived the comparison with the first |
| Tiling.SuppressSorted | YoloModel/Tiling.py:242-257 | suppression keeps the confidence order |
| Tiling.SuppressSeparated | YoloModel/Tiling.py:245-257 | no two kept detections have an IoU at or above the threshold |
| Tiling.RemoveOverlapping | YoloModel/Tiling.py:250-255 | the inner loop computes one pass of suppression |
| Tiling.SurvivorsSnoc | YoloModel/Tiling.py:252-254 | one more detection is appended to the survivors exactly when its IoU with the best is below the threshold |
| Tiling.NonMaxSuppression | YoloModel/Tiling.py:222-257 | the loop keeps the suppression of the confidence-sorted list, with the configured threshold when none is given |
| Tiling.NmsProperties | YoloModel/Tiling.py:222-257 | the result is drawn from the input, by decreasing confidence, led by a most confident detection, pairwise below the threshold, and empty only for empty input |
| Tiling.Converted | YoloModel/Tiling.py:285-287 | a tile's detections, each moved by the tile's offset |
| Tiling.MergeTileDetections | YoloModel/Tiling.py:260-292 | the detections of tile and list pairs (as far as zip goes), converted and concatenated in order, then suppressed |
| Tiling.BestDetection | YoloModel/Tiling.py:295-307 | None exactly for no detections; otherwise the first detection of greatest confidence, as max() picks it |
| Tiling.TileSettings.constructor | YoloModel/Tiling.py:310-315 | the default tile configuration is the configured one |
| Tiling.TileSettings.SetTileConfig | YoloModel/Tiling.py:318-335 | missing arguments come from the vision configuration; an invalid result raises ValueError and leaves the default, a valid one replaces it |
| Tiling.TileSettings.GetTileConfig | YoloModel/Tiling.py:338-340 | the current default, always a valid configuration |
| Tiling.Suppress | YoloModel/Tiling.py:242-257 | the greedy suppression loop over a confidence-sorted list; SuppressHead, SuppressDrawsFromInput, SuppressSorted and SuppressSeparated state it |
| VisionConfig.Or | Config/vision_config.py:181-190 | a keyword argument that is present wins, an absent one takes the field's default |
| VisionConfig.MakeYolo | Config/vision_config.py:16-33 | with no class list given, only the person class 0 is detected |
| VisionConfig.MakeTiling | Config/vision_config.py:36-54 | ValueError exactly when the overlap (default 0.15) is outside [0, 0.5] or the grid (default 2x2) is below 1x1; otherwise a valid configuration with the given or default grid |
| VisionConfig.MakeCamera | Config/vision_config.py:58-88 | an absent backend becomes the platform's capture backend, a given one is kept |
| VisionConfig.DefaultTiling | Config/vision_config.py:36-48 | the default tiling section is valid and is what TilingConfig() builds |
| VisionConfig.MakeConfig | Config/vision_config.py:114-129 | a section given is kept; a missing one is built from its defaults (person class only, valid 2x2 tiling, platform backend) |
| VisionConfig.SaveToJson | Config/vision_config.py:131-178 | every section is written, and the camera backend is not |
| VisionConfig.LoadFromJson | Config/vision_config.py:181-198 | loading fails, with ValueError, exactly when the tiling section is invalid; a loaded configuration always has a valid tiling |
| VisionConfig.SaveLoadRoundTrip | Config/vision_config.py:131-198 | saving and loading back gives the same configuration except the camera backend, which comes back as the platform default |
| VisionConfig.RoundTripExactIffPlatformBackend | Config/vision_config.py:131-198 | the round trip is exact precisely when the backend was already the platform's |
| VisionConfig.EmptyFileIsDefault | Config/vision_config.py:181-198 | a file with no sections loads as the default configuration |
| VisionConfig.ConfigCache.constructor | Config/vision_config.py:200-201 | nothing cached yet |
| VisionConfig.ConfigCache.GetConfig | Config/vision_config.py:203-214 | a cached configuration is returned as it is; otherwise an existing file is loaded and cached (an invalid one raises and caches nothing), and a missing file gives the defaults, cached and written out |
| VisionConfig.ConfigCache.ReloadConfig | Config/vision_config.py:216-220 | the file is read again (or the defaults used when it is missing), and a success is what is cached |
| VisionConfig.ConfigCache.SaveConfig | Config/vision_config.py:222-227 | on success the file holds the current configuration as saved |
| VisionConfig.MakeSystem | Config/vision_config.py:91-111 | the system section with each missing field at its default; MakeConfig states that a missing section takes it |
| VisionConfig.DefaultConfig | Config/vision_config.py:114-129 | the configuration with every section at its defaults; EmptyFileIsDefault and ConfigCache.GetConfig state when it is loaded |
| MainLoop.MainLoop | Main.py:27-85 | the while-loop over a run of detector results ends in the state, lost count, Z and thread handles that the pass-by-pass state machine gives, having made the same thread calls in the same order |
| MainLoop.StepKeepsInv | Main.py:45-81 | one pass keeps the invariant: while tracking only the track thread is held and fewer than LOST_LIMIT misses are counted, while searching no track thread is held |
| MainLoop.RunKeepsInv | Main.py:33-85 | the invariant holds after any number of passes |
| MainLoop.InitInv | Main.py:27-31 | the loop starts in SEARCH, and the invariant holds after any run from the start |
| MainLoop.AcquireHandsOverZ | Main.py:49-61 | a human seen in SEARCH ends with: stop the search thread, reset tracking to the search Z, start tracking at the detected x; the state becomes TRACK with lost count 0 and that Z, only the track thread held |
| MainLoop.SearchWithoutHuman | Main.py:45-48 | SEARCH without a human keeps searching, starting the search thread only when none is held |
| MainLoop.MissCounts | Main.py:66-75 | in TRACK a miss adds one to the lost count, and returns to SEARCH, taking the track Z and stopping the track thread, exactly when the count reaches LOST_LIMIT |
| MainLoop.SightingResets | Main.py:76-81 | in TRACK a sighting only resets the lost count |
| MainLoop.MissesUntilLimit | Main.py:66-75 | from a fresh TRACK, fewer than 8 consecutive misses keep tracking with the misses counted, and the 8th returns to SEARCH |
| MainLoop.Step | Main.py:45-81 | one pass of the main loop; StepKeepsInv, AcquireHandsOverZ, SearchWithoutHuman, MissCounts and SightingResets state it |
| MainLoop.Run | Main.py:33-85 | the passes in order; RunKeepsInv and MissesUntilLimit state it and MainLoop.MainLoop runs it |
| MainLaser.LaserLoop | main_laser.py:24-57 | the while-loop over a run of detector results ends in the state and lost count the pass-by-pass state machine gives, having made the same laser, Z hand-over, pan and track calls in the same order |
| MainLaser.EveryPassLaserOff | main_laser.py:33-45 | every pass first commands the laser off, and makes no other laser call |
| MainLaser.NeverLaserOn | main_laser.py:29-57 | over any run, every laser command switches the laser off |
| MainLaser.LaserCalls | main_laser.py:33-45 | a call list holds no more laser calls than calls |
| MainLaser.LaserCallsAppend | main_laser.py:29-57 | the laser calls of two stretches of the run add up |
| MainLaser.OneLaserCallPerPass | main_laser.py:29-57 | the laser is commanded exactly once per pass |
| MainLaser.LaserCallsOfPass | main_laser.py:32-55 | a pass whose only laser call is its first makes one laser call |
| MainLaser.SearchStep | main_laser.py:32-42 | in SEARCH a human hands the search Z to tracking and enters TRACK with lost count 0; otherwise the loop pans, after switching the laser off |
| MainLaser.TrackStep | main_laser.py:44-55 | in TRACK a human resets the lost count and keeps tracking; a miss adds one and returns to SEARCH exactly when the count exceeds LOST_LIMIT |
| MainLaser.NineMissesToSearch | main_laser.py:51-55 | from a fresh TRACK the loop keeps tracking through 8 misses in a row and returns to SEARCH on the 9th |
| MainLaser.Step | main_laser.py:32-55 | one pass of the laser loop; EveryPassLaserOff, SearchStep and TrackStep state it |
| MainLaser.Run | main_laser.py:29-57 | the passes in order; NeverLaserOn, OneLaserCallPerPass and NineMissesToSearch state it and MainLaser.LaserLoop runs it |
| AimTest.LowerChar | Aim_Test.py:194 | lower-casing leaves no upper-case ASCII letter and does not change which characters are white space (ASCII letters only, see Left out) |
| AimTest.Lower | Aim_Test.py:194 | lower-casing keeps the length |
| AimTest.LowerAt | Aim_Test.py:194 | lower-casing works character by character |
| AimTest.TrimStart | Aim_Test.py:194 | stripping the front never lengthens the text |
| AimTest.TrimStartSpec | Aim_Test.py:194 | what strip drops at the front is white space, and what it keeps is a suffix starting with a visible character |
| AimTest.TrimEnd | Aim_Test.py:194 | stripping the back never lengthens the text |
| AimTest.TrimEndSpec | Aim_Test.py:194 | what strip drops at the back is white space, and what it keeps is a prefix ending with a visible character |
| AimTest.StripEmptyIffAllSpace | Aim_Test.py:194-199 | a line strips to nothing exactly when it is all white space |
| AimTest.Word | Aim_Test.py:202 | a word is no longer than the text it starts |
| AimTest.WordSpec | Aim_Test.py:202 | the first word is the longest prefix without white space, and is non-empty when the text starts with a visible character |
| AimTest.SplitWords | Aim_Test.py:202 | every word split() returns is non-empty and holds no white space |
| AimTest.VisibleAppend | Aim_Test.py:202 | the visible characters of joined text are those of each part, in order |
| AimTest.VisibleOfSpaces | Aim_Test.py:202 | white space has no visible characters |
| AimTest.VisibleOfWord | Aim_Test.py:202 | a word is all visible |
| AimTest.SplitKeepsText | Aim_Test.py:202 | splitting loses only white space: the words, joined, are the line's visible characters in order |
| AimTest.SplitEmptyIffAllSpace | Aim_Test.py:202 | a line splits into no words exactly when it is all white space |
| AimTest.LowerAllSpace | Aim_Test.py:194 | lower-casing keeps a line all white space exactly when it was |
| AimTest.BlankIffAllSpace | Aim_Test.py:194-203 | the stripped, lower-cased line is empty exactly when the input was all white space, and otherwise it has a first word |
| AimTest.Classify | Aim_Test.py:194-233 | an aim request always carries a positive distance |
| AimTest.SeparatorIsSpace | Aim_Test.py:194-204 | white space is str.isspace()'s set, so a line made of the separator 0x1C and "s" stops the pattern |
| AimTest.BlankLines | Aim_Test.py:198-199 | a line is skipped exactly when it is all white space |
| AimTest.PatternSizeDefault | Aim_Test.py:211-219 | "p <dist>" without a size asks for the default half-foot square |
| AimTest.StopAndUsage | Aim_Test.py:206-215 | a first word "s" stops the pattern whatever follows, and a lone "p" only prints the usage |
| AimTest.AimNeedsPositiveNumber | Aim_Test.py:225-233 | a first word that is not a number is unknown, a number that is not positive is refused, and a positive number is an aim at that many inches |
| AimTest.Requests | Aim_Test.py:192-203 | one request per input line |
| AimTest.RequestAt | Aim_Test.py:192-203 | the k-th request is the k-th line's |
| AimTest.MoveSumAppend | Aim_Test.py:112-117 | the relative moves of two stretches of commands add up |
| AimTest.MoveSumOfNoMoves | Aim_Test.py:206-222 | commands without a relative move move nothing |
| AimTest.PatternCommandsMoveNothing | Aim_Test.py:206-222 | starting or stopping a pattern sends no relative mirror move |
| AimTest.RespondMovesByChange | Aim_Test.py:240-270 | one request moves the mirrors by exactly the change of the last deltas; a GroundAim error sends nothing and keeps them |
| AimTest.MovesSumToLastDeltas | Aim_Test.py:176-270 | from neutral, the relative moves sent so far add up to the last absolute deltas: the mirrors sit where the last aim put them |
| AimTest.AimInFront | Aim_Test.py:240-266 | an aim at a positive distance straight ahead never fails in GroundAim and sends one move |
| AimTest.OthersSendNothing | Aim_Test.py:198-233 | blank, usage, invalid, unknown and non-positive lines send nothing and keep the last deltas |
| AimTest.CommandLoop | Aim_Test.py:176-272 | one pass per line read before Ctrl+C or the end of input: the loop sends what the requests ask, in order, and ends with last deltas equal to the sum of the moves it sent |
| AimTest.SendAll | Aim_Test.py:117 | every command is sent, in order |
| AimTest.AimMain | Aim_Test.py:157-282 | a failed homing closes the link at once; a laser that does not come on closes it after trying; otherwise laser on and the loop's commands, then after Ctrl+C laser off and close, while at the end of input EOFError escapes and the laser stays on with the link open |
| AimTest.Strip | Aim_Test.py:194 | Python's strip; TrimStartSpec, TrimEndSpec and StripEmptyIffAllSpace state it |
| AimTest.Split | Aim_Test.py:202 | Python's split() on whitespace; SplitWords, SplitKeepsText and SplitEmptyIffAllSpace state it |
| AimTest.Tokens | Aim_Test.py:194-202 | the lower-cased, stripped line split into words; BlankIffAllSpace states when it is empty |
| AimTest.Respond | Aim_Test.py:240-270 | the new last deltas and the commands for one request; RespondMovesByChange, AimInFront and OthersSendNothing state it |
| AimTest.Session | Aim_Test.py:192-272 | the requests in order from neutral; MovesSumToLastDeltas states it and AimTest.CommandLoop runs it |
| SystemMain.WiredPatternStarts | SystemMain.py:759-765 | start_square_pattern at d feet succeeds exactly when d exceeds half the square's side; nearer, its near corners are not in front of the laser |
| SystemMain.Wiring | SystemMain.py:466-765 | after load_model of at least two points, get_distance is the loaded model's interpolation of the bottom row; the aim is GroundAim's straight ahead at the distance in meters and succeeds exactly for positive distances; the pattern is DeterrencePattern's square at d * 12 inches and starts exactly beyond half a side |
| SystemMain.SendEach | SystemMain.py:759-765 | every pattern command is sent, in order |
| SystemMain.SwitchOffClears | SystemMain.py:544-549 | switching off leaves no pattern and no laser, stops the pattern exactly when one ran, switches the laser off exactly when it was on, and never switches it on |
| SystemMain.OverrideKeepsSafe | SystemMain.py:542-560 | the person override keeps the safety invariant (laser on only in TRACK and not paused, a pattern only with the laser on, counters in range) |
| SystemMain.KeyEffectKeepsSafe | SystemMain.py:567-592 | the q, p and r keys keep the safety invariant |
| SystemMain.SearchStepKeepsSafe | SystemMain.py:607-655 | the SEARCH branch keeps the safety invariant |
| SystemMain.EngageKeepsSafe | SystemMain.py:738-775 | engaging a bird keeps the safety invariant and stays in TRACK, whether GroundAim or the pattern raise |
| SystemMain.TrackStepKeepsSafe | SystemMain.py:660-775 | the TRACK branch keeps the safety invariant |
| SystemMain.TickKeepsSafe | SystemMain.py:519-775 | every pass of the loop keeps the safety invariant: the laser is never on outside TRACK or while paused |
| SystemMain.InitialSafe | SystemMain.py:325-342 | the initial state is safe, in SEARCH, with the laser off |
| SystemMain.PersonOverrides | SystemMain.py:542-563 | a person in the frame ends the pass with pattern and laser off, in SEARCH, both counters zero, whatever the prior state and key; a laser that was on is switched off and none is switched on |
| SystemMain.QuietStaysQuiet | SystemMain.py:567-655 | a frame without a qualifying bird leaves a system that is off, in SEARCH with zero counters, that way, and switches nothing on |
| SystemMain.SearchConfirms | SystemMain.py:631-655 | in SEARCH a qualifying bird adds a confirmation and anything else resets the count; TRACK is entered exactly at the 5th, with zero counters, no pattern distance, and M400 then both controller resets as the last calls |
| SystemMain.TrackLosesTarget | SystemMain.py:662-681 | in TRACK a frame without a qualifying bird adds one lost frame and nothing else; the 60th returns to SEARCH with zero counters, no target, pattern and laser off |
| SystemMain.OutOfRangeCountsOnce | SystemMain.py:684-727 | a qualifying bird out of the 3 to 30 ft range counts one lost frame after the reset in the same pass, so the count ends at 1 and the laser stays off |
| SystemMain.SearchStepNoLaserOn | SystemMain.py:607-655 | the SEARCH branch never switches the laser on and ends with it off |
| SystemMain.LaserOnOnlyWhenReady | SystemMain.py:519-775 | a pass switches the laser on only in TRACK, running and not paused, with no person, a qualifying bird box, no centring move pending, the distance in range and the restart debounce passed |
| SystemMain.ReadyEngages | SystemMain.py:728-769 | conversely, under those conditions the pass aims, switches the laser on and starts the pattern at the bird's distance from the loaded model, stamped with the time: with the routines main() wires, no in-range distance reaches the ValueError paths |
| SystemMain.PauseStopsAndSkips | SystemMain.py:575-602 | 'p' pauses a running system with pattern and laser off and nothing else changed; while paused a pass without 'r' or 'q' changes nothing and sends nothing |
| SystemMain.ResumeOnlyWhenPaused | SystemMain.py:586-592 | 'r' resumes only when paused, in SEARCH with both counters zero, and otherwise does nothing |
| SystemMain.QuitStops | SystemMain.py:570-573 | 'q' ends the loop in the same pass, after the person override only |
| SystemMain.Teardown | SystemMain.py:838-880 | the clean-up stops the pattern only when the link exists and a pattern runs, always switches a created laser off, stops a created camera, and closes the link last |
| SystemMain.SessionKeepsSafe | SystemMain.py:519-775 | the safety invariant holds after every pass of a run started safe |
| SystemMain.StoppedStaysStopped | SystemMain.py:519-573 | once a pass has cleared running, later frames change nothing |
| SystemMain.SystemState.constructor | SystemMain.py:325-342 | SEARCH, running, not paused, counters zero, no target, pattern and laser off, no pattern distance |
| SystemMain.SystemState.StopPatternAndLaser | SystemMain.py:544-549 | the state and calls are those of switching off |
| SystemMain.SystemState.HandlePerson | SystemMain.py:542-560 | the state and calls are those of the person override |
| SystemMain.SystemState.HandleKey | SystemMain.py:567-592 | the state and calls are those of the key's effect |
| SystemMain.SystemState.MoveSearch | SystemMain.py:619-628 | the state and calls are those of the rate-limited search move |
| SystemMain.SystemState.CountConfirmation | SystemMain.py:631-655 | the state and calls are those of confirmation counting |
| SystemMain.SystemState.RunSearch | SystemMain.py:607-655 | the state and calls are those of the SEARCH branch |
| SystemMain.SystemState.LoseTarget | SystemMain.py:662-681 | the state and calls are those of a lost frame |
| SystemMain.SystemState.RunEngage | SystemMain.py:738-775 | the state and calls are those of engaging at the distance |
| SystemMain.SystemState.RunApproach | SystemMain.py:722-736 | the state and calls are those of the range and debounce checks before engaging |
| SystemMain.SystemState.CentreBird | SystemMain.py:709-719 | the state and calls are those of the rate-limited centring move |
| SystemMain.SystemState.FollowBird | SystemMain.py:697-722 | the state and calls are those of following a qualifying bird |
| SystemMain.SystemState.RunTrack | SystemMain.py:660-775 | the state and calls are those of the TRACK branch |
| SystemMain.SystemState.Iterate | SystemMain.py:519-775 | the state and calls are those of one pass |
| SystemMain.SystemState.HandleFrame | SystemMain.py:567-775 | the state and calls are those of the keyboard and the mode branch after the override |
| SystemMain.SystemState.RunMode | SystemMain.py:607-775 | the state and calls are those of the branch for the mode |
| SystemMain.SystemState.RunFrames | SystemMain.py:519-775 | the loop's state and calls are those of the session over the frames, stopping at the first pass that clears running |
| SystemMain.SystemRun | SystemMain.py:398-880 | with the routines wired to the loaded calibration points, the laser is switched off first, then the session's calls, then the full clean-up |
| SystemMain.Override | SystemMain.py:542-563 | a person in view switches the laser and the pattern off and returns to SEARCH; OverrideKeepsSafe and PersonOverrides state it |
| SystemMain.KeyEffect | SystemMain.py:567-592 | the effect of the pause, resume and quit keys; KeyEffectKeepsSafe, PauseStopsAndSkips, ResumeOnlyWhenPaused and QuitStops state it |
| SystemMain.Engage | SystemMain.py:738-775 | measuring, aiming and starting the pattern; EngageKeepsSafe and ReadyEngages state it |
| SystemMain.Tick | SystemMain.py:519-775 | one pass of the loop; TickKeepsSafe, PersonOverrides, SearchConfirms, TrackLosesTarget, LaserOnOnlyWhenReady and ReadyEngages state it |
| SystemMain.Session | SystemMain.py:519-775 | the passes in order; SessionKeepsSafe and StoppedStaysStopped state it and SystemMain.RunFrames runs it |
| LiveCalibration.ClickAppendsValid | SystemMain.py:220-245 | a click appends (row, distance) exactly when it is a left click on a shown frame with a positive number typed; otherwise the points are unchanged |
| LiveCalibration.SaveNeedsSix | SystemMain.py:205-212 | 's' returns the points unchanged exactly when there are at least six; otherwise the loop goes on |
| LiveCalibration.UndoInvertsClick | SystemMain.py:200-239 | 'u' removes exactly the point the last accepted click appended |
| LiveCalibration.UndoEmpty | SystemMain.py:200-201 | 'u' with no points changes nothing |
| LiveCalibration.EventKeepsPositive | SystemMain.py:182-243 | every stored distance stays positive through any click or key, and a save returns the stored points |
| LiveCalibration.SavedPointsValid | SystemMain.py:152-218 | whatever the operator does, run() returns only lists of at least six points, all at positive distances |
| LiveCalibration.LiveCalibrationUI.constructor | SystemMain.py:145-150 | no points and no frame at start |
| LiveCalibration.LiveCalibrationUI.MouseCallback | SystemMain.py:220-245 | the points become ClickStep of the old points; the frame flag is unchanged |
| LiveCalibration.LiveCalibrationUI.HandleFrameKey | SystemMain.py:182-212 | a frame is now shown, and the points and the outcome are those of KeyStep |
| LiveCalibration.LiveCalibrationUI.Run | SystemMain.py:182-212 | the loop returns what RunEvents gives for the event stream |
| LiveCalibration.ClickStep | SystemMain.py:220-245 | one mouse click; ClickAppendsValid and UndoInvertsClick state it |
| LiveCalibration.KeyStep | SystemMain.py:196-212 | one key press; SaveNeedsSix, UndoInvertsClick and UndoEmpty state it |
| LiveCalibration.RunEvents | SystemMain.py:182-212 | the events in order; SavedPointsValid states it and LiveCalibrationUI.Run runs it |

## Left out

- Network clients and threads are not modelled: the Moonraker WebSocket clients, the HTTP laser switch, the homing, wait, position and busy helpers, and the camera and YOLO threads. A command sent to the stage or the switch is an entry appended to a log, and a reply the code waits for is an input.
- Detector inference, camera capture and frame resizing are not modelled. The detector's boxes, class, confidence and the camera's success flag are inputs, and a frame's image is represented by its index or its size.
- UI and drawing are not modelled: the OpenCV windows and overlays, the Tk `VideoControlPanel` and `draw_video_controls`, the configuration GUIs and every `print`. Keys and mouse events are inputs.
- Clocks and sleeps: the current time is a parameter (`now`), and `time.sleep` calls are omitted.
- IEEE floating point: distances, angles and millimetres are reals, with no rounding, and never NaN or infinite.
- LiveCalibration.SavedPointsValid: a typed distance is a finite real or None. Python's `float()` also accepts "nan" and "inf", and `nan <= 0` is false, so the check at `SystemMain.py:234` lets NaN and infinity into the points. The "positive distances" promise therefore holds only for finite input, and so does LiveCalibration.ClickAppendsValid.
- AimTest.Classify: for the same reason, "nan" passes the check at `Aim_Test.py:231`, so the program can aim at NaN inches. The "positive distance" of an aim request holds only for finite input.
- AimTest.LowerChar: folds ASCII letters only. Python's `lower()` also folds other alphabets, which can change a word's length. No other letter folds to "s" or "p", so only the text handed to `float()` differs, and that is a parameter.
- Number-to-text formatting (`:.3f`, `:.4f`) is a formatter parameter or a structured command, and Python's `float()` parsing is a parameter.
- `math.pi`, `math.sqrt`, `math.atan` and `math.atan2` are not computed. The model holds for every library that obeys the laws in `Transcendentals` (π > 0, sqrt positive on positive input, atan positive on positive input, atan2(0, z) = 0 for z > 0).
- JSON encoding and file I/O: the calibration file and the vision configuration file are values. Whether a write succeeds is an input (`writeOk`), and `datetime.now().isoformat()` is a parameter.
- VisionConfig.SaveLoadRoundTrip: JSON turns colour tuples into lists, so the round trip is exact only up to that, and the model treats a tuple and its list as the same value.
- `numpy.interp` is modelled from numpy's documented behaviour (end values held outside the sample range); numpy itself is not part of this model.
- SystemMain.Frame: the answers of `search.update()` (`SystemMain.py:621-622`) and `tracker.update((cx, cy), confidence)` (`SystemMain.py:707-710`) are fields of each frame (`searchDelta`, `trackerMove`, `trackerDelta`), not computed by `SearchV2.UpdateStep` and `TrackingController.UpdateStep` from the controllers' state and the bird's centre. The loop's lemmas hold for every answer, so they also hold for the controllers' actual answers, but the model does not carry those controllers' state through the passes.
- SystemMain.SystemState.RunFrames: `SystemMain.py:529` unpacks five values from `detect_human`, which returns four and only ever class 0. The detector output of each pass is therefore a free input, and that call is not modelled.
- LiveCalibration.LiveCalibrationUI.Run: the camera-open failure and the catch-all `except Exception` (both return None) are not modelled, because the camera is not.
- `run_live_distance_calibration` (`SystemMain.py:276-318`) only prints sorted views and then stores the points through `create_calibration`, which `Storage` models.
- The display loop of `VideoCalibrator.run` (`Distance/Calibration.py:255-358`) and `run_legacy_calibration` are UI loops and are not modelled. Only the frame size and display scale each displayed frame records are modelled (`VideoCalibration.Calibrator.ShowFrame`).
- VideoCalibration.Calibrator.ZoomIn: the zoom window uses `_original_frame_size`, which is modelled as the frame height and width recorded by `ShowFrame`.
- The IMU reader thread of `Aim_Test.py` (`esp32_reader_thread`, lines 62-106) reads a serial port on a background thread. The platform roll it writes is a parameter of the aiming functions.
- `laser_on`, `laser_off` and `set_motion_intent` in `Main_Functions.py` are print-only stubs and are not modelled.
- The accessors `get_yolo_config`, `get_tiling_config`, `get_camera_config` and `get_system_config` (`Config/vision_config.py:230-244`) are `get_config()` followed by a field read. They are not written out separately.
- Tiling.ExtractTiles: the image crop of each tile is not modelled. A tile carries its region, size and grid position.
- `detect_human` in `YoloModel/yolov8.py` is a line-for-line copy of the one in `YoloModel/Detection.py`. It is modelled once, by `Detection.DetectHuman`, and only the failure tuple of `detect_human_live` is modelled separately.
- `Behavior/Tracking.py` calls `Move()` without its link argument, and `Behavior/Search.py` calls `move_all` and `wait_for_complete`, which it never imports. The model records the move these calls evidently intend.
- `Laser/LaserController.py` imports a function that does not exist and is not part of this model. Neither are the constants-only files (`Config/Seach_Config.py`, `motion/Limits.py`; the limits they define are constructor arguments) or the interactive demo and latency scripts.
