/**
 * The orchestrator of SystemMain.py: the SystemState record the main loop reassigns,
 * one pass of that loop (person override, keyboard, then the SEARCH or TRACK branch)
 * and the clean-up in its `finally` block. The detector output, the key code, the
 * clock, the search and tracking controllers' answers and the loaded distance model
 * are inputs; the commands sent to the link and the laser switch are the actions logged.
 */
module SystemMain {
  import opened Wrappers
  import opened Transcendentals
  import opened Commands
  import GroundAim
  import DeterrencePattern
  import DistanceFromJson
  import DistanceModel

  const PERSON_CLASS: int := 0
  const BIRD_CLASS: int := 14
  const BIRD_CONF: real := 0.25
  const TRACK_CONFIRM_FRAMES: int := 5
  const LOST_FRAMES_TO_EXIT: int := 60
  const MIN_DISTANCE_FT: real := 3.0
  const MAX_DISTANCE_FT: real := 30.0
  const SQUARE_SIZE_FT: real := 1.0
  const PATTERN_SPEED: int := 12000
  const PATTERN_DWELL_MS: int := 100
  const Z_FEED: real := 100.0
  const Z_DEADBAND: real := 0.01
  const MOTOR_CMD_INTERVAL: real := 1.0
  const PATTERN_RESTART_DEBOUNCE: real := 1.5

  datatype Mode = Search | Track

  datatype DetectedClass = Person | Bird | Other

  /**
   * What one pass of the loop sees: whether the camera had a frame, the detector result,
   * the raw cv2.waitKey code, the time, and the answers of search.update() and
   * tracker.update() should the pass call them.
   */
  datatype Frame = Frame(
    present: bool,
    hasTarget: bool,
    classId: Option<int>,
    confidence: real,
    bbox: Option<(int, int, int, int)>,
    key: int,
    now: real,
    searchDelta: real,
    trackerMove: bool,
    trackerDelta: real)

  /**
   * The routines a pass calls and does not own: get_distance on a bounding box's bottom
   * row, get_motor_deltas_for_ground_hit straight ahead at a distance in feet, and
   * start_square_pattern at a distance in feet (the commands it sends, or its ValueError).
   */
  datatype Env = Env(distance: int -> real, aim: real -> Result<(real, real)>, pattern: real -> Result<seq<Command>>)

  /** The pattern start_square_pattern sends at d feet: a side of SQUARE_SIZE_FT centred d * 12 inches ahead. */
  function WiredPattern(lib: Maths, roll: real, d: real): Result<seq<Command>> {
    DeterrencePattern.SquarePatternCommands(lib, roll, d * 12.0, SQUARE_SIZE_FT, PATTERN_SPEED, PATTERN_DWELL_MS)
  }

  /** The square starts exactly when the target is more than half a side ahead: otherwise its near corners are not in front. */
  lemma WiredPatternStarts(lib: Maths, roll: real)
    ensures forall d :: WiredPattern(lib, roll, d).Ok? <==> d > SQUARE_SIZE_FT / 2.0
  {
    forall d
      ensures WiredPattern(lib, roll, d).Ok? <==> d > SQUARE_SIZE_FT / 2.0
    {
      var c := DeterrencePattern.SquareCorners(d * 12.0, SQUARE_SIZE_FT);
      if d > SQUARE_SIZE_FT / 2.0 {
        DeterrencePattern.PatternStartsInFront(lib, roll, d * 12.0, SQUARE_SIZE_FT, PATTERN_SPEED, PATTERN_DWELL_MS);
      } else {
        assert c[0].1 <= 0.0;
      }
    }
  }

  /**
   * The routines as main() wires them after load_model(calibration_points) returned, which
   * needs at least two points: get_distance reads the loaded model, the aim is
   * GroundAim's straight ahead and the pattern DeterrencePattern's, both at the IMU roll.
   */
  function Wiring(lib: Maths, roll: real, data: seq<DistanceFromJson.CalPoint>): (env: Env)
    requires |data| >= 2
    ensures forall y :: env.distance(y) == DistanceModel.DistanceAt(data, y as real)
    ensures forall d :: env.aim(d) == GroundAim.MotorDeltas(lib, roll, 0.0, DeterrencePattern.FeetToMeters(d))
    ensures forall d :: env.aim(d).Ok? <==> d > 0.0
    ensures forall d :: env.pattern(d) == WiredPattern(lib, roll, d)
    ensures forall d :: env.pattern(d).Ok? <==> d > SQUARE_SIZE_FT / 2.0
  {
    WiredPatternStarts(lib, roll);
    Env(y => DistanceModel.DistanceAt(data, y as real),
        d => GroundAim.MotorDeltas(lib, roll, 0.0, DeterrencePattern.FeetToMeters(d)),
        d => WiredPattern(lib, roll, d))
  }

  /** Calls on the link, the laser switch, the controllers and the camera. */
  datatype Action =
    | Send(command: Command)
    | LaserOn
    | LaserOff
    | SearchUpdate
    | TrackerUpdate(cx: int, cy: int, conf: real)
    | TrackerReset
    | SearchReset
    | CameraStop
    | CloseLink

  function SendEach(cmds: seq<Command>): (r: seq<Action>)
    ensures |r| == |cmds| && forall k :: 0 <= k < |cmds| ==> r[k] == Send(cmds[k])
  {
    if cmds == [] then [] else [Send(cmds[0])] + SendEach(cmds[1..])
  }

  /**
   * The SystemState fields, with main()'s last_motor_cmd_time beside them. The current
   * target class is only ever "bird" or None, so it is a flag here.
   */
  datatype Sys = Sys(
    mode: Mode,
    running: bool,
    paused: bool,
    confirmCount: int,
    lostCount: int,
    targetBird: bool,
    patternActive: bool,
    laserActive: bool,
    lastPatternStart: real,
    lastPatternDistance: Option<real>,
    lastMotorCmd: real)

  const Initial: Sys := Sys(Search, true, false, 0, 0, false, false, false, 0.0, None, 0.0)

  type Out = (Sys, seq<Action>)

  function Abs(a: real): real { if a >= 0.0 then a else -a }

  /** The class name the loop gives the detection. */
  function Classify(f: Frame): DetectedClass {
    if f.hasTarget && f.classId.Some? then
      if f.classId.value == PERSON_CLASS then Person
      else if f.classId.value == BIRD_CLASS then Bird
      else Other
    else Other
  }

  /** A bird detection confident enough to count. */
  predicate Qualifies(f: Frame) {
    f.hasTarget && Classify(f) == Bird && f.confidence >= BIRD_CONF
  }

  /** stop_pattern if a pattern runs, then the laser off if it is on. */
  function SwitchOff(s: Sys): Out {
    (s.(patternActive := false, laserActive := false),
     (if s.patternActive then [Send(GridStop)] else []) + (if s.laserActive then [LaserOff] else []))
  }

  /** The safety override for a person: everything off, back to SEARCH, counters zero. */
  function Override(s: Sys, f: Frame): Out {
    if Classify(f) != Person then (s, [])
    else
      var off := SwitchOff(s);
      var t := if off.0.mode == Track then off.0.(mode := Search, targetBird := false, lastPatternDistance := None) else off.0;
      (t.(confirmCount := 0, lostCount := 0), off.1)
  }

  predicate IsQuit(key: int) { key % 256 == 'q' as int || key % 256 == 'Q' as int }
  predicate IsPause(key: int) { key % 256 == 'p' as int || key % 256 == 'P' as int }
  predicate IsResume(key: int) { key % 256 == 'r' as int || key % 256 == 'R' as int }

  /** The keyboard branch; the key is the waitKey code masked with 0xFF. */
  function KeyEffect(s: Sys, key: int): Out {
    if IsQuit(key) then (s.(running := false), [])
    else if IsPause(key) then
      if !s.paused then SwitchOff(s.(paused := true)) else (s, [])
    else if IsResume(key) then
      if s.paused then (s.(paused := false, mode := Search, confirmCount := 0, lostCount := 0), []) else (s, [])
    else (s, [])
  }

  /** The rate-limited search.update(): a Z move is sent only above the dead band, and only then is the time taken. */
  function SearchMotion(s: Sys, f: Frame): Out {
    if f.now - s.lastMotorCmd >= MOTOR_CMD_INTERVAL then
      if Abs(f.searchDelta) > Z_DEADBAND then
        (s.(lastMotorCmd := f.now), [SearchUpdate, Send(RelativeZ(f.searchDelta, Z_FEED))])
      else (s, [SearchUpdate])
    else (s, [])
  }

  /** Confirmation counting in SEARCH, and the hand-over to TRACK at TRACK_CONFIRM_FRAMES. */
  function Confirm(s: Sys, f: Frame): Out {
    if Qualifies(f) then
      if s.confirmCount + 1 >= TRACK_CONFIRM_FRAMES then
        (s.(mode := Track, confirmCount := 0, lostCount := 0, targetBird := true, lastPatternDistance := None),
         [Send(WaitForMoves), TrackerReset, SearchReset])
      else (s.(confirmCount := s.confirmCount + 1), [])
    else (s.(confirmCount := 0), [])
  }

  /** The SEARCH branch: pattern and laser off, the search step, then confirmation counting. */
  function SearchStep(s: Sys, f: Frame): Out {
    var off := SwitchOff(s);
    var moved := SearchMotion(off.0, f);
    var confirmed := Confirm(moved.0, f);
    (confirmed.0, off.1 + moved.1 + confirmed.1)
  }

  /** A TRACK frame without a qualifying bird; at LOST_FRAMES_TO_EXIT back to SEARCH with everything off. */
  function LoseFrame(s: Sys): Out {
    if s.lostCount + 1 >= LOST_FRAMES_TO_EXIT then
      SwitchOff(s.(mode := Search, lostCount := 0, confirmCount := 0, targetBird := false, lastPatternDistance := None))
    else (s.(lostCount := s.lostCount + 1), [])
  }

  /** Aim straight ahead at d feet, switch the laser on and start the square pattern there; a ValueError counts a lost frame. */
  function Engage(env: Env, t: Sys, f: Frame, d: real): Out {
    match env.aim(d)
    case Err(_) => (t.(lostCount := t.lostCount + 1), [])
    case Ok(deltas) =>
      var aimed := [Send(MoveRelativeXY(deltas.0, deltas.1)), LaserOn];
      match env.pattern(d)
      case Err(_) => (t.(laserActive := true, lostCount := t.lostCount + 1), aimed)
      case Ok(cmds) =>
        (t.(laserActive := true, patternActive := true, lastPatternStart := f.now, lastPatternDistance := Some(d)),
         aimed + SendEach(cmds))
  }

  /** The range check and the restart debounce before engaging at distance d. */
  function Approach(env: Env, t: Sys, f: Frame, d: real): Out {
    if d < MIN_DISTANCE_FT || d > MAX_DISTANCE_FT then (t.(lostCount := t.lostCount + 1), [])
    else if f.now - t.lastPatternStart < PATTERN_RESTART_DEBOUNCE then (t, [])
    else Engage(env, t, f, d)
  }

  /** The rate-limited centring move the tracker asked for. */
  function Centre(t: Sys, f: Frame): Out {
    if f.now - t.lastMotorCmd >= MOTOR_CMD_INTERVAL then
      (t.(lastMotorCmd := f.now), [Send(RelativeZ(f.trackerDelta, Z_FEED))])
    else (t, [])
  }

  /** A qualifying bird while no pattern runs: update the tracker, then centre or approach. */
  function Follow(env: Env, t: Sys, f: Frame): Out {
    if t.patternActive || f.bbox.None? then (t, [])
    else
      var b := f.bbox.value;
      var next := if f.trackerMove then Centre(t, f) else Approach(env, t, f, env.distance(b.3));
      (next.0, [TrackerUpdate((b.0 + b.2) / 2, (b.1 + b.3) / 2, f.confidence)] + next.1)
  }

  /** The TRACK branch. */
  function TrackStep(env: Env, s: Sys, f: Frame): Out {
    if !Qualifies(f) then LoseFrame(s) else Follow(env, s.(lostCount := 0), f)
  }

  /** The SEARCH or the TRACK branch, by mode. */
  function Advance(env: Env, s: Sys, f: Frame): Out {
    if s.mode == Search then SearchStep(s, f) else TrackStep(env, s, f)
  }

  /** The keyboard, then, unless quitting or paused, the branch for the mode. */
  function AfterOverride(env: Env, s: Sys, f: Frame): Out {
    var k := KeyEffect(s, f.key);
    if !k.0.running || k.0.paused then k
    else
      var m := Advance(env, k.0, f);
      (m.0, k.1 + m.1)
  }

  /** One pass of `while state.running`. */
  function Tick(env: Env, s: Sys, f: Frame): Out {
    if !f.present then (s, [])
    else
      var o := Override(s, f);
      var r := AfterOverride(env, o.0, f);
      (r.0, o.1 + r.1)
  }

  /**
   * What holds between passes: the laser is on only in TRACK and not paused, a running
   * pattern means the laser is on, SEARCH has no lost frames, TRACK no confirmations and
   * fewer than LOST_FRAMES_TO_EXIT lost frames, and confirmations stay below the threshold.
   */
  predicate Safe(s: Sys) {
    && (s.laserActive ==> s.mode == Track && !s.paused)
    && (s.patternActive ==> s.laserActive)
    && (s.mode == Search ==> s.lostCount == 0)
    && (s.mode == Track ==> s.confirmCount == 0 && 0 <= s.lostCount < LOST_FRAMES_TO_EXIT)
    && 0 <= s.confirmCount < TRACK_CONFIRM_FRAMES
  }

  lemma SwitchOffClears(s: Sys)
    ensures !SwitchOff(s).0.patternActive && !SwitchOff(s).0.laserActive
    ensures SwitchOff(s).0 == s.(patternActive := false, laserActive := false)
    ensures (Send(GridStop) in SwitchOff(s).1 <==> s.patternActive) && (LaserOff in SwitchOff(s).1 <==> s.laserActive)
    ensures !(LaserOn in SwitchOff(s).1)
  {
  }

  lemma OverrideKeepsSafe(s: Sys, f: Frame)
    requires Safe(s)
    ensures Safe(Override(s, f).0)
  {
  }

  lemma KeyEffectKeepsSafe(s: Sys, key: int)
    requires Safe(s)
    ensures Safe(KeyEffect(s, key).0)
  {
  }

  lemma SearchStepKeepsSafe(s: Sys, f: Frame)
    requires Safe(s) && s.mode == Search
    ensures Safe(SearchStep(s, f).0)
  {
  }

  lemma EngageKeepsSafe(env: Env, t: Sys, f: Frame, d: real)
    requires Safe(t) && t.mode == Track && !t.paused && t.lostCount == 0
    ensures Safe(Engage(env, t, f, d).0) && Engage(env, t, f, d).0.mode == Track
  {
  }

  lemma TrackStepKeepsSafe(env: Env, s: Sys, f: Frame)
    requires Safe(s) && s.mode == Track && !s.paused
    ensures Safe(TrackStep(env, s, f).0)
  {
    var t := s.(lostCount := 0);
    if Qualifies(f) && !t.patternActive && f.bbox.Some? && !f.trackerMove {
      EngageKeepsSafe(env, t, f, env.distance(f.bbox.value.3));
    }
  }

  /** Every pass keeps the safety invariant; in particular the laser is never on outside TRACK or while paused. */
  lemma TickKeepsSafe(env: Env, s: Sys, f: Frame)
    requires Safe(s)
    ensures Safe(Tick(env, s, f).0)
  {
    if f.present {
      var o := Override(s, f);
      OverrideKeepsSafe(s, f);
      var k := KeyEffect(o.0, f.key);
      KeyEffectKeepsSafe(o.0, f.key);
      if k.0.running && !k.0.paused {
        if k.0.mode == Search {
          SearchStepKeepsSafe(k.0, f);
        } else {
          TrackStepKeepsSafe(env, k.0, f);
        }
      }
    }
  }

  lemma InitialSafe()
    ensures Safe(Initial) && Initial.mode == Search && !Initial.laserActive
  {
  }

  /**
   * A person in the frame switches the pattern and the laser off, forces SEARCH and zeroes
   * both counters within the same pass, whatever the prior state and the key pressed.
   */
  lemma PersonOverrides(env: Env, s: Sys, f: Frame)
    requires f.present && Classify(f) == Person
    ensures var r := Tick(env, s, f).0;
      !r.laserActive && !r.patternActive && r.mode == Search && r.confirmCount == 0 && r.lostCount == 0
    ensures s.laserActive ==> LaserOff in Tick(env, s, f).1
    ensures !(LaserOn in Tick(env, s, f).1)
  {
    var o := Override(s, f);
    SwitchOffClears(s);
    assert Quiet(o.0) && !(LaserOn in o.1);
    QuietStaysQuiet(env, o.0, f);
  }

  /** Nothing emitting, in SEARCH, both counters zero. */
  predicate Quiet(s: Sys) {
    !s.laserActive && !s.patternActive && s.mode == Search && s.confirmCount == 0 && s.lostCount == 0
  }

  /** A frame without a qualifying bird leaves a quiet system quiet, whatever the key. */
  lemma QuietStaysQuiet(env: Env, s: Sys, f: Frame)
    requires Quiet(s) && !Qualifies(f)
    ensures Quiet(AfterOverride(env, s, f).0) && !(LaserOn in AfterOverride(env, s, f).1)
  {
    var k := KeyEffect(s, f.key);
    SwitchOffClears(s.(paused := true));
    assert Quiet(k.0) && !(LaserOn in k.1);
    if k.0.running && !k.0.paused {
      SearchStepNoLaserOn(k.0, f);
    }
  }

  /** No key of q, p or r pressed (after masking). */
  predicate NoCommandKey(key: int) { !IsQuit(key) && !IsPause(key) && !IsResume(key) }

  /**
   * In SEARCH a qualifying bird adds one confirmation and any other frame resets the count;
   * TRACK is entered exactly when the count reaches TRACK_CONFIRM_FRAMES, with both counters
   * zero, no pattern distance, M400 sent and both controllers reset.
   */
  lemma SearchConfirms(env: Env, s: Sys, f: Frame)
    requires Safe(s) && s.mode == Search && !s.paused && s.running
    requires f.present && Classify(f) != Person && NoCommandKey(f.key)
    ensures var r := Tick(env, s, f);
      && (r.0.mode == Track <==> Qualifies(f) && s.confirmCount + 1 >= TRACK_CONFIRM_FRAMES)
      && (r.0.mode == Track ==>
            && r.0.confirmCount == 0 && r.0.lostCount == 0 && r.0.lastPatternDistance.None? && r.0.targetBird
            && |r.1| >= 3 && r.1[|r.1| - 3..] == [Send(WaitForMoves), TrackerReset, SearchReset])
      && (r.0.mode == Search && Qualifies(f) ==> r.0.confirmCount == s.confirmCount + 1)
      && (!Qualifies(f) ==> r.0.mode == Search && r.0.confirmCount == 0)
      && !r.0.laserActive && !r.0.patternActive
  {
  }

  /**
   * In TRACK a frame without a qualifying bird adds one lost frame; reaching
   * LOST_FRAMES_TO_EXIT returns to SEARCH with counters zero and pattern and laser off.
   */
  lemma TrackLosesTarget(env: Env, s: Sys, f: Frame)
    requires Safe(s) && s.mode == Track && !s.paused && s.running
    requires f.present && Classify(f) != Person && NoCommandKey(f.key) && !Qualifies(f)
    ensures var r := Tick(env, s, f);
      && (s.lostCount + 1 < LOST_FRAMES_TO_EXIT ==> r.0 == s.(lostCount := s.lostCount + 1) && r.1 == [])
      && (s.lostCount + 1 >= LOST_FRAMES_TO_EXIT ==>
            r.0.mode == Search && r.0.lostCount == 0 && r.0.confirmCount == 0
            && !r.0.laserActive && !r.0.patternActive && !r.0.targetBird && r.0.lastPatternDistance.None?)
  {
  }

  /**
   * A qualifying bird whose distance is out of [MIN_DISTANCE_FT, MAX_DISTANCE_FT] counts a lost
   * frame; since the counter was reset to 0 in the same pass it ends at 1, so out-of-range
   * frames alone never reach LOST_FRAMES_TO_EXIT.
   */
  lemma OutOfRangeCountsOnce(env: Env, s: Sys, f: Frame)
    requires Safe(s) && s.mode == Track && !s.paused && s.running && !s.patternActive
    requires f.present && NoCommandKey(f.key) && Qualifies(f) && f.bbox.Some? && !f.trackerMove
    requires env.distance(f.bbox.value.3) < MIN_DISTANCE_FT || env.distance(f.bbox.value.3) > MAX_DISTANCE_FT
    ensures Tick(env, s, f).0 == s.(lostCount := 1)
    ensures !(LaserOn in Tick(env, s, f).1)
  {
  }

  /** The laser is switched on in a pass only when the pass runs TRACK's engage step. */
  predicate EngageConditions(env: Env, s: Sys, f: Frame) {
    && f.present && Classify(f) != Person && !IsQuit(f.key) && !IsPause(f.key)
    && s.running && !s.paused && s.mode == Track && !s.patternActive
    && Qualifies(f) && f.bbox.Some? && !f.trackerMove
    && MIN_DISTANCE_FT <= env.distance(f.bbox.value.3) <= MAX_DISTANCE_FT
    && f.now - s.lastPatternStart >= PATTERN_RESTART_DEBOUNCE
  }

  lemma SearchStepNoLaserOn(s: Sys, f: Frame)
    ensures !(LaserOn in SearchStep(s, f).1)
    ensures !SearchStep(s, f).0.laserActive
  {
    SwitchOffClears(s);
  }

  /**
   * A pass commands the laser on only if the distance is in range, no pattern runs, the
   * tracker wants no centring move and the restart debounce has passed.
   */
  lemma LaserOnOnlyWhenReady(env: Env, s: Sys, f: Frame)
    requires Safe(s)
    requires LaserOn in Tick(env, s, f).1
    ensures EngageConditions(env, s, f)
  {
    if f.present {
      var o := Override(s, f);
      var k := KeyEffect(o.0, f.key);
      SwitchOffClears(s);
      SwitchOffClears(o.0.(paused := true));
      assert !(LaserOn in o.1) && !(LaserOn in k.1);
      if k.0.running && !k.0.paused && k.0.mode == Search {
        SearchStepNoLaserOn(k.0, f);
        assert false;
      }
    }
  }

  /**
   * Conversely, when those conditions hold the pass aims, switches the laser on and starts
   * the pattern at that distance (a distance of at least MIN_DISTANCE_FT is in front of the laser).
   */
  lemma ReadyEngages(lib: Maths, roll: real, data: seq<DistanceFromJson.CalPoint>, s: Sys, f: Frame)
    requires |data| >= 2
    requires Safe(s) && EngageConditions(Wiring(lib, roll, data), s, f)
    ensures var r := Tick(Wiring(lib, roll, data), s, f);
      && LaserOn in r.1 && r.0.laserActive && r.0.patternActive && r.0.mode == Track
      && r.0.lastPatternStart == f.now && r.0.lastPatternDistance == Some(DistanceModel.DistanceAt(data, f.bbox.value.3 as real))
  {
    var env := Wiring(lib, roll, data);
    var d := env.distance(f.bbox.value.3);
    assert env.aim(d).Ok? && env.pattern(d).Ok?;
  }

  /**
   * 'p' pauses only a running system: pattern and laser off, nothing else changes, and the
   * SEARCH/TRACK logic is skipped; while paused, a pass without 'r' or 'q' changes nothing.
   */
  lemma PauseStopsAndSkips(env: Env, s: Sys, f: Frame)
    requires f.present && Classify(f) != Person
    ensures IsPause(f.key) && !s.paused ==>
      Tick(env, s, f).0 == s.(paused := true, patternActive := false, laserActive := false)
    ensures s.paused && !IsResume(f.key) && !IsQuit(f.key) ==> Tick(env, s, f) == (s, [])
  {
    var none: seq<Action> := [];
    assert none + none == none;
  }

  /** 'r' acts only when paused: it resumes in SEARCH with both counters zero. */
  lemma ResumeOnlyWhenPaused(s: Sys, key: int)
    requires IsResume(key)
    ensures s.paused ==> KeyEffect(s, key).0 == s.(paused := false, mode := Search, confirmCount := 0, lostCount := 0)
    ensures !s.paused ==> KeyEffect(s, key) == (s, [])
  {
  }

  /** 'q' ends the loop in the same pass, after the person override only. */
  lemma QuitStops(env: Env, s: Sys, f: Frame)
    requires f.present && IsQuit(f.key)
    ensures !Tick(env, s, f).0.running
    ensures Tick(env, s, f) == (Override(s, f).0.(running := false), Override(s, f).1)
  {
    assert Override(s, f).1 + [] == Override(s, f).1;
  }

  /**
   * The clean-up in `finally`, for the subsystems that were created: the pattern is stopped
   * only if it is active, the laser is always switched off when its controller exists, then
   * the camera is stopped and the link closed.
   */
  function Teardown(patternActive: bool, haveLink: bool, haveLaser: bool, haveCamera: bool): (r: seq<Action>)
    ensures (Send(GridStop) in r <==> haveLink && patternActive) && (LaserOff in r <==> haveLaser)
    ensures (CameraStop in r <==> haveCamera) && (CloseLink in r <==> haveLink)
    ensures haveLink ==> r[|r| - 1] == CloseLink
    ensures haveLink && haveCamera ==> r[|r| - 2] == CameraStop
    ensures haveLaser ==> r[0] == LaserOff || (r[0] == Send(GridStop) && r[1] == LaserOff)
  {
    (if haveLink && patternActive then [Send(GridStop)] else [])
      + (if haveLaser then [LaserOff] else [])
      + (if haveCamera then [CameraStop] else [])
      + (if haveLink then [CloseLink] else [])
  }

  /**
   * `while state.running` over a finite run of camera passes: the state and the calls after
   * the passes made before running went false (later frames are never read).
   */
  function Session(env: Env, s: Sys, frames: seq<Frame>): Out
    decreases |frames|
  {
    if frames == [] then (s, [])
    else
      var before := Session(env, s, frames[..|frames| - 1]);
      if !before.0.running then before
      else
        var t := Tick(env, before.0, frames[|frames| - 1]);
        (t.0, before.1 + t.1)
  }

  /** The safety invariant holds after every pass of a session started in a safe state. */
  lemma {:induction false} SessionKeepsSafe(env: Env, s: Sys, frames: seq<Frame>)
    requires Safe(s)
    ensures Safe(Session(env, s, frames).0)
    decreases |frames|
  {
    if frames != [] {
      SessionKeepsSafe(env, s, frames[..|frames| - 1]);
      var before := Session(env, s, frames[..|frames| - 1]);
      if before.0.running {
        TickKeepsSafe(env, before.0, frames[|frames| - 1]);
      }
    }
  }

  /** Once a pass has cleared running, the frames after it change nothing. */
  lemma {:induction false} StoppedStaysStopped(env: Env, s: Sys, frames: seq<Frame>, n: nat)
    requires n <= |frames| && !Session(env, s, frames[..n]).0.running
    ensures Session(env, s, frames) == Session(env, s, frames[..n])
    decreases |frames|
  {
    if n < |frames| {
      var init := frames[..|frames| - 1];
      assert init[..n] == frames[..n];
      StoppedStaysStopped(env, s, init, n);
    } else {
      assert frames[..n] == frames;
    }
  }

  lemma AppendAssoc(a: seq<Action>, b: seq<Action>, c: seq<Action>)
    ensures a + b + c == a + (b + c)
  {
  }

  /** The SystemState object and main()'s log of calls. */
  class SystemState {
    var mode: Mode
    var running: bool
    var paused: bool
    var trackConfirmCount: int
    var lostFrameCount: int
    var targetBird: bool
    var patternActive: bool
    var laserActive: bool
    var lastPatternStartTime: real
    var lastPatternDistance: Option<real>
    /** main()'s last_motor_cmd_time, shared by the search and centring moves. */
    var lastMotorCmdTime: real
    var log: seq<Action>

    function Snapshot(): Sys
      reads this
    {
      Sys(mode, running, paused, trackConfirmCount, lostFrameCount, targetBird, patternActive,
          laserActive, lastPatternStartTime, lastPatternDistance, lastMotorCmdTime)
    }

    constructor ()
      ensures Snapshot() == Initial && log == []
    {
      mode := Search;
      running := true;
      paused := false;
      trackConfirmCount := 0;
      lostFrameCount := 0;
      targetBird := false;
      patternActive := false;
      laserActive := false;
      lastPatternStartTime := 0.0;
      lastPatternDistance := None;
      lastMotorCmdTime := 0.0;
      log := [];
    }

    method StopPatternAndLaser()
      modifies this
      ensures Snapshot() == SwitchOff(old(Snapshot())).0 && log == old(log) + SwitchOff(old(Snapshot())).1
    {
      ghost var log0 := log;
      ghost var stopped: seq<Action> := if patternActive then [Send(GridStop)] else [];
      ghost var off: seq<Action> := if laserActive then [LaserOff] else [];
      if patternActive {
        log := log + [Send(GridStop)];
        patternActive := false;
      }
      if laserActive {
        log := log + [LaserOff];
        laserActive := false;
      }
      AppendAssoc(log0, stopped, off);
    }

    method HandlePerson(f: Frame)
      modifies this
      ensures Snapshot() == Override(old(Snapshot()), f).0 && log == old(log) + Override(old(Snapshot()), f).1
    {
      if Classify(f) == Person {
        StopPatternAndLaser();
        if mode == Track {
          mode, targetBird, lastPatternDistance := Search, false, None;
        }
        trackConfirmCount, lostFrameCount := 0, 0;
      }
    }

    method HandleKey(key: int)
      modifies this
      ensures Snapshot() == KeyEffect(old(Snapshot()), key).0 && log == old(log) + KeyEffect(old(Snapshot()), key).1
    {
      if IsQuit(key) {
        running := false;
      } else if IsPause(key) {
        if !paused {
          paused := true;
          StopPatternAndLaser();
        }
      } else if IsResume(key) {
        if paused {
          paused, mode, trackConfirmCount, lostFrameCount := false, Search, 0, 0;
        }
      }
    }

    method MoveSearch(f: Frame)
      modifies this
      ensures Snapshot() == SearchMotion(old(Snapshot()), f).0 && log == old(log) + SearchMotion(old(Snapshot()), f).1
    {
      if f.now - lastMotorCmdTime >= MOTOR_CMD_INTERVAL {
        ghost var log0 := log;
        log := log + [SearchUpdate];
        if Abs(f.searchDelta) > Z_DEADBAND {
          log := log + [Send(RelativeZ(f.searchDelta, Z_FEED))];
          lastMotorCmdTime := f.now;
          AppendAssoc(log0, [SearchUpdate], [Send(RelativeZ(f.searchDelta, Z_FEED))]);
        }
      }
    }

    method CountConfirmation(f: Frame)
      modifies this
      ensures Snapshot() == Confirm(old(Snapshot()), f).0 && log == old(log) + Confirm(old(Snapshot()), f).1
    {
      if Qualifies(f) {
        trackConfirmCount := trackConfirmCount + 1;
        if trackConfirmCount >= TRACK_CONFIRM_FRAMES {
          AppendAssoc(log, [Send(WaitForMoves)], [TrackerReset, SearchReset]);
          log := log + [Send(WaitForMoves)];
          mode, trackConfirmCount, lostFrameCount, targetBird, lastPatternDistance := Track, 0, 0, true, None;
          log := log + [TrackerReset, SearchReset];
        }
      } else {
        trackConfirmCount := 0;
      }
    }

    method RunSearch(f: Frame)
      modifies this
      ensures Snapshot() == SearchStep(old(Snapshot()), f).0 && log == old(log) + SearchStep(old(Snapshot()), f).1
    {
      ghost var log0 := log;
      ghost var off := SwitchOff(Snapshot());
      StopPatternAndLaser();
      ghost var moved := SearchMotion(Snapshot(), f);
      MoveSearch(f);
      ghost var confirmed := Confirm(Snapshot(), f);
      CountConfirmation(f);
      AppendAssoc(log0, off.1, moved.1);
      AppendAssoc(log0, off.1 + moved.1, confirmed.1);
    }

    method LoseTarget()
      modifies this
      ensures Snapshot() == LoseFrame(old(Snapshot())).0 && log == old(log) + LoseFrame(old(Snapshot())).1
    {
      lostFrameCount := lostFrameCount + 1;
      if lostFrameCount >= LOST_FRAMES_TO_EXIT {
        mode, lostFrameCount, trackConfirmCount, targetBird, lastPatternDistance := Search, 0, 0, false, None;
        StopPatternAndLaser();
      }
    }

    method RunEngage(env: Env, f: Frame, d: real)
      modifies this
      ensures Snapshot() == Engage(env, old(Snapshot()), f, d).0
      ensures log == old(log) + Engage(env, old(Snapshot()), f, d).1
    {
      var deltas := env.aim(d);
      if deltas.Err? {
        lostFrameCount := lostFrameCount + 1;
      } else {
        ghost var log0 := log;
        log := log + [Send(MoveRelativeXY(deltas.value.0, deltas.value.1)), LaserOn];
        laserActive := true;
        var started := env.pattern(d);
        if started.Err? {
          lostFrameCount := lostFrameCount + 1;
        } else {
          log := log + SendEach(started.value);
          AppendAssoc(log0, [Send(MoveRelativeXY(deltas.value.0, deltas.value.1)), LaserOn], SendEach(started.value));
          patternActive, lastPatternStartTime, lastPatternDistance := true, f.now, Some(d);
        }
      }
    }

    method RunApproach(env: Env, f: Frame, d: real)
      modifies this
      ensures Snapshot() == Approach(env, old(Snapshot()), f, d).0
      ensures log == old(log) + Approach(env, old(Snapshot()), f, d).1
    {
      if d < MIN_DISTANCE_FT || d > MAX_DISTANCE_FT {
        lostFrameCount := lostFrameCount + 1;
      } else if f.now - lastPatternStartTime >= PATTERN_RESTART_DEBOUNCE {
        RunEngage(env, f, d);
      }
    }

    method CentreBird(f: Frame)
      modifies this
      ensures Snapshot() == Centre(old(Snapshot()), f).0 && log == old(log) + Centre(old(Snapshot()), f).1
    {
      if f.now - lastMotorCmdTime >= MOTOR_CMD_INTERVAL {
        log := log + [Send(RelativeZ(f.trackerDelta, Z_FEED))];
        lastMotorCmdTime := f.now;
      }
    }

    method FollowBird(env: Env, f: Frame)
      modifies this
      ensures Snapshot() == Follow(env, old(Snapshot()), f).0
      ensures log == old(log) + Follow(env, old(Snapshot()), f).1
    {
      if !patternActive && f.bbox.Some? {
        var (x1, y1, x2, y2) := f.bbox.value;
        ghost var log0 := log;
        var update := [TrackerUpdate((x1 + x2) / 2, (y1 + y2) / 2, f.confidence)];
        log := log + update;
        ghost var next := if f.trackerMove then Centre(Snapshot(), f) else Approach(env, Snapshot(), f, env.distance(y2));
        if f.trackerMove {
          CentreBird(f);
        } else {
          RunApproach(env, f, env.distance(y2));
        }
        AppendAssoc(log0, update, next.1);
      }
    }

    method RunTrack(env: Env, f: Frame)
      modifies this
      ensures Snapshot() == TrackStep(env, old(Snapshot()), f).0
      ensures log == old(log) + TrackStep(env, old(Snapshot()), f).1
    {
      if !Qualifies(f) {
        LoseTarget();
      } else {
        lostFrameCount := 0;
        FollowBird(env, f);
      }
    }

    /** One pass of `while state.running`. */
    method Iterate(env: Env, f: Frame)
      modifies this
      ensures Snapshot() == Tick(env, old(Snapshot()), f).0
      ensures log == old(log) + Tick(env, old(Snapshot()), f).1
    {
      if !f.present {
        return;
      }
      ghost var log0 := log;
      ghost var o := Override(Snapshot(), f);
      HandlePerson(f);
      ghost var r := AfterOverride(env, o.0, f);
      HandleFrame(env, f);
      AppendAssoc(log0, o.1, r.1);
    }

    method HandleFrame(env: Env, f: Frame)
      modifies this
      ensures Snapshot() == AfterOverride(env, old(Snapshot()), f).0
      ensures log == old(log) + AfterOverride(env, old(Snapshot()), f).1
    {
      ghost var log0 := log;
      ghost var k := KeyEffect(Snapshot(), f.key);
      HandleKey(f.key);
      if !running || paused {
        return;
      }
      ghost var m := Advance(env, k.0, f);
      RunMode(env, f);
      AppendAssoc(log0, k.1, m.1);
    }

    method RunMode(env: Env, f: Frame)
      modifies this
      ensures Snapshot() == Advance(env, old(Snapshot()), f).0
      ensures log == old(log) + Advance(env, old(Snapshot()), f).1
    {
      if mode == Search {
        RunSearch(f);
      } else {
        RunTrack(env, f);
      }
    }

    /** The `while state.running` loop over the frames the camera delivers. */
    method RunFrames(env: Env, frames: seq<Frame>)
      modifies this
      ensures Snapshot() == Session(env, old(Snapshot()), frames).0
      ensures log == old(log) + Session(env, old(Snapshot()), frames).1
    {
      ghost var s0 := Snapshot();
      ghost var log0 := log;
      var i := 0;
      while i < |frames| && running
        invariant 0 <= i <= |frames|
        invariant Snapshot() == Session(env, s0, frames[..i]).0
        invariant log == log0 + Session(env, s0, frames[..i]).1
      {
        assert frames[..i + 1][..i] == frames[..i];
        ghost var before := Session(env, s0, frames[..i]);
        ghost var t := Tick(env, before.0, frames[i]);
        Iterate(env, frames[i]);
        AppendAssoc(log0, before.1, t.1);
        i := i + 1;
      }
      if i < |frames| {
        StoppedStaysStopped(env, s0, frames, i);
      } else {
        assert frames[..i] == frames;
      }
    }
  }

  /**
   * main() from the laser's initialisation on: the laser is switched off, the loop runs over
   * the frames, and the clean-up runs with every subsystem created.
   */
  method SystemRun(lib: Maths, roll: real, data: seq<DistanceFromJson.CalPoint>, frames: seq<Frame>) returns (log: seq<Action>)
    requires |data| >= 2
    ensures var run := Session(Wiring(lib, roll, data), Initial, frames);
      log == [LaserOff] + run.1 + Teardown(run.0.patternActive, true, true, true)
  {
    var env := Wiring(lib, roll, data);
    var state := new SystemState();
    state.RunFrames(env, frames);
    log := [LaserOff] + state.log + Teardown(state.patternActive, true, true, true);
  }
}
