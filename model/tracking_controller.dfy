/** The proportional Z tracker with deadzone and clamp of Behavior/TrackingController.py. */
module TrackingController {
  import opened Wrappers

  datatype TrackingConfig = TrackingConfig(
    frameWidth: int, frameHeight: int, deadzonePx: int,
    kp: real, maxStepMm: real, minStepMm: real, confidenceThreshold: real)

  const DEFAULT_CONFIG: TrackingConfig := TrackingConfig(640, 480, 30, 0.003, 3.0, 0.05, 0.7)

  const TARGET_LOST_THRESHOLD: int := 5

  /** The dict update() returns. */
  datatype TrackResult = TrackResult(shouldMove: bool, zDelta: real, errorPx: real, targetLocked: bool)

  /** frame_width // 2 (Dafny's division agrees with Python's floor division for the divisor 2). */
  function CenterX(cfg: TrackingConfig): int {
    cfg.frameWidth / 2
  }

  function Abs(a: real): real { if a >= 0.0 then a else -a }

  /** kp * error clamped to [-max_step_mm, max_step_mm]. */
  function ClampedStep(cfg: TrackingConfig, errorPx: real): real {
    var z := cfg.kp * errorPx;
    var upper := if cfg.maxStepMm <= z then cfg.maxStepMm else z;
    if -cfg.maxStepMm >= upper then -cfg.maxStepMm else upper
  }

  /** The decision of update() for a detection centre and confidence. */
  function Decide(cfg: TrackingConfig, center: Option<(int, int)>, confidence: real): TrackResult {
    if center.None? || confidence < cfg.confidenceThreshold then TrackResult(false, 0.0, 0.0, false)
    else
      var errorPx := (center.value.0 - CenterX(cfg)) as real;
      if Abs(errorPx) < cfg.deadzonePx as real then TrackResult(false, 0.0, errorPx, true)
      else
        var z := ClampedStep(cfg, errorPx);
        if Abs(z) < cfg.minStepMm then TrackResult(false, 0.0, errorPx, true)
        else TrackResult(true, z, errorPx, true)
  }

  /** update(): the new count of frames without a target, and the decision. */
  function UpdateStep(cfg: TrackingConfig, framesWithoutTarget: int, center: Option<(int, int)>, confidence: real): (int, TrackResult) {
    var r := Decide(cfg, center, confidence);
    if center.None? || confidence < cfg.confidenceThreshold then (framesWithoutTarget + 1, r) else (0, r)
  }

  /** No detection, or one below the confidence threshold: no move, not locked, one more frame without target. */
  lemma NoTargetNoMove(cfg: TrackingConfig, n: int, center: Option<(int, int)>, confidence: real)
    requires center.None? || confidence < cfg.confidenceThreshold
    ensures UpdateStep(cfg, n, center, confidence) == (n + 1, TrackResult(false, 0.0, 0.0, false))
  {
  }

  /** A valid detection resets the counter, reports error cx - frame_width // 2, and is locked. */
  lemma ValidTargetResetsCounter(cfg: TrackingConfig, n: int, cx: int, cy: int, confidence: real)
    requires confidence >= cfg.confidenceThreshold
    ensures var (n', r) := UpdateStep(cfg, n, Some((cx, cy)), confidence);
      n' == 0 && r.targetLocked && r.errorPx == (cx - cfg.frameWidth / 2) as real
  {
  }

  /** Inside the deadzone the tracker holds still. */
  lemma DeadzoneHolds(cfg: TrackingConfig, cx: int, cy: int, confidence: real)
    requires confidence >= cfg.confidenceThreshold
    requires Abs((cx - CenterX(cfg)) as real) < cfg.deadzonePx as real
    ensures !Decide(cfg, Some((cx, cy)), confidence).shouldMove
    ensures Decide(cfg, Some((cx, cy)), confidence).zDelta == 0.0
  {
  }

  /** No step is longer than max_step_mm. */
  lemma StepBounded(cfg: TrackingConfig, center: Option<(int, int)>, confidence: real)
    requires cfg.maxStepMm >= 0.0
    ensures Abs(Decide(cfg, center, confidence).zDelta) <= cfg.maxStepMm
  {
  }

  /** A move is at least min_step_mm long and, for a positive gain, points toward the target. */
  lemma MoveTowardTarget(cfg: TrackingConfig, center: Option<(int, int)>, confidence: real)
    requires cfg.kp > 0.0 && cfg.maxStepMm > 0.0
    requires Decide(cfg, center, confidence).shouldMove
    ensures var r := Decide(cfg, center, confidence);
      Abs(r.zDelta) >= cfg.minStepMm && (r.zDelta > 0.0 <==> r.errorPx > 0.0) && (r.zDelta < 0.0 <==> r.errorPx < 0.0)
  {
    var r := Decide(cfg, center, confidence);
    var e := r.errorPx;
    if e > 0.0 { assert cfg.kp * e > 0.0; } else if e < 0.0 { assert cfg.kp * e < 0.0; }
  }

  class TrackingController {
    const cfg: TrackingConfig
    var framesWithoutTarget: int

    constructor (config: TrackingConfig)
      ensures cfg == config && framesWithoutTarget == 0
    {
      cfg := config;
      framesWithoutTarget := 0;
    }

    method Reset()
      modifies this
      ensures framesWithoutTarget == 0
    {
      framesWithoutTarget := 0;
    }

    method Update(center: Option<(int, int)>, confidence: real) returns (r: TrackResult)
      modifies this
      ensures (framesWithoutTarget, r) == UpdateStep(cfg, old(framesWithoutTarget), center, confidence)
    {
      if center.None? || confidence < cfg.confidenceThreshold {
        framesWithoutTarget := framesWithoutTarget + 1;
        return TrackResult(false, 0.0, 0.0, false);
      }
      framesWithoutTarget := 0;
      var errorPx := (center.value.0 - CenterX(cfg)) as real;
      if Abs(errorPx) < cfg.deadzonePx as real {
        return TrackResult(false, 0.0, errorPx, true);
      }
      var z := ClampedStep(cfg, errorPx);
      if Abs(z) < cfg.minStepMm {
        return TrackResult(false, 0.0, errorPx, true);
      }
      r := TrackResult(true, z, errorPx, true);
    }

    /** is_target_lost(): at least five consecutive frames without a valid target. */
    predicate IsTargetLost()
      reads this
    {
      framesWithoutTarget >= TARGET_LOST_THRESHOLD
    }
  }

  /** The lost test holds after five consecutive misses from a reset, and never right after a valid detection. */
  lemma LostAfterFiveMisses(cfg: TrackingConfig, center: Option<(int, int)>, confidence: real)
    ensures var n1 := UpdateStep(cfg, 0, None, 0.0).0;
      var n5 := UpdateStep(cfg, UpdateStep(cfg, UpdateStep(cfg, UpdateStep(cfg, n1, None, 0.0).0, None, 0.0).0, None, 0.0).0, None, 0.0).0;
      n5 >= TARGET_LOST_THRESHOLD && n1 < TARGET_LOST_THRESHOLD
    ensures confidence >= cfg.confidenceThreshold && center.Some? ==> UpdateStep(cfg, 7, center, confidence).0 < TARGET_LOST_THRESHOLD
  {
  }
}
