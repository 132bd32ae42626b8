/** The step-based bouncing search sweep of Behavior/Search_v2.py. */
module SearchV2 {
  datatype SearchConfig = SearchConfig(minZ: real, maxZ: real, startZ: real, stepSize: real, initialDirection: int)

  const DEFAULT_CONFIG: SearchConfig := SearchConfig(0.0, 20.0, 10.0, 1.0, 1)

  datatype SearchState = SearchState(currentZ: real, direction: int)

  /** The dict update() returns. */
  datatype SearchStep = SearchStep(zDelta: real, zAbsolute: real)

  function InitialState(cfg: SearchConfig): SearchState {
    SearchState(cfg.startZ, cfg.initialDirection)
  }

  /** One update(): a step in the current direction, clamped and turned back at either bound. */
  function UpdateStep(cfg: SearchConfig, s: SearchState): (SearchState, SearchStep) {
    var delta := cfg.stepSize * (s.direction as real);
    var next := s.currentZ + delta;
    if next >= cfg.maxZ then (SearchState(cfg.maxZ, -1), SearchStep(cfg.maxZ - s.currentZ, cfg.maxZ))
    else if next <= cfg.minZ then (SearchState(cfg.minZ, 1), SearchStep(cfg.minZ - s.currentZ, cfg.minZ))
    else (SearchState(next, s.direction), SearchStep(delta, next))
  }

  predicate InBounds(cfg: SearchConfig, s: SearchState) {
    cfg.minZ <= s.currentZ <= cfg.maxZ
  }

  /** A position within [min_z, max_z] stays within it. */
  lemma UpdateKeepsBounds(cfg: SearchConfig, s: SearchState)
    requires InBounds(cfg, s)
    ensures InBounds(cfg, UpdateStep(cfg, s).0)
  {
  }

  /** The reported delta is the position change, and the reported absolute position is the new position. */
  lemma UpdateReportsMove(cfg: SearchConfig, s: SearchState)
    ensures var (s', step) := UpdateStep(cfg, s);
      step.zDelta == s'.currentZ - s.currentZ && step.zAbsolute == s'.currentZ
  {
  }

  /** Reaching max_z clamps there and turns downward; reaching min_z clamps there and turns upward. */
  lemma UpdateBounces(cfg: SearchConfig, s: SearchState)
    ensures var next := s.currentZ + cfg.stepSize * (s.direction as real);
      && (next >= cfg.maxZ ==> UpdateStep(cfg, s).0 == SearchState(cfg.maxZ, -1))
      && (next < cfg.maxZ && next <= cfg.minZ ==> UpdateStep(cfg, s).0 == SearchState(cfg.minZ, 1))
  {
  }

  /** Strictly inside the bounds the sweep moves by step_size in the current direction and keeps it. */
  lemma UpdateInterior(cfg: SearchConfig, s: SearchState)
    requires cfg.minZ < s.currentZ + cfg.stepSize * (s.direction as real) < cfg.maxZ
    ensures UpdateStep(cfg, s).1.zDelta == cfg.stepSize * (s.direction as real)
    ensures UpdateStep(cfg, s).0.direction == s.direction
  {
  }

  /** Starting in bounds with direction +1 or -1, no step is longer than step_size. */
  lemma UpdateStepBounded(cfg: SearchConfig, s: SearchState)
    requires InBounds(cfg, s) && cfg.stepSize >= 0.0 && (s.direction == 1 || s.direction == -1)
    ensures -cfg.stepSize <= UpdateStep(cfg, s).1.zDelta <= cfg.stepSize
  {
  }

  class SearchController {
    const cfg: SearchConfig
    var currentZ: real
    var direction: int

    function Snapshot(): SearchState
      reads this
    {
      SearchState(currentZ, direction)
    }

    constructor (config: SearchConfig)
      ensures cfg == config && Snapshot() == InitialState(config)
    {
      cfg := config;
      currentZ := config.startZ;
      direction := config.initialDirection;
    }

    /** reset(): back to start_z and the initial direction. */
    method Reset()
      modifies this
      ensures Snapshot() == InitialState(cfg)
    {
      currentZ := cfg.startZ;
      direction := cfg.initialDirection;
    }

    method Update() returns (step: SearchStep)
      modifies this
      ensures (Snapshot(), step) == UpdateStep(cfg, old(Snapshot()))
    {
      var delta := cfg.stepSize * (direction as real);
      var next := currentZ + delta;
      if next >= cfg.maxZ {
        next := cfg.maxZ;
        delta := next - currentZ;
        direction := -1;
      } else if next <= cfg.minZ {
        next := cfg.minZ;
        delta := next - currentZ;
        direction := 1;
      }
      currentZ := next;
      step := SearchStep(delta, next);
    }
  }
}
