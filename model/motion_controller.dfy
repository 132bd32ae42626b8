/**
 * The fixed-rate streaming motion controller (Motion/MotionController.py). Behaviour
 * modules set an intent per axis; `Update` turns it into at most one relative Z move
 * and one absolute X/Y move per send period, clamped to the configured limits. The
 * Moonraker client is the `sent` command record; the clock is the `now` argument.
 */
module MotionController {
  import opened Wrappers
  import opened Commands

  /** Per-axis values; None where the source's dict holds None. */
  datatype Axes = Axes(x: Option<real>, y: Option<real>, z: Option<real>)

  /** One axis's (lo, hi) from the "limits" config; each bound may be absent. */
  datatype Limits = Limits(lo: Option<real>, hi: Option<real>)

  /** The constructor's reading of the config dict, with its defaults applied. */
  datatype Config = Config(
    xLimits: Limits, yLimits: Limits, zLimits: Limits,
    neutral: Axes,
    travelSpeed: Option<real>,  // speeds["travel"]; the default differs per use (800 or 2000)
    zSpeed: Option<real>,       // speeds["z"]; default 200
    sendPeriod: real,           // 1 / send_rate_hz
    zDegToMm: real,
    feedrateMultiplier: real,
    angularVelocity: real)

  const DEADBAND_Z: real := 0.0

  /** The controller's mutable state. */
  datatype State = State(intent: Axes, lastSent: Axes, lastCommandedZ: Option<real>, lastSendTime: real)

  function Max(a: real, b: real): real { if a >= b then a else b }
  function Min(a: real, b: real): real { if a <= b then a else b }
  function Abs(a: real): real { if a >= 0.0 then a else -a }

  /** max with lo, then min with hi, each only when configured. */
  function Clamp(l: Limits, v: real): (c: real)
    ensures l.hi.Some? ==> c <= l.hi.value
    ensures l.lo.Some? && (l.hi.None? || l.lo.value <= l.hi.value) ==> l.lo.value <= c
    ensures (l.lo.None? || l.lo.value <= v) && (l.hi.None? || v <= l.hi.value) ==> c == v
  {
    var a := if l.lo.Some? then Max(l.lo.value, v) else v;
    if l.hi.Some? then Min(l.hi.value, a) else a
  }

  function Feedrate(cfg: Config): real {
    cfg.angularVelocity * cfg.zDegToMm * 60.0 * cfg.feedrateMultiplier
  }

  /** The X or Y value to send: the clamped intent, when there is one that differs from the last value sent. */
  function AxisMove(l: Limits, intent: Option<real>, prev: Option<real>): Option<real> {
    if intent.Some? && (prev.None? || intent.value != prev.value) then Some(Clamp(l, intent.value)) else None
  }

  /** The Z delta to send (None inside the deadband) and the clamped Z target. */
  function ZMove(cfg: Config, s: State): (Option<real>, Option<real>) {
    match s.intent.z
    case None => (None, None)
    case Some(target) =>
      var clamped := Clamp(cfg.zLimits, target);
      var delta := if s.lastCommandedZ.None? then 0.0 else clamped - s.lastCommandedZ.value;
      (if Abs(delta) <= DEADBAND_Z then None else Some(delta), Some(clamped))
  }

  /** One call of update(): the new state and the commands sent, in order. */
  function UpdateStep(cfg: Config, s: State, now: real): (State, seq<Command>) {
    if now - s.lastSendTime < cfg.sendPeriod then (s, [])
    else
      var (deltaZ, clampedZ) := ZMove(cfg, s);
      var xMove := AxisMove(cfg.xLimits, s.intent.x, s.lastSent.x);
      var yMove := AxisMove(cfg.yLimits, s.intent.y, s.lastSent.y);
      var hasZ := deltaZ.Some? && deltaZ.value != 0.0;
      var hasXY := xMove.Some? || yMove.Some?;
      var f := Feedrate(cfg);
      if !hasZ && !hasXY then (s, [])
      else if !hasXY then
        (s.(lastSendTime := now, lastCommandedZ := clampedZ, lastSent := s.lastSent.(z := clampedZ)), [MoveZ(deltaZ.value, f)])
      else
        var zCmds := if hasZ then [MoveZ(deltaZ.value, f)] else [];
        var lastZ := if hasZ then clampedZ else s.lastCommandedZ;
        var sentZ := if hasZ then clampedZ else s.lastSent.z;
        var travel := Max(f, if cfg.travelSpeed.Some? then cfg.travelSpeed.value else 800.0);
        var sent' := Axes(if xMove.Some? then xMove else s.lastSent.x, if yMove.Some? then yMove else s.lastSent.y, sentZ);
        (s.(lastSendTime := now, lastCommandedZ := lastZ, lastSent := sent'), zCmds + [MoveXY(xMove, yMove, travel)])
  }

  /** A Z angle in degrees as a Z position in mm. */
  function AngleToZ(cfg: Config, angle: real): real { angle * cfg.zDegToMm }

  /** set_intent: each given axis takes its value; an angle overrides z with angle * mm per degree. */
  function SetIntentStep(cfg: Config, intent: Axes, x: Option<real>, y: Option<real>, z: Option<real>, angle: Option<real>): Axes {
    var zi := if z.Some? then z else intent.z;
    Axes(if x.Some? then x else intent.x, if y.Some? then y else intent.y,
         if angle.Some? then Some(AngleToZ(cfg, angle.value)) else zi)
  }

  /** move_blocking's clamped targets: each set axis clamped into its limits. */
  function BlockingTargets(cfg: Config, intent: Axes): Axes {
    Axes(if intent.x.Some? then Some(Clamp(cfg.xLimits, intent.x.value)) else None,
         if intent.y.Some? then Some(Clamp(cfg.yLimits, intent.y.value)) else None,
         if intent.z.Some? then Some(Clamp(cfg.zLimits, intent.z.value)) else None)
  }

  /** move_blocking: one G90 absolute move with every set axis clamped; Z bookkeeping starts from it. */
  function MoveBlockingStep(cfg: Config, s: State, now: real): (State, seq<Command>) {
    var t := BlockingTargets(cfg, s.intent);
    var sent' := Axes(if t.x.Some? then t.x else s.lastSent.x, if t.y.Some? then t.y else s.lastSent.y,
                      if t.z.Some? then t.z else s.lastSent.z);
    if t.x.None? && t.y.None? && t.z.None? then (s, [])
    else
      var f := if cfg.travelSpeed.Some? then cfg.travelSpeed.value else 2000.0;
      (s.(lastSent := sent', lastSendTime := now, lastCommandedZ := if t.z.Some? then t.z else s.lastCommandedZ),
       [AbsoluteRapid(t.x, t.y, t.z, f)])
  }

  /** move_z_relative_blocking: the waiting relative Z move; a known Z is advanced by the delta and clamped. */
  function MoveZRelativeStep(cfg: Config, s: State, dz: real): (State, seq<Command>) {
    var f := if cfg.zSpeed.Some? then cfg.zSpeed.value else 200.0;
    var s' := if s.lastCommandedZ.None? then s
              else
                var z := Clamp(cfg.zLimits, s.lastCommandedZ.value + dz);
                s.(lastCommandedZ := Some(z), lastSent := s.lastSent.(z := Some(z)));
    (s', [RelativeZAndWait(dz, f)])
  }

  // ---- Properties of the specification ----

  /** Before the send period has elapsed, update changes nothing and sends nothing. */
  lemma RateLimited(cfg: Config, s: State, now: real)
    requires now - s.lastSendTime < cfg.sendPeriod
    ensures UpdateStep(cfg, s, now) == (s, [])
  {
  }

  /** Every X or Y value sent lies within the configured limits. */
  lemma SentXYWithinLimits(cfg: Config, s: State, now: real)
    ensures forall c :: c in UpdateStep(cfg, s, now).1 && c.MoveXY? ==>
      && (c.x.Some? && cfg.xLimits.hi.Some? ==> c.x.value <= cfg.xLimits.hi.value)
      && (c.x.Some? && cfg.xLimits.lo.Some? && (cfg.xLimits.hi.None? || cfg.xLimits.lo.value <= cfg.xLimits.hi.value) ==> cfg.xLimits.lo.value <= c.x.value)
      && (c.y.Some? && cfg.yLimits.hi.Some? ==> c.y.value <= cfg.yLimits.hi.value)
      && (c.y.Some? && cfg.yLimits.lo.Some? && (cfg.yLimits.hi.None? || cfg.yLimits.lo.value <= cfg.yLimits.hi.value) ==> cfg.yLimits.lo.value <= c.y.value)
  {
  }

  /** An X intent above the upper limit is compared with the clamped value last sent, so it is sent again on every eligible tick. */
  lemma OutOfRangeXResent(cfg: Config, s: State, now: real)
    requires now - s.lastSendTime >= cfg.sendPeriod
    requires cfg.xLimits.hi.Some? && s.intent.x.Some? && s.intent.x.value > cfg.xLimits.hi.value
    requires s.lastSent.x == Some(cfg.xLimits.hi.value)
    ensures var (s', cmds) := UpdateStep(cfg, s, now);
      |cmds| >= 1 && cmds[|cmds| - 1].MoveXY? && cmds[|cmds| - 1].x == Some(cfg.xLimits.hi.value)
      && s'.lastSent.x == s.lastSent.x && s'.lastSendTime == now
  {
  }

  /** While no Z position has been commanded yet, update never sends a Z move. */
  lemma NoZMoveBeforeZKnown(cfg: Config, s: State, now: real)
    requires s.lastCommandedZ.None?
    ensures forall c :: c in UpdateStep(cfg, s, now).1 ==> !c.MoveZ?
    ensures UpdateStep(cfg, s, now).0.lastCommandedZ.None?
  {
  }

  /** After a Z move is sent, the last commanded Z and the last sent Z are both the clamped target. */
  lemma ZBookkeepingAfterZMove(cfg: Config, s: State, now: real)
    requires exists c :: c in UpdateStep(cfg, s, now).1 && c.MoveZ?
    ensures s.intent.z.Some?
    ensures UpdateStep(cfg, s, now).0.lastCommandedZ == Some(Clamp(cfg.zLimits, s.intent.z.value))
    ensures UpdateStep(cfg, s, now).0.lastSent.z == Some(Clamp(cfg.zLimits, s.intent.z.value))
  {
  }

  /** An update that sends nothing leaves the whole state, the send time included, as it was. */
  lemma NothingSentNothingChanged(cfg: Config, s: State, now: real)
    requires UpdateStep(cfg, s, now).1 == []
    ensures UpdateStep(cfg, s, now).0 == s
  {
  }

  /** An update sends at most a Z move and an X/Y move, the Z move first. */
  lemma AtMostTwoCommands(cfg: Config, s: State, now: real)
    ensures var cmds := UpdateStep(cfg, s, now).1;
      |cmds| <= 2 && (|cmds| == 2 ==> cmds[0].MoveZ? && cmds[1].MoveXY?)
  {
  }

  /** set_intent changes only the axes it is given; an angle wins over z. */
  lemma SetIntentOnlyGivenAxes(cfg: Config, intent: Axes, x: Option<real>, y: Option<real>, z: Option<real>, angle: Option<real>)
    ensures var i' := SetIntentStep(cfg, intent, x, y, z, angle);
      && (x.None? ==> i'.x == intent.x) && (x.Some? ==> i'.x == x)
      && (y.None? ==> i'.y == intent.y) && (y.Some? ==> i'.y == y)
      && (z.None? && angle.None? ==> i'.z == intent.z)
      && (angle.Some? ==> i'.z == Some(AngleToZ(cfg, angle.value)))
      && (z.Some? && angle.None? ==> i'.z == z)
  {
  }

  /** move_blocking sends one absolute move carrying every set axis clamped, and takes Z as the commanded Z. */
  lemma MoveBlockingSendsClampedTargets(cfg: Config, s: State, now: real)
    requires s.intent.x.Some? || s.intent.y.Some? || s.intent.z.Some?
    ensures var (s', cmds) := MoveBlockingStep(cfg, s, now);
      && |cmds| == 1 && cmds[0].AbsoluteRapid?
      && cmds[0].x == BlockingTargets(cfg, s.intent).x
      && cmds[0].y == BlockingTargets(cfg, s.intent).y
      && cmds[0].z == BlockingTargets(cfg, s.intent).z
      && (s.intent.z.Some? ==> s'.lastCommandedZ == Some(Clamp(cfg.zLimits, s.intent.z.value)))
  {
  }

  /** move_z_relative_blocking sends the delta once, waiting, and a known Z stays the delta-advanced Z within the limits. */
  lemma RelativeZClamped(cfg: Config, s: State, dz: real)
    requires s.lastCommandedZ.Some?
    ensures var (s', cmds) := MoveZRelativeStep(cfg, s, dz);
      && |cmds| == 1 && cmds[0].RelativeZAndWait? && cmds[0].dz == dz
      && s'.lastCommandedZ.Some? && s'.lastSent.z == s'.lastCommandedZ
      && (cfg.zLimits.hi.Some? ==> s'.lastCommandedZ.value <= cfg.zLimits.hi.value)
      && ((cfg.zLimits.lo.None? || cfg.zLimits.lo.value <= s.lastCommandedZ.value + dz)
          && (cfg.zLimits.hi.None? || s.lastCommandedZ.value + dz <= cfg.zLimits.hi.value)
          ==> s'.lastCommandedZ.value == s.lastCommandedZ.value + dz)
      && s'.intent == s.intent && s'.lastSendTime == s.lastSendTime
  {
  }

  /** With no known Z, move_z_relative_blocking still sends the delta but keeps no bookkeeping. */
  lemma RelativeZUnknownSendsOnly(cfg: Config, s: State, dz: real)
    requires s.lastCommandedZ.None?
    ensures var (s', cmds) := MoveZRelativeStep(cfg, s, dz);
      && s' == s && |cmds| == 1 && cmds[0].RelativeZAndWait? && cmds[0].dz == dz
  {
  }

  /** The controller object. */
  class Controller {
    const cfg: Config
    var intent: Axes
    var lastSent: Axes
    var lastCommandedZ: Option<real>
    var lastSendTime: real
    /** The commands sent through the Moonraker client, in order. */
    var sent: seq<Command>

    function Snapshot(): State
      reads this
    {
      State(intent, lastSent, lastCommandedZ, lastSendTime)
    }

    constructor (config: Config)
      ensures cfg == config
      ensures Snapshot() == State(Axes(None, None, None), Axes(None, None, None), None, 0.0)
      ensures sent == []
    {
      cfg := config;
      intent := Axes(None, None, None);
      lastSent := Axes(None, None, None);
      lastCommandedZ := None;
      lastSendTime := 0.0;
      sent := [];
    }

    method SetIntent(x: Option<real>, y: Option<real>, z: Option<real>, angle: Option<real>)
      modifies this
      ensures intent == SetIntentStep(cfg, old(intent), x, y, z, angle)
      ensures lastSent == old(lastSent) && lastCommandedZ == old(lastCommandedZ)
      ensures lastSendTime == old(lastSendTime) && sent == old(sent)
    {
      if x.Some? { intent := intent.(x := x); }
      if y.Some? { intent := intent.(y := y); }
      if z.Some? { intent := intent.(z := z); }
      if angle.Some? { intent := intent.(z := Some(AngleToZ(cfg, angle.value))); }
    }

    /** set_neutral_intent: each configured neutral coordinate becomes the intent; z overrides the neutral z. */
    method SetNeutralIntent(z: Option<real>)
      modifies this
      ensures intent == SetIntentStep(cfg, old(intent), cfg.neutral.x, cfg.neutral.y, if z.Some? then z else cfg.neutral.z, None)
      ensures lastSent == old(lastSent) && lastCommandedZ == old(lastCommandedZ)
      ensures lastSendTime == old(lastSendTime) && sent == old(sent)
    {
      if cfg.neutral.x.Some? { intent := intent.(x := cfg.neutral.x); }
      if cfg.neutral.y.Some? { intent := intent.(y := cfg.neutral.y); }
      if cfg.neutral.z.Some? { intent := intent.(z := cfg.neutral.z); }
      if z.Some? { intent := intent.(z := z); }
    }

    method Update(now: real)
      modifies this
      ensures Snapshot() == UpdateStep(cfg, old(Snapshot()), now).0
      ensures sent == old(sent) + UpdateStep(cfg, old(Snapshot()), now).1
    {
      if now - lastSendTime < cfg.sendPeriod {
        return;
      }
      var deltaZ: Option<real> := None;
      var clampedZ: Option<real> := None;
      if intent.z.Some? {
        var c := Clamp(cfg.zLimits, intent.z.value);
        clampedZ := Some(c);
        var d := if lastCommandedZ.None? then 0.0 else c - lastCommandedZ.value;
        deltaZ := if Abs(d) <= DEADBAND_Z then None else Some(d);
      }
      var xMove := AxisMove(cfg.xLimits, intent.x, lastSent.x);
      var yMove := AxisMove(cfg.yLimits, intent.y, lastSent.y);
      var hasZ := deltaZ.Some? && deltaZ.value != 0.0;
      var hasXY := xMove.Some? || yMove.Some?;
      if !hasZ && !hasXY {
        return;
      }
      var f := Feedrate(cfg);
      if hasZ && !hasXY {
        sent := sent + [MoveZ(deltaZ.value, f)];
        lastSendTime := now;
        lastCommandedZ := clampedZ;
        lastSent := lastSent.(z := clampedZ);
      } else {
        if hasZ {
          sent := sent + [MoveZ(deltaZ.value, f)];
          lastCommandedZ := clampedZ;
          lastSent := lastSent.(z := clampedZ);
        }
        if xMove.Some? { lastSent := lastSent.(x := xMove); }
        if yMove.Some? { lastSent := lastSent.(y := yMove); }
        var travel := Max(f, if cfg.travelSpeed.Some? then cfg.travelSpeed.value else 800.0);
        sent := sent + [MoveXY(xMove, yMove, travel)];
        lastSendTime := now;
      }
    }

    method MoveBlocking(now: real) returns (ok: bool)
      modifies this
      ensures ok
      ensures Snapshot() == MoveBlockingStep(cfg, old(Snapshot()), now).0
      ensures sent == old(sent) + MoveBlockingStep(cfg, old(Snapshot()), now).1
    {
      var t := BlockingTargets(cfg, intent);
      if t.x.Some? { lastSent := lastSent.(x := t.x); }
      if t.y.Some? { lastSent := lastSent.(y := t.y); }
      if t.z.Some? { lastSent := lastSent.(z := t.z); }
      if t.x.Some? || t.y.Some? || t.z.Some? {
        var f := if cfg.travelSpeed.Some? then cfg.travelSpeed.value else 2000.0;
        sent := sent + [AbsoluteRapid(t.x, t.y, t.z, f)];
        lastSendTime := now;
        if t.z.Some? {
          lastCommandedZ := t.z;
        }
      }
      ok := true;
    }

    /**
     * move_z_relative_blocking. The command is sent whatever the state; with no known Z the
     * closing log line formats None as a float, which raises TypeError after the send.
     */
    method MoveZRelativeBlocking(dz: real) returns (r: Result<bool>)
      modifies this
      ensures r.Err? <==> old(lastCommandedZ).None?
      ensures r.Err? ==> r.error == TypeError
      ensures r.Ok? ==> r.value
      ensures Snapshot() == MoveZRelativeStep(cfg, old(Snapshot()), dz).0
      ensures sent == old(sent) + MoveZRelativeStep(cfg, old(Snapshot()), dz).1
    {
      var f := if cfg.zSpeed.Some? then cfg.zSpeed.value else 200.0;
      if lastCommandedZ.Some? {
        var z := Clamp(cfg.zLimits, lastCommandedZ.value + dz);
        lastCommandedZ := Some(z);
        lastSent := lastSent.(z := Some(z));
      }
      sent := sent + [RelativeZAndWait(dz, f)];
      if lastCommandedZ.None? {
        return Err(TypeError);
      }
      r := Ok(true);
    }
  }
}
