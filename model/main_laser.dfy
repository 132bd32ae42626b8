/**
 * The module-level SEARCH/TRACK loop of main_laser.py. The laser switch, the Z pan, the
 * Z hand-over and the tracking move are recorded as the calls the loop makes, in order.
 */
module MainLaser {
  import opened Wrappers

  const FRAME_WIDTH: int := 1280
  const LOST_LIMIT: int := 8

  datatype Mode = Search | Track

  /** One pass: the detector result and the Z the search behaviour reports (get_current_z). */
  datatype Tick = Tick(human: bool, center: Option<(int, int)>, searchZ: real)

  predicate Paired(t: Tick) { t.human ==> t.center.Some? }

  predicate AllPaired(ticks: seq<Tick>) { forall k :: 0 <= k < |ticks| ==> Paired(ticks[k]) }

  datatype Call =
    | SetLaser(on: bool)
    /** set_current_z(z): the tracking behaviour takes over the search Z. */
    | TransferZ(z: real)
    /** pan_z(): one search step. */
    | PanZ
    /** track_z(cx, FRAME_WIDTH) */
    | TrackZ(cx: int, frameWidth: int)

  /** The module globals state and lost_count. */
  datatype Loop = Loop(mode: Mode, lostCount: int)

  const Init: Loop := Loop(Search, 0)

  /** One pass of the loop body: the new globals and the calls made, in order. */
  function Step(s: Loop, t: Tick): (Loop, seq<Call>)
    requires Paired(t)
  {
    match s.mode
    case Search =>
      if t.human then (Loop(Track, 0), [SetLaser(false), TransferZ(t.searchZ)])
      else (s, [SetLaser(false), PanZ])
    case Track =>
      if t.human then (Loop(Track, 0), [SetLaser(false), TrackZ(t.center.value.0, FRAME_WIDTH)])
      else if s.lostCount + 1 > LOST_LIMIT then (Loop(Search, s.lostCount + 1), [SetLaser(false)])
      else (Loop(Track, s.lostCount + 1), [SetLaser(false)])
  }

  function Run(s: Loop, ticks: seq<Tick>): (Loop, seq<Call>)
    requires AllPaired(ticks)
    decreases |ticks|
  {
    if ticks == [] then (s, [])
    else
      var before := Run(s, ticks[..|ticks| - 1]);
      var after := Step(before.0, ticks[|ticks| - 1]);
      (after.0, before.1 + after.1)
  }

  /** The while-loop over a finite run of detector results. */
  method LaserLoop(ticks: seq<Tick>) returns (final: Loop, calls: seq<Call>)
    requires AllPaired(ticks)
    ensures (final, calls) == Run(Init, ticks)
  {
    var state := Search;
    var lostCount := 0;
    calls := [];
    var i := 0;
    while i < |ticks|
      invariant 0 <= i <= |ticks|
      invariant (Loop(state, lostCount), calls) == Run(Init, ticks[..i])
    {
      assert ticks[..i + 1][..i] == ticks[..i];
      var t := ticks[i];
      ghost var step := Step(Loop(state, lostCount), t);
      ghost var before := calls;
      if state == Search {
        calls := calls + [SetLaser(false)];
        if t.human {
          calls := calls + [TransferZ(t.searchZ)];
          state := Track;
          lostCount := 0;
        } else {
          calls := calls + [PanZ];
        }
      } else {
        calls := calls + [SetLaser(false)];
        if t.human {
          calls := calls + [TrackZ(t.center.value.0, FRAME_WIDTH)];
          lostCount := 0;
        } else {
          lostCount := lostCount + 1;
          if lostCount > LOST_LIMIT {
            state := Search;
          }
        }
      }
      assert calls == before + step.1;
      i := i + 1;
    }
    assert ticks[..i] == ticks;
    final := Loop(state, lostCount);
  }

  /** Every pass commands the laser off first, whatever the state and the detection. */
  lemma EveryPassLaserOff(s: Loop, t: Tick)
    requires Paired(t)
    ensures |Step(s, t).1| >= 1 && Step(s, t).1[0] == SetLaser(false)
    ensures forall k :: 0 <= k < |Step(s, t).1| && Step(s, t).1[k].SetLaser? ==> k == 0
  {
  }

  /** The laser is never commanded on: every laser call of any run switches it off. */
  lemma {:induction false} NeverLaserOn(s: Loop, ticks: seq<Tick>)
    requires AllPaired(ticks)
    ensures forall c :: c in Run(s, ticks).1 && c.SetLaser? ==> !c.on
    decreases |ticks|
  {
    if ticks != [] {
      NeverLaserOn(s, ticks[..|ticks| - 1]);
      EveryPassLaserOff(Run(s, ticks[..|ticks| - 1]).0, ticks[|ticks| - 1]);
    }
  }

  /** Count of laser calls in a call list. */
  function LaserCalls(calls: seq<Call>): (n: nat)
    ensures n <= |calls|
  {
    if calls == [] then 0
    else LaserCalls(calls[..|calls| - 1]) + (if calls[|calls| - 1].SetLaser? then 1 else 0)
  }

  lemma {:induction false} LaserCallsAppend(a: seq<Call>, b: seq<Call>)
    ensures LaserCalls(a + b) == LaserCalls(a) + LaserCalls(b)
    decreases |b|
  {
    if b == [] {
      assert a + b == a;
    } else {
      assert (a + b)[..|a + b| - 1] == a + b[..|b| - 1];
      LaserCallsAppend(a, b[..|b| - 1]);
    }
  }

  /** The laser is commanded exactly once per pass. */
  lemma {:induction false} OneLaserCallPerPass(s: Loop, ticks: seq<Tick>)
    requires AllPaired(ticks)
    ensures LaserCalls(Run(s, ticks).1) == |ticks|
    decreases |ticks|
  {
    if ticks != [] {
      var before := Run(s, ticks[..|ticks| - 1]);
      var after := Step(before.0, ticks[|ticks| - 1]);
      OneLaserCallPerPass(s, ticks[..|ticks| - 1]);
      LaserCallsAppend(before.1, after.1);
      EveryPassLaserOff(before.0, ticks[|ticks| - 1]);
      LaserCallsOfPass(after.1);
    }
  }

  /** A pass's calls hold one laser call, the first. */
  lemma {:induction false} LaserCallsOfPass(calls: seq<Call>)
    requires |calls| >= 1 && calls[0].SetLaser?
    requires forall k :: 0 <= k < |calls| && calls[k].SetLaser? ==> k == 0
    ensures LaserCalls(calls) == 1
    decreases |calls|
  {
    if |calls| > 1 {
      LaserCallsOfPass(calls[..|calls| - 1]);
    }
  }

  /** A human in SEARCH hands the search Z to tracking and enters TRACK with lost_count 0; otherwise SEARCH pans. */
  lemma SearchStep(s: Loop, t: Tick)
    requires Paired(t) && s.mode == Search
    ensures t.human ==> Step(s, t) == (Loop(Track, 0), [SetLaser(false), TransferZ(t.searchZ)])
    ensures !t.human ==> Step(s, t) == (s, [SetLaser(false), PanZ])
  {
  }

  /** A human in TRACK resets lost_count; a miss counts, and SEARCH comes back only past LOST_LIMIT. */
  lemma TrackStep(s: Loop, t: Tick)
    requires Paired(t) && s.mode == Track
    ensures t.human ==> Step(s, t).0 == Loop(Track, 0)
    ensures !t.human ==> Step(s, t).0.lostCount == s.lostCount + 1
    ensures !t.human ==> (Step(s, t).0.mode == Search <==> s.lostCount + 1 > LOST_LIMIT)
  {
  }

  predicate AllMisses(ticks: seq<Tick>) { forall k :: 0 <= k < |ticks| ==> !ticks[k].human }

  /**
   * From TRACK with lost_count 0 the loop keeps tracking through LOST_LIMIT misses and
   * returns to SEARCH on the next one: nine misses in a row, not eight.
   */
  lemma {:induction false} NineMissesToSearch(ticks: seq<Tick>)
    requires AllPaired(ticks) && AllMisses(ticks) && |ticks| <= LOST_LIMIT + 1
    ensures |ticks| <= LOST_LIMIT ==> Run(Loop(Track, 0), ticks).0 == Loop(Track, |ticks|)
    ensures |ticks| == LOST_LIMIT + 1 ==> Run(Loop(Track, 0), ticks).0.mode == Search
    decreases |ticks|
  {
    if ticks != [] {
      var init := ticks[..|ticks| - 1];
      assert AllMisses(init) by {
        forall k | 0 <= k < |init| ensures !init[k].human {
          assert init[k] == ticks[k];
        }
      }
      NineMissesToSearch(init);
    }
  }
}
