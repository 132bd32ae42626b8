/**
 * The SEARCH/TRACK loop of Main.py. The search and track threads are opaque handles
 * (a flag per handle, and the start/stop/update calls made on them as events); each
 * pass of the loop reads one detector result and the Z the two behaviours report.
 */
module MainLoop {
  import opened Wrappers

  const FRAME_WIDTH: int := 640
  const LOST_LIMIT: int := 8
  const START_Z: real := 10.0

  datatype Mode = Search | Track

  /** One pass: the detector result and the current Z of the search and of the track behaviour. */
  datatype Tick = Tick(human: bool, center: Option<(int, int)>, searchZ: real, trackZ: real)

  /** The detector reports a centre with every human it reports. */
  predicate Paired(t: Tick) { t.human ==> t.center.Some? }

  predicate AllPaired(ticks: seq<Tick>) { forall k :: 0 <= k < |ticks| ==> Paired(ticks[k]) }

  /** Calls made on the thread handles. */
  datatype Event =
    | StartSearch
    | StopSearch
    | ResetTracking(zStart: real)
    | StartTrack(cx: int, frameWidth: int)
    | UpdateCenter(cx: int)
    | StopTrack

  /** The loop variables: state, lost_count, current_z and whether each handle is held. */
  datatype Loop = Loop(mode: Mode, lostCount: int, currentZ: real, searchRunning: bool, trackRunning: bool)

  const Init: Loop := Loop(Search, 0, START_Z, false, false)

  /** One pass of the state machine: the new loop variables and the thread calls, in order. */
  function Step(s: Loop, t: Tick): (Loop, seq<Event>)
    requires Paired(t)
  {
    match s.mode
    case Search =>
      var started: seq<Event> := if s.searchRunning then [] else [StartSearch];
      if t.human then
        (Loop(Track, 0, t.searchZ, false, true),
         started + [StopSearch, ResetTracking(t.searchZ), StartTrack(t.center.value.0, FRAME_WIDTH)])
      else
        (s.(searchRunning := true), started)
    case Track =>
      if !t.human then
        if s.lostCount + 1 >= LOST_LIMIT then
          (Loop(Search, s.lostCount + 1, t.trackZ, s.searchRunning, false),
           if s.trackRunning then [StopTrack] else [])
        else
          (s.(lostCount := s.lostCount + 1), [])
      else
        (s.(lostCount := 0),
         if t.center.Some? && s.trackRunning then [UpdateCenter(t.center.value.0)] else [])
  }

  /** The loop variables and all thread calls after the given passes, starting from s. */
  function Run(s: Loop, ticks: seq<Tick>): (Loop, seq<Event>)
    requires AllPaired(ticks)
    decreases |ticks|
  {
    if ticks == [] then (s, [])
    else
      var before := Run(s, ticks[..|ticks| - 1]);
      var after := Step(before.0, ticks[|ticks| - 1]);
      (after.0, before.1 + after.1)
  }

  /** main(): the while-loop over a finite run of detector results. */
  method MainLoop(ticks: seq<Tick>) returns (final: Loop, events: seq<Event>)
    requires AllPaired(ticks)
    ensures (final, events) == Run(Init, ticks)
  {
    var state := Search;
    var lostCount := 0;
    var currentZ := START_Z;
    var searchThread := false;
    var trackThread := false;
    events := [];
    var i := 0;
    while i < |ticks|
      invariant 0 <= i <= |ticks|
      invariant (Loop(state, lostCount, currentZ, searchThread, trackThread), events) == Run(Init, ticks[..i])
    {
      assert ticks[..i + 1][..i] == ticks[..i];
      var t := ticks[i];
      ghost var step := Step(Loop(state, lostCount, currentZ, searchThread, trackThread), t);
      ghost var before := events;
      if state == Search {
        if !searchThread {
          searchThread := true;
          events := events + [StartSearch];
        }
        if t.human {
          if searchThread {
            events := events + [StopSearch];
            searchThread := false;
          }
          currentZ := t.searchZ;
          events := events + [ResetTracking(currentZ), StartTrack(t.center.value.0, FRAME_WIDTH)];
          trackThread := true;
          state := Track;
          lostCount := 0;
          assert events == before + step.1;
        } else {
          assert events == before + step.1;
        }
      } else {
        if !t.human {
          lostCount := lostCount + 1;
          if lostCount >= LOST_LIMIT {
            if trackThread {
              events := events + [StopTrack];
              trackThread := false;
            }
            currentZ := t.trackZ;
            state := Search;
          }
          assert events == before + step.1;
        } else {
          lostCount := 0;
          if t.center.Some? && trackThread {
            events := events + [UpdateCenter(t.center.value.0)];
          }
          assert events == before + step.1;
        }
      }
      assert (Loop(state, lostCount, currentZ, searchThread, trackThread), events) == (step.0, before + step.1);
      i := i + 1;
    }
    assert ticks[..i] == ticks;
    final := Loop(state, lostCount, currentZ, searchThread, trackThread);
  }

  /**
   * What holds between passes: while tracking, only the track handle is held and fewer than
   * LOST_LIMIT consecutive misses have been counted; while searching, no track handle is held.
   */
  predicate Inv(s: Loop) {
    (s.mode == Track ==> s.trackRunning && !s.searchRunning && 0 <= s.lostCount < LOST_LIMIT)
    && (s.mode == Search ==> !s.trackRunning)
  }

  lemma StepKeepsInv(s: Loop, t: Tick)
    requires Paired(t) && Inv(s)
    ensures Inv(Step(s, t).0)
  {
  }

  lemma {:induction false} RunKeepsInv(s: Loop, ticks: seq<Tick>)
    requires AllPaired(ticks) && Inv(s)
    ensures Inv(Run(s, ticks).0)
    decreases |ticks|
  {
    if ticks != [] {
      RunKeepsInv(s, ticks[..|ticks| - 1]);
      StepKeepsInv(Run(s, ticks[..|ticks| - 1]).0, ticks[|ticks| - 1]);
    }
  }

  /** The loop starts in SEARCH and the invariant holds after any run. */
  lemma InitInv(ticks: seq<Tick>)
    requires AllPaired(ticks)
    ensures Init.mode == Search && Inv(Run(Init, ticks).0)
  {
    RunKeepsInv(Init, ticks);
  }

  /**
   * A human seen in SEARCH stops the search handle, resets tracking to the search Z and
   * starts tracking at the detected x: the new state is TRACK with lost_count 0 and that Z.
   */
  lemma AcquireHandsOverZ(s: Loop, t: Tick)
    requires Paired(t) && s.mode == Search && t.human
    ensures Step(s, t).0 == Loop(Track, 0, t.searchZ, false, true)
    ensures var ev := Step(s, t).1;
      |ev| >= 3 && ev[|ev| - 3..] == [StopSearch, ResetTracking(t.searchZ), StartTrack(t.center.value.0, FRAME_WIDTH)]
  {
  }

  /** SEARCH without a human keeps searching, starting the search handle if none is held. */
  lemma SearchWithoutHuman(s: Loop, t: Tick)
    requires Paired(t) && s.mode == Search && !t.human
    ensures Step(s, t).0.mode == Search && Step(s, t).0.searchRunning
    ensures Step(s, t).1 == (if s.searchRunning then [] else [StartSearch])
  {
  }

  /** In TRACK a miss counts one more, and leaves for SEARCH exactly when the count reaches LOST_LIMIT. */
  lemma MissCounts(s: Loop, t: Tick)
    requires Paired(t) && s.mode == Track && !t.human
    ensures Step(s, t).0.lostCount == s.lostCount + 1
    ensures Step(s, t).0.mode == Search <==> s.lostCount + 1 >= LOST_LIMIT
    ensures Step(s, t).0.mode == Search ==> Step(s, t).0.currentZ == t.trackZ && !Step(s, t).0.trackRunning
  {
  }

  /** In TRACK a human resets lost_count and keeps tracking. */
  lemma SightingResets(s: Loop, t: Tick)
    requires Paired(t) && s.mode == Track && t.human
    ensures Step(s, t).0 == s.(lostCount := 0)
  {
  }

  predicate AllMisses(ticks: seq<Tick>) { forall k :: 0 <= k < |ticks| ==> !ticks[k].human }

  /**
   * From TRACK with lost_count 0, consecutive misses keep tracking with the misses counted
   * until the LOST_LIMIT-th, which returns to SEARCH.
   */
  lemma {:induction false} MissesUntilLimit(s: Loop, ticks: seq<Tick>)
    requires AllPaired(ticks) && AllMisses(ticks)
    requires Inv(s) && s.mode == Track && s.lostCount == 0 && |ticks| <= LOST_LIMIT
    ensures |ticks| < LOST_LIMIT ==> Run(s, ticks).0.mode == Track && Run(s, ticks).0.lostCount == |ticks|
    ensures |ticks| == LOST_LIMIT ==> Run(s, ticks).0.mode == Search
    decreases |ticks|
  {
    if ticks != [] {
      var init := ticks[..|ticks| - 1];
      assert AllMisses(init) by {
        forall k | 0 <= k < |init| ensures !init[k].human {
          assert init[k] == ticks[k];
        }
      }
      MissesUntilLimit(s, init);
      MissCounts(Run(s, init).0, ticks[|ticks| - 1]);
    }
  }
}
