/**
 * LiveCalibrationUI of SystemMain.py: the operator clicks the feet of a target, types its
 * distance, and the (pixel row, feet) point is appended; 'u' removes the last point, 's'
 * hands the points over once there are at least six, 'q' aborts. The camera, the window
 * and the typed text are inputs: a click carries the row and the parsed number, or None
 * when float() or input() raised.
 */
module LiveCalibration {
  import opened Wrappers

  type Point = (int, real)

  const MIN_POINTS: int := 6

  /** One thing the `while True` loop of run() sees: a failed read, a frame with the masked key, or a mouse event. */
  datatype Event = NoFrame | FrameKey(key: int) | Mouse(leftDown: bool, y: int, entered: Option<real>)

  /** run() still looping, returning None, or returning the points. */
  datatype Outcome = Pending | Aborted | Saved(points: seq<Point>)

  predicate IsKey(key: int, c: char) {
    key % 256 == c as int
  }

  /** _mouse_callback: a left click on a shown frame with a positive number typed appends the point. */
  function ClickStep(hasFrame: bool, points: seq<Point>, leftDown: bool, y: int, entered: Option<real>): seq<Point> {
    if !leftDown || !hasFrame then points
    else if entered.None? then points
    else if entered.value <= 0.0 then points
    else points + [(y, entered.value)]
  }

  /** The key branch of run(): quit, undo (pop when non-empty), save (at least six points), or nothing. */
  function KeyStep(points: seq<Point>, key: int): (seq<Point>, Outcome) {
    if IsKey(key, 'q') || IsKey(key, 'Q') then (points, Aborted)
    else if IsKey(key, 'u') || IsKey(key, 'U') then
      (if points != [] then (points[..|points| - 1], Pending) else (points, Pending))
    else if IsKey(key, 's') || IsKey(key, 'S') then
      (if |points| < MIN_POINTS then (points, Pending) else (points, Saved(points)))
    else (points, Pending)
  }

  /** The calibrator state after one event and what run() does then. */
  function EventStep(hasFrame: bool, points: seq<Point>, e: Event): (bool, seq<Point>, Outcome) {
    match e
    case NoFrame => (hasFrame, points, Pending)
    case FrameKey(key) =>
      var (ps, o) := KeyStep(points, key);
      (true, ps, o)
    case Mouse(leftDown, y, entered) => (hasFrame, ClickStep(hasFrame, points, leftDown, y, entered), Pending)
  }

  /** run() over a stream of events: the first abort or save ends it; Pending when the stream runs out. */
  function RunEvents(hasFrame: bool, points: seq<Point>, events: seq<Event>): Outcome
    decreases |events|
  {
    if events == [] then Pending
    else
      var (f, ps, o) := EventStep(hasFrame, points, events[0]);
      if o.Pending? then RunEvents(f, ps, events[1..]) else o
  }

  predicate AllPositive(points: seq<Point>) {
    forall i :: 0 <= i < |points| ==> points[i].1 > 0.0
  }

  /** A click appends exactly when it is a left click on a shown frame with a positive distance; nothing else changes. */
  lemma ClickAppendsValid(hasFrame: bool, points: seq<Point>, leftDown: bool, y: int, entered: Option<real>)
    ensures var ps := ClickStep(hasFrame, points, leftDown, y, entered);
      && (leftDown && hasFrame && entered.Some? && entered.value > 0.0 ==> ps == points + [(y, entered.value)])
      && (!(leftDown && hasFrame && entered.Some? && entered.value > 0.0) ==> ps == points)
  {
  }

  /** Save hands over the current points unchanged exactly when there are at least six of them. */
  lemma SaveNeedsSix(points: seq<Point>, key: int)
    requires IsKey(key, 's') || IsKey(key, 'S')
    ensures KeyStep(points, key).1.Saved? <==> |points| >= MIN_POINTS
    ensures KeyStep(points, key).1.Saved? ==> KeyStep(points, key).1.points == points
    ensures KeyStep(points, key).0 == points
  {
    assert !IsKey(key, 'q') && !IsKey(key, 'Q') && !IsKey(key, 'u') && !IsKey(key, 'U');
  }

  /** Undo removes the point the last accepted click added. */
  lemma UndoInvertsClick(points: seq<Point>, y: int, d: real, key: int)
    requires d > 0.0
    requires IsKey(key, 'u') || IsKey(key, 'U')
    ensures KeyStep(ClickStep(true, points, true, y, Some(d)), key) == (points, Pending)
  {
    assert !IsKey(key, 'q') && !IsKey(key, 'Q');
    var ps := points + [(y, d)];
    assert ps[..|ps| - 1] == points;
  }

  /** Undo with no points leaves the list empty. */
  lemma UndoEmpty(key: int)
    requires IsKey(key, 'u') || IsKey(key, 'U')
    ensures KeyStep([], key) == ([], Pending)
  {
    assert !IsKey(key, 'q') && !IsKey(key, 'Q');
  }

  /** Every stored distance stays positive through any event. */
  lemma EventKeepsPositive(hasFrame: bool, points: seq<Point>, e: Event)
    requires AllPositive(points)
    ensures AllPositive(EventStep(hasFrame, points, e).1)
    ensures EventStep(hasFrame, points, e).2.Saved? ==> EventStep(hasFrame, points, e).2.points == EventStep(hasFrame, points, e).1
  {
    match e
    case NoFrame =>
    case FrameKey(key) =>
      var ps := KeyStep(points, key).0;
      assert forall i :: 0 <= i < |ps| ==> ps[i] == points[i];
    case Mouse(leftDown, y, entered) =>
  }

  /** Whatever the operator does, run() only ever returns at least six points, all at positive distances. */
  lemma {:induction false} SavedPointsValid(hasFrame: bool, points: seq<Point>, events: seq<Event>)
    requires AllPositive(points)
    ensures RunEvents(hasFrame, points, events).Saved? ==>
      |RunEvents(hasFrame, points, events).points| >= MIN_POINTS && AllPositive(RunEvents(hasFrame, points, events).points)
    decreases |events|
  {
    if events != [] {
      var (f, ps, o) := EventStep(hasFrame, points, events[0]);
      EventKeepsPositive(hasFrame, points, events[0]);
      if o.Pending? {
        SavedPointsValid(f, ps, events[1..]);
      } else if o.Saved? {
        var key := events[0].key;
        assert !IsKey(key, 'q') && !IsKey(key, 'Q') && !IsKey(key, 'u') && !IsKey(key, 'U');
      }
    }
  }

  class LiveCalibrationUI {
    var points: seq<Point>
    var hasFrame: bool

    /** __init__: no points and no frame yet. */
    constructor ()
      ensures points == [] && !hasFrame
    {
      points := [];
      hasFrame := false;
    }

    /** _mouse_callback. */
    method MouseCallback(leftDown: bool, y: int, entered: Option<real>)
      modifies this
      ensures points == ClickStep(old(hasFrame), old(points), leftDown, y, entered)
      ensures hasFrame == old(hasFrame)
    {
      if !leftDown || !hasFrame {
        return;
      }
      if entered.None? {
        return;
      }
      if entered.value <= 0.0 {
        return;
      }
      points := points + [(y, entered.value)];
    }

    /** One pass of run()'s loop after a frame was read: the frame is kept, then the key is handled. */
    method HandleFrameKey(key: int) returns (o: Outcome)
      modifies this
      ensures (hasFrame, points, o) == EventStep(old(hasFrame), old(points), FrameKey(key))
    {
      hasFrame := true;
      var k := key % 256;
      if k == 'q' as int || k == 'Q' as int {
        o := Aborted;
      } else if k == 'u' as int || k == 'U' as int {
        if points != [] {
          points := points[..|points| - 1];
        }
        o := Pending;
      } else if k == 's' as int || k == 'S' as int {
        if |points| < MIN_POINTS {
          o := Pending;
        } else {
          o := Saved(points);
        }
      } else {
        o := Pending;
      }
    }

    /** run()'s `while True` loop over the events it sees, until an abort or a save. */
    method Run(events: seq<Event>) returns (o: Outcome)
      modifies this
      ensures o == RunEvents(old(hasFrame), old(points), events)
    {
      var i := 0;
      o := Pending;
      while i < |events|
        invariant 0 <= i <= |events| && o == Pending
        invariant RunEvents(old(hasFrame), old(points), events) == RunEvents(hasFrame, points, events[i..])
        decreases |events| - i
      {
        assert events[i..][1..] == events[i + 1..];
        var e := events[i];
        match e {
          case NoFrame =>
          case FrameKey(key) =>
            o := HandleFrameKey(key);
            if !o.Pending? {
              return;
            }
          case Mouse(leftDown, y, entered) =>
            MouseCallback(leftDown, y, entered);
        }
        i := i + 1;
      }
    }
  }
}
