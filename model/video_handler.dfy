/**
 * Distance/VideoHandler.py: frame navigation over a video file, the shared key bindings and
 * the display scale rule. The capture is a cursor over frame indices; a frame's image is
 * represented by its index.
 */
module VideoHandler {
  import opened Wrappers
  import opened PyInt

  /** What a key asks of the handler. */
  datatype Action = Quit | TogglePause | Forward(frames: int) | Backward(frames: int)

  /** A bound key: the action and the name handle_video_key reports for it. */
  datatype Binding = Binding(action: Action, name: string)

  const ESC := 27

  /** handle_video_key's table, checked in the source's order; the key is already masked to a byte. */
  function KeyBinding(key: int): (b: Option<Binding>)
    ensures b.Some? && b.value.action == Quit <==> key == 'q' as int || key == 'Q' as int || key == ESC
    ensures b.Some? && (b.value.action.Forward? || b.value.action.Backward?) ==> b.value.action.frames in {1, 5, 30, 60}
    ensures b.Some? && b.value.action.Forward? ==> b.value.name == (if b.value.action.frames <= 5 then "step_forward" else "fast_forward")
    ensures b.Some? && b.value.action.Backward? ==> b.value.name == (if b.value.action.frames <= 5 then "step_backward" else "fast_backward")
  {
    if key == 'q' as int || key == 'Q' as int || key == ESC then Some(Binding(Quit, "quit"))
    else if key == ' ' as int then Some(Binding(TogglePause, "pause"))
    else if key == '.' as int || key == 83 || key == 0 then Some(Binding(Forward(1), "step_forward"))
    else if key == ',' as int || key == 81 || key == 1 then Some(Binding(Backward(1), "step_backward"))
    else if key == '>' as int || key == ']' as int || key == 'l' as int || key == 'L' as int then Some(Binding(Forward(30), "fast_forward"))
    else if key == '<' as int || key == '[' as int || key == 'j' as int || key == 'J' as int then Some(Binding(Backward(30), "fast_backward"))
    else if key == 'd' as int || key == 'D' as int then Some(Binding(Forward(5), "step_forward"))
    else if key == 'a' as int || key == 'A' as int then Some(Binding(Backward(5), "step_backward"))
    else if key == '\'' as int || key == '"' as int then Some(Binding(Forward(60), "fast_forward"))
    else if key == ';' as int || key == ':' as int then Some(Binding(Backward(60), "fast_backward"))
    else None
  }

  /** The masked left-arrow code 81 is ord('Q') and the masked right-arrow code 83 is ord('S'):
    * the quit test comes first, so the left arrow quits and never steps back, while the right
    * arrow steps forward. */
  lemma ArrowCodesShareLetters()
    ensures 'Q' as int == 81 && 'S' as int == 83
    ensures KeyBinding(81) == Some(Binding(Quit, "quit"))
    ensures KeyBinding(83) == Some(Binding(Forward(1), "step_forward"))
    ensures forall key :: KeyBinding(key) == Some(Binding(Backward(1), "step_backward")) <==> key == ',' as int || key == 1
  {
  }

  /** min(frame + n, total - 1) */
  function ForwardTarget(frame: int, n: int, total: int): (t: int)
    ensures t <= total - 1 && t <= frame + n && (t == frame + n || t == total - 1)
  {
    if frame + n < total - 1 then frame + n else total - 1
  }

  /** max(frame - n, 0) */
  function BackwardTarget(frame: int, n: int): (t: int)
    ensures t >= 0 && t >= frame - n && (t == frame - n || t == 0)
  {
    if frame - n > 0 then frame - n else 0
  }

  /** seek_frame's clamp: max(0, min(n, total - 1)). */
  function SeekTarget(n: int, total: int): (t: int)
    ensures t >= 0
    ensures total > 0 ==> t <= total - 1
    ensures 0 <= n < total ==> t == n
  {
    var upper := if n < total - 1 then n else total - 1;
    if upper > 0 then upper else 0
  }

  /** seek_percent's frame: int((percent / 100) * total), before seek_frame's clamp. */
  function PercentFrame(percent: real, total: int): int {
    TruncToZero(percent / 100.0 * total as real)
  }

  /** Seeking to a percentage in [0, 100] of a non-empty video lands on a frame whose progress
    * percentage is at most the one asked for and less than one frame's worth below it. */
  lemma SeekPercentProgress(percent: real, total: int)
    requires 0.0 <= percent <= 100.0 && total > 0
    ensures var f := SeekTarget(PercentFrame(percent, total), total);
      && 0 <= f < total
      && f as real / total as real * 100.0 <= percent
      && (percent < 100.0 ==> percent - 100.0 / total as real < f as real / total as real * 100.0)
  {
    var x := percent / 100.0 * total as real;
    var t := total as real;
    assert 0.0 <= x <= t by {
      assert percent / 100.0 <= 1.0;
      MulLe(percent / 100.0, 1.0, t);
    }
    var n := PercentFrame(percent, total);
    assert n as real <= x < n as real + 1.0;
    var f := SeekTarget(n, total);
    ScaleBack(percent, t);
    if percent < 100.0 {
      assert x < t by { MulLt(percent / 100.0, 1.0, t); }
      assert f == n;
      DivMonotone(n as real, x, t);
      DivMonotone(x - 1.0, n as real, t);
    } else {
      assert f == total - 1;
      DivMonotone(f as real, x, t);
    }
  }

  /** Scaling a percentage to frames and back gives the percentage, and one frame less is 100/t less. */
  lemma ScaleBack(percent: real, t: real)
    requires t > 0.0
    ensures (percent / 100.0 * t) / t * 100.0 == percent
    ensures (percent / 100.0 * t - 1.0) / t * 100.0 == percent - 100.0 / t
  {
  }

  lemma MulLe(a: real, b: real, c: real)
    requires a <= b && c >= 0.0
    ensures a * c <= b * c
  {
  }

  lemma MulLt(a: real, b: real, c: real)
    requires a < b && c > 0.0
    ensures a * c < b * c
  {
  }

  lemma DivMonotone(a: real, b: real, t: real)
    requires a <= b && t > 0.0
    ensures a / t * 100.0 <= b / t * 100.0
    ensures a < b ==> a / t * 100.0 < b / t * 100.0
  {
  }

  /** get_metadata's dictionary. */
  datatype Metadata = Metadata(width: int, height: int, fps: real, totalFrames: int, sourcePath: string)

  /** A frame's size, in pixels. */
  datatype Size = Size(width: int, height: int)

  /** resize_for_display: the scale is min(max_w / w, max_h / h, 1.0), and a scale of 1.0 returns
    * the frame as it is; a missing frame gives (None, 1.0). */
  function ResizeForDisplay(frame: Option<Size>, maxWidth: int, maxHeight: int): (r: (Option<Size>, real))
    requires frame.Some? ==> frame.value.width > 0 && frame.value.height > 0
    ensures frame.None? ==> r == (None, 1.0)
    ensures r.1 <= 1.0
    ensures r.1 == 1.0 ==> r.0 == frame
    ensures frame.Some? && maxWidth > 0 && maxHeight > 0 ==> r.1 > 0.0
    ensures frame.Some? && r.1 < 1.0 ==> (&& r.0.Some?
      && r.0.value.width <= maxWidth && r.0.value.height <= maxHeight
      && r.0.value.width <= frame.value.width && r.0.value.height <= frame.value.height)
  {
    if frame.None? then (None, 1.0)
    else
      var w, h := frame.value.width, frame.value.height;
      var scaleW := maxWidth as real / w as real;
      var scaleH := maxHeight as real / h as real;
      var scale := if scaleW <= scaleH && scaleW <= 1.0 then scaleW else if scaleH <= 1.0 then scaleH else 1.0;
      if scale >= 1.0 then (frame, 1.0)
      else
        ScaledFits(w, scale, scaleW, maxWidth);
        ScaledFits(h, scale, scaleH, maxHeight);
        (Some(Size((w as real * scale).Floor, (h as real * scale).Floor)), scale)
  }

  /** Scaling a positive side by at most limit / side and at most 1 keeps it within both. */
  lemma ScaledFits(side: int, scale: real, ratio: real, limit: int)
    requires side > 0 && scale <= ratio && scale <= 1.0 && ratio == limit as real / side as real
    ensures (side as real * scale).Floor <= limit && (side as real * scale).Floor <= side
  {
    var s := side as real;
    assert s * ratio == limit as real;
    assert s * (ratio - scale) >= 0.0;
    assert s * (1.0 - scale) >= 0.0;
    var x := s * scale;
    assert x.Floor as real <= x;
  }

  /** A video file with playback state. `hasCapture` is `cap is not None`; `position` is the
    * capture's next-frame index; `currentFrame` names the frame whose image is held. */
  class Handler {
    const videoPath: string
    var hasCapture: bool
    var captureOpened: bool
    var position: int
    var isPaused: bool
    var currentFrame: Option<int>
    var frameNumber: int
    var totalFrames: int
    var fps: real
    var width: int
    var height: int
    var lastFrameTime: real

    ghost predicate Valid()
      reads this
    {
      fps != 0.0 && position >= 0
    }

    constructor (path: string)
      ensures Valid() && videoPath == path && !hasCapture && isPaused
      ensures currentFrame.None? && frameNumber == 0 && totalFrames == 0 && fps == 30.0
    {
      videoPath := path;
      hasCapture, captureOpened, position := false, false, 0;
      isPaused := true;
      currentFrame := None;
      frameNumber, totalFrames := 0, 0;
      fps := 30.0;
      width, height := 0, 0;
      lastFrameTime := 0.0;
    }

    /** open: the capture is kept even when it failed to open; on success the properties are read
      * (an fps of 0 becomes 30) and the first frame is read. */
    method Open(captureOk: bool, frameCount: int, reportedFps: real, frameWidth: int, frameHeight: int)
      returns (ok: bool)
      requires Valid()
      modifies this
      ensures Valid() && ok == captureOk && hasCapture && captureOpened == captureOk
      ensures captureOk ==> (&& totalFrames == frameCount && fps == (if reportedFps == 0.0 then 30.0 else reportedFps)
        && width == frameWidth && height == frameHeight
        && (frameCount > 0 ==> frameNumber == 0 && currentFrame == Some(0) && position == 1)
        && (frameCount <= 0 ==> frameNumber == 0 && position == 0))
    {
      hasCapture := true;
      captureOpened := captureOk;
      position := 0;
      if !captureOk {
        return false;
      }
      totalFrames := frameCount;
      fps := if reportedFps == 0.0 then 30.0 else reportedFps;
      width, height := frameWidth, frameHeight;
      frameNumber := 0;
      var _ := ReadNextFrame();
      ok := true;
    }

    method Close()
      modifies this
      ensures !hasCapture
      ensures isPaused == old(isPaused) && frameNumber == old(frameNumber) && currentFrame == old(currentFrame)
    {
      hasCapture := false;
    }

    /** _read_next_frame: reading succeeds exactly while the cursor is before the end. */
    method ReadNextFrame() returns (ok: bool)
      requires Valid()
      modifies this
      ensures Valid()
      ensures ok <==> old(hasCapture && captureOpened && position < totalFrames)
      ensures ok ==> currentFrame == Some(old(position)) && frameNumber == old(position) && position == old(position) + 1
      ensures !ok ==> currentFrame == old(currentFrame) && frameNumber == old(frameNumber) && position == old(position)
      ensures isPaused == old(isPaused) && totalFrames == old(totalFrames) && hasCapture == old(hasCapture)
      ensures captureOpened == old(captureOpened) && lastFrameTime == old(lastFrameTime) && fps == old(fps)
      ensures width == old(width) && height == old(height)
    {
      if !hasCapture || !captureOpened || position >= totalFrames {
        return false;
      }
      currentFrame := Some(position);
      frameNumber := position;
      position := position + 1;
      ok := true;
    }

    /** seek_frame: False when closed; otherwise the target is clamped into [0, total - 1]. */
    method SeekFrame(n: int) returns (ok: bool)
      requires Valid()
      modifies this
      ensures Valid()
      ensures !old(hasCapture) ==> !ok && position == old(position) && frameNumber == old(frameNumber)
      ensures ok <==> IsOpen() && totalFrames > 0
      ensures ok ==> (frameNumber == SeekTarget(n, totalFrames) && currentFrame == Some(frameNumber)
        && 0 <= frameNumber < totalFrames)
      ensures !ok ==> currentFrame == old(currentFrame) && frameNumber == old(frameNumber)
      ensures isPaused == old(isPaused) && totalFrames == old(totalFrames) && hasCapture == old(hasCapture)
      ensures captureOpened == old(captureOpened) && lastFrameTime == old(lastFrameTime) && fps == old(fps)
      ensures width == old(width) && height == old(height)
    {
      if !hasCapture {
        return false;
      }
      position := SeekTarget(n, totalFrames);
      ok := ReadNextFrame();
    }

    /** toggle_pause: flips is_paused, restarts the frame clock, and returns the new value. */
    method TogglePause(now: real) returns (paused: bool)
      modifies this
      ensures paused == isPaused == !old(isPaused) && lastFrameTime == now
      ensures frameNumber == old(frameNumber) && position == old(position) && currentFrame == old(currentFrame)
      ensures hasCapture == old(hasCapture) && captureOpened == old(captureOpened)
      ensures totalFrames == old(totalFrames) && fps == old(fps)
    {
      isPaused := !isPaused;
      lastFrameTime := now;
      paused := isPaused;
    }

    /** step_forward: pauses, and seeks to min(frame + n, total - 1) only when that differs. */
    method StepForward(n: int) returns (frame: Option<int>)
      requires Valid()
      modifies this
      ensures Valid() && isPaused && frame == currentFrame
      ensures var target := ForwardTarget(old(frameNumber), n, old(totalFrames));
        && (target == old(frameNumber) ==> frameNumber == old(frameNumber) && position == old(position) && currentFrame == old(currentFrame))
        && (target != old(frameNumber) && hasCapture && captureOpened && totalFrames > 0 ==>
              frameNumber == SeekTarget(target, totalFrames))
      ensures totalFrames == old(totalFrames) && hasCapture == old(hasCapture) && captureOpened == old(captureOpened)
    {
      isPaused := true;
      var target := ForwardTarget(frameNumber, n, totalFrames);
      if target != frameNumber {
        var _ := SeekFrame(target);
      }
      frame := currentFrame;
    }

    /** step_backward: pauses, and seeks to max(frame - n, 0) only when that differs. */
    method StepBackward(n: int) returns (frame: Option<int>)
      requires Valid()
      modifies this
      ensures Valid() && isPaused && frame == currentFrame
      ensures var target := BackwardTarget(old(frameNumber), n);
        && (target == old(frameNumber) ==> frameNumber == old(frameNumber) && position == old(position) && currentFrame == old(currentFrame))
        && (target != old(frameNumber) && hasCapture && captureOpened && totalFrames > 0 ==>
              frameNumber == SeekTarget(target, totalFrames))
      ensures totalFrames == old(totalFrames) && hasCapture == old(hasCapture) && captureOpened == old(captureOpened)
    {
      isPaused := true;
      var target := BackwardTarget(frameNumber, n);
      if target != frameNumber {
        var _ := SeekFrame(target);
      }
      frame := currentFrame;
    }

    /** get_frame: paused, the held frame without reading; playing, the next frame once a frame
      * interval (1 / fps) has passed, wrapping to frame 0 at the end of the video. */
    method GetFrame(now: real) returns (frame: Option<int>)
      requires Valid()
      modifies this
      ensures Valid()
      ensures !old(hasCapture) ==> frame.None? && unchanged(this)
      ensures old(hasCapture) && old(isPaused) ==> frame == old(currentFrame) && unchanged(this)
      ensures old(hasCapture) && !old(isPaused) ==> frame == currentFrame && isPaused == old(isPaused)
      ensures old(hasCapture) && !old(isPaused) && now - old(lastFrameTime) < 1.0 / old(fps) ==> unchanged(this)
      ensures old(hasCapture) && !old(isPaused) && now - old(lastFrameTime) >= 1.0 / old(fps) ==>
        && lastFrameTime == now
        && (old(captureOpened && position < totalFrames) ==> frameNumber == old(position))
        && (old(position >= totalFrames) && captureOpened && totalFrames > 0 ==> frameNumber == 0 && currentFrame == Some(0))
    {
      if !hasCapture {
        return None;
      }
      if isPaused {
        return currentFrame;
      }
      var frameInterval := 1.0 / fps;
      if now - lastFrameTime >= frameInterval {
        var read := ReadNextFrame();
        if !read {
          var _ := SeekFrame(0);
        }
        lastFrameTime := now;
      }
      frame := currentFrame;
    }

    /** seek_percent: seek_frame at int((percent / 100) * total). */
    method SeekPercent(percent: real) returns (ok: bool)
      requires Valid()
      modifies this
      ensures Valid()
      ensures ok <==> IsOpen() && totalFrames > 0
      ensures ok ==> frameNumber == SeekTarget(PercentFrame(percent, totalFrames), totalFrames) && currentFrame == Some(frameNumber)
      ensures !ok ==> currentFrame == old(currentFrame) && frameNumber == old(frameNumber)
      ensures isPaused == old(isPaused) && totalFrames == old(totalFrames) && hasCapture == old(hasCapture)
      ensures captureOpened == old(captureOpened) && lastFrameTime == old(lastFrameTime) && fps == old(fps)
    {
      ok := SeekFrame(PercentFrame(percent, totalFrames));
    }

    /** get_metadata: the video's properties and its path. */
    function GetMetadata(): (m: Metadata)
      reads this
      ensures m.width == width && m.height == height && m.fps == fps
      ensures m.totalFrames == totalFrames && m.sourcePath == videoPath
    {
      Metadata(width, height, fps, totalFrames, videoPath)
    }

    /** is_open: a capture is held and it opened. */
    predicate IsOpen()
      reads this
    {
      hasCapture && captureOpened
    }

    /** get_progress_percent: 0 with no frames, else frame / total * 100. */
    function ProgressPercent(): (p: real)
      reads this
      ensures totalFrames == 0 ==> p == 0.0
      ensures 0 <= frameNumber < totalFrames ==> 0.0 <= p < 100.0
    {
      if totalFrames == 0 then 0.0 else frameNumber as real / totalFrames as real * 100.0
    }

    /** handle_video_key: the bound action is applied and (should_quit, action name) returned. */
    method HandleVideoKey(key: int, now: real) returns (shouldQuit: bool, name: Option<string>)
      requires Valid()
      modifies this
      ensures Valid()
      ensures shouldQuit <==> KeyBinding(key).Some? && KeyBinding(key).value.action == Quit
      ensures name == (if KeyBinding(key).Some? then Some(KeyBinding(key).value.name) else None)
      ensures KeyBinding(key).None? || KeyBinding(key).value.action == Quit ==> unchanged(this)
      ensures KeyBinding(key).Some? && KeyBinding(key).value.action.TogglePause? ==> isPaused == !old(isPaused)
      ensures KeyBinding(key).Some? && (KeyBinding(key).value.action.Forward? || KeyBinding(key).value.action.Backward?) ==> isPaused
    {
      match KeyBinding(key)
      case None =>
        return false, None;
      case Some(b) =>
        shouldQuit, name := b.action == Quit, Some(b.name);
        match b.action
        case Quit =>
        case TogglePause =>
          var _ := TogglePause(now);
        case Forward(n) =>
          var _ := StepForward(n);
        case Backward(n) =>
          var _ := StepBackward(n);
    }
  }
}
