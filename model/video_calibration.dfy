/**
 * Distance/Calibration.py: the VideoCalibrator's captured points, zoom state and save, and the
 * validation of a new calibration's setup answers.
 */
module VideoCalibration {
  import opened Wrappers
  import opened PyInt
  import opened DistanceFromJson
  import Storage
  import VideoHandler

  /** The zoom factors offered, in order. */
  const ZOOM_LEVELS: seq<real> := [1.0, 2.0, 3.0, 4.0]

  datatype MouseEvent = MouseMove | LeftButtonDown | RightButtonDown | OtherEvent

  /** One side of the zoomed view: its length int(side / zoom) and its start, centred on `center`
    * as far as the frame allows. */
  function ZoomWindow(center: int, side: int, zoom: real): (w: (int, int))
    requires zoom >= 1.0 && side >= 0
    ensures var (start, view) := w; 0 <= view <= side && start + view <= side
    ensures var (start, view) := w; start >= 0
  {
    ShrinkWithin(side as real, zoom);
    var view := TruncToZero(side as real / zoom);
    var start := if center - view / 2 > 0 then center - view / 2 else 0;
    if start + view > side then (side - view, view) else (start, view)
  }

  lemma ShrinkWithin(side: real, zoom: real)
    requires side >= 0.0 && zoom >= 1.0
    ensures 0.0 <= side / zoom <= side
  {
    var q := side / zoom;
    assert q * zoom == side;
    assert q * (zoom - 1.0) >= 0.0 by {
      assert q >= 0.0;
    }
  }

  /** _display_to_original (and the mouse callback's unzoomed branch): display pixels to frame
    * pixels through the display scale and, when zoomed, through the crop window. */
  function DisplayToOriginal(x: int, y: int, scale: real, zoom: real, center: Option<(int, int)>,
                             frameHeight: int, frameWidth: int): (p: (int, int))
    requires scale > 0.0 && zoom >= 1.0 && frameHeight >= 0 && frameWidth >= 0
  {
    if zoom <= 1.0 || center.None? then (TruncToZero(x as real / scale), TruncToZero(y as real / scale))
    else
      var (x1, _) := ZoomWindow(center.value.0, frameWidth, zoom);
      var (y1, _) := ZoomWindow(center.value.1, frameHeight, zoom);
      var cropX := TruncToZero(x as real / scale);
      var cropY := TruncToZero(y as real / scale);
      (x1 + TruncToZero(cropX as real / zoom), y1 + TruncToZero(cropY as real / zoom))
  }

  /** Unzoomed at scale 1 a click lands on the same pixel; zoomed, the display's top-left corner is
    * the crop window's top-left corner. */
  lemma DisplayToOriginalCorners(x: int, y: int, zoom: real, center: Option<(int, int)>, h: int, w: int)
    requires zoom >= 1.0 && h >= 0 && w >= 0
    ensures zoom == 1.0 || center.None? ==> DisplayToOriginal(x, y, 1.0, zoom, center, h, w) == (x, y)
    ensures zoom > 1.0 && center.Some? ==>
      DisplayToOriginal(0, 0, 1.0, zoom, center, h, w) == (ZoomWindow(center.value.0, w, zoom).0, ZoomWindow(center.value.1, h, zoom).0)
  {
    assert TruncToZero(x as real) == x && TruncToZero(y as real) == y;
    assert TruncToZero(0.0) == 0;
    if zoom > 1.0 && center.Some? {
      assert 0.0 / zoom == 0.0;
    }
  }

  predicate Increasing(ds: seq<real>) {
    forall i, j :: 0 <= i < j < |ds| ==> ds[i] < ds[j]
  }

  predicate AllParsed(entries: seq<Option<real>>) {
    forall i :: 0 <= i < |entries| ==> entries[i].Some?
  }

  function Values(entries: seq<Option<real>>): (vs: seq<real>)
    requires AllParsed(entries)
    ensures |vs| == |entries| && forall i :: 0 <= i < |entries| ==> vs[i] == entries[i].value
  {
    if entries == [] then [] else [entries[0].value] + Values(entries[1..])
  }

  lemma ExtendIncreasing(ds: seq<real>, x: real)
    requires Increasing(ds) && (ds != [] ==> ds[|ds| - 1] < x)
    ensures Increasing(ds + [x])
  {
    var es := ds + [x];
    forall i, j | 0 <= i < j < |es| ensures es[i] < es[j] {
      if j == |ds| && i < |ds| - 1 {
        assert ds[i] < ds[|ds| - 1];
      }
    }
  }

  lemma ExtendValues(entries: seq<Option<real>>, x: real)
    requires AllParsed(entries)
    ensures AllParsed(entries + [Some(x)]) && Values(entries + [Some(x)]) == Values(entries) + [x]
  {
    var es := entries + [Some(x)];
    assert forall i :: 0 <= i < |es| ==> es[i].Some? by {
      forall i | 0 <= i < |es| ensures es[i].Some? {
        if i < |entries| { assert es[i] == entries[i]; }
      }
    }
    var vs := Values(es);
    assert vs == Values(entries) + [x];
  }

  /** The distance prompts: each answer must parse and exceed the previous one; the first failure
    * ends the setup. `entries[i]` is the i-th answer as float() reads it (None if it does not). */
  method ReadDistances(entries: seq<Option<real>>, n: int) returns (r: Option<seq<real>>)
    requires 0 <= n <= |entries|
    ensures r.Some? <==> AllParsed(entries[..n]) && Increasing(Values(entries[..n]))
    ensures r.Some? ==> r.value == Values(entries[..n])
  {
    var distances: seq<real> := [];
    var i := 0;
    while i < n
      invariant 0 <= i <= n
      invariant AllParsed(entries[..i]) && distances == Values(entries[..i]) && Increasing(distances)
    {
      if entries[i].None? {
        assert !AllParsed(entries[..n]) by { assert entries[..n][i] == entries[i]; }
        return None;
      }
      var dist := entries[i].value;
      if distances != [] && dist <= distances[|distances| - 1] {
        assert !(AllParsed(entries[..n]) && Increasing(Values(entries[..n]))) by {
          if AllParsed(entries[..n]) {
            var vs := Values(entries[..n]);
            assert entries[..n][i - 1] == entries[i - 1] && entries[..n][i] == entries[i];
            assert vs[i - 1] == distances[i - 1] && vs[i] == dist;
          }
        }
        return None;
      }
      assert entries[..i + 1] == entries[..i] + [entries[i]];
      ExtendIncreasing(distances, dist);
      ExtendValues(entries[..i], dist);
      distances := distances + [dist];
      i := i + 1;
    }
    assert entries[..n] == entries[..i];
    r := Some(distances);
  }

  /** A new calibration's settings, once every answer is accepted. */
  datatype Setup = Setup(name: string, videoPath: string, zoomLabel: string, distances: seq<real>)

  /** run_video_calibration's questions, answers already stripped: a non-empty name, an existing
    * video, a zoom label ("default" if blank), at least two points, increasing distances, and a
    * "y" to proceed. */
  method ValidateSetup(name: string, videoPath: string, videoExists: bool, zoomLabel: string,
                       numPoints: Option<int>, entries: seq<Option<real>>, confirm: string)
    returns (r: Option<Setup>)
    requires numPoints.Some? && numPoints.value >= 2 ==> |entries| >= numPoints.value
    ensures r.Some? <==> (name != [] && videoExists && numPoints.Some? && numPoints.value >= 2
      && AllParsed(entries[..numPoints.value]) && Increasing(Values(entries[..numPoints.value]))
      && (confirm == "y" || confirm == "Y"))
    ensures r.Some? ==> (&& r.value.name == name && r.value.videoPath == videoPath
      && r.value.zoomLabel == (if zoomLabel == [] then "default" else zoomLabel)
      && |r.value.distances| == numPoints.value >= 2 && Increasing(r.value.distances))
  {
    if name == [] || !videoExists {
      return None;
    }
    var chosenLabel := if zoomLabel == [] then "default" else zoomLabel;
    if numPoints.None? || numPoints.value < 2 {
      return None;
    }
    var distances := ReadDistances(entries, numPoints.value);
    if distances.None? || !(confirm == "y" || confirm == "Y") {
      return None;
    }
    r := Some(Setup(name, videoPath, chosenLabel, distances.value));
  }

  /** VideoCalibrator: clicks capture (pixel row, distance) pairs in the order of `distances`;
    * right-click and the zoom keys walk the zoom levels. */
  class Calibrator {
    const name: string
    const videoPath: string
    const zoomLabel: string
    const distances: seq<real>
    var points: seq<CalPoint>
    var distanceIdx: int
    var lastClick: Option<(int, int)>
    var mousePos: Option<(int, int)>
    var displayScale: real
    var zoomLevel: real
    var zoomCenter: Option<(int, int)>
    var zoomIdx: int
    var frameHeight: int
    var frameWidth: int

    /** One point per captured distance, each carrying its distance; the zoom level is the
      * indexed one, and there is a zoom centre exactly when zoomed. */
    ghost predicate Valid()
      reads this
    {
      && |points| == distanceIdx <= |distances|
      && (forall i :: 0 <= i < |points| ==> points[i].1 == distances[i])
      && 0 <= zoomIdx < |ZOOM_LEVELS| && zoomLevel == ZOOM_LEVELS[zoomIdx]
      && (zoomCenter.None? <==> zoomIdx == 0)
      && displayScale > 0.0 && frameHeight >= 0 && frameWidth >= 0
    }

    constructor (calibrationName: string, path: string, zoom: string, ds: seq<real>, h: int, w: int)
      requires h >= 0 && w >= 0
      ensures Valid() && name == calibrationName && videoPath == path && zoomLabel == zoom && distances == ds
      ensures points == [] && zoomIdx == 0 && zoomCenter.None? && displayScale == 1.0
    {
      name, videoPath, zoomLabel, distances := calibrationName, path, zoom, ds;
      points, distanceIdx := [], 0;
      lastClick, mousePos := None, None;
      displayScale := 1.0;
      zoomLevel, zoomCenter, zoomIdx := 1.0, None, 0;
      frameHeight, frameWidth := h, w;
    }

    /** Each displayed frame records the frame size and the display scale chosen for it. */
    method ShowFrame(h: int, w: int, scale: real)
      requires Valid() && h >= 0 && w >= 0 && scale > 0.0
      modifies this
      ensures Valid() && frameHeight == h && frameWidth == w && displayScale == scale
      ensures points == old(points) && zoomIdx == old(zoomIdx) && zoomCenter == old(zoomCenter)
    {
      frameHeight, frameWidth, displayScale := h, w, scale;
    }

    /** _mouse_callback */
    method MouseCallback(event: MouseEvent, x: int, y: int)
      requires Valid()
      modifies this
      ensures Valid()
      ensures var p := DisplayToOriginal(x, y, old(displayScale), old(zoomLevel), old(zoomCenter), frameHeight, frameWidth);
        && (event == MouseMove ==> mousePos == Some(p) && points == old(points) && zoomIdx == old(zoomIdx))
        && (event == LeftButtonDown && old(distanceIdx) < |distances| ==>
              points == old(points) + [(p.1, distances[old(distanceIdx)])] && lastClick == Some(p))
        && (event == LeftButtonDown && old(distanceIdx) >= |distances| ==> points == old(points))
        && (event == RightButtonDown ==> (zoomCenter == Some(p) && points == old(points)
              && zoomIdx == (if old(zoomLevel) == 1.0 then 1 else old(zoomIdx))))
        && (event == OtherEvent ==> points == old(points) && zoomIdx == old(zoomIdx) && zoomCenter == old(zoomCenter))
    {
      var p := DisplayToOriginal(x, y, displayScale, zoomLevel, zoomCenter, frameHeight, frameWidth);
      match event
      case MouseMove =>
        mousePos := Some(p);
      case LeftButtonDown =>
        if distanceIdx < |distances| {
          points := points + [(p.1, distances[distanceIdx])];
          distanceIdx := distanceIdx + 1;
          lastClick := Some(p);
        }
      case RightButtonDown =>
        if zoomLevel == 1.0 {
          zoomCenter := Some(p);
          zoomIdx := 1;
          zoomLevel := ZOOM_LEVELS[zoomIdx];
        } else {
          zoomCenter := Some(p);
        }
      case OtherEvent =>
    }

    /** _handle_undo: drops the last point, if any. */
    method HandleUndo()
      requires Valid()
      modifies this
      ensures Valid()
      ensures old(points) == [] ==> points == [] && distanceIdx == old(distanceIdx)
      ensures old(points) != [] ==> points == old(points)[..|old(points)| - 1]
      ensures zoomIdx == old(zoomIdx) && zoomCenter == old(zoomCenter)
    {
      if points != [] {
        points := points[..|points| - 1];
        distanceIdx := distanceIdx - 1;
      }
    }

    /** _zoom_in: centres on the frame when there is no centre, then goes up a level if one remains. */
    method ZoomIn()
      requires Valid()
      modifies this
      ensures Valid() && points == old(points)
      ensures zoomIdx == (if old(zoomIdx) < |ZOOM_LEVELS| - 1 then old(zoomIdx) + 1 else old(zoomIdx))
      ensures zoomCenter == (if old(zoomCenter).None? then Some((frameWidth / 2, frameHeight / 2)) else old(zoomCenter))
    {
      if zoomCenter.None? {
        zoomCenter := Some((frameWidth / 2, frameHeight / 2));
      }
      if zoomIdx < |ZOOM_LEVELS| - 1 {
        zoomIdx := zoomIdx + 1;
        zoomLevel := ZOOM_LEVELS[zoomIdx];
      }
    }

    /** _zoom_out: down a level if above the first; reaching 1x forgets the centre. */
    method ZoomOut()
      requires Valid()
      modifies this
      ensures Valid() && points == old(points)
      ensures zoomIdx == (if old(zoomIdx) > 0 then old(zoomIdx) - 1 else 0)
      ensures zoomIdx > 0 ==> zoomCenter == old(zoomCenter)
    {
      if zoomIdx > 0 {
        zoomIdx := zoomIdx - 1;
        zoomLevel := ZOOM_LEVELS[zoomIdx];
        if zoomLevel == 1.0 {
          zoomCenter := None;
        }
      }
    }

    /** _zoom_reset */
    method ZoomReset()
      requires Valid()
      modifies this
      ensures Valid() && points == old(points)
      ensures zoomIdx == 0 && zoomLevel == 1.0 && zoomCenter.None?
    {
      zoomIdx, zoomLevel, zoomCenter := 0, 1.0, None;
    }

    /** _handle_save: fewer than two points refuses; otherwise create_calibration with the video's
      * metadata and distances[:len(points)], which are exactly the points' distances. */
    method HandleSave(file: Storage.CalibrationFile, video: VideoHandler.Handler, now: string, writeOk: bool)
      returns (ok: bool)
      requires Valid() && file.Valid()
      modifies file
      ensures file.Valid()
      ensures |points| < 2 ==> !ok && file.contents == old(file.contents)
      ensures |points| >= 2 ==> (ok == writeOk && distances[..|points|] == Distances(points)
        && file.contents == if writeOk then Storage.Stored(Storage.Create(old(Storage.Load(file.contents, now)), name,
             Storage.Metadata("video", Some(video.videoPath), Some(video.width), Some(video.height),
                              Some(video.fps), Some(video.totalFrames), zoomLabel),
             distances[..|points|], points, now)) else old(file.contents))
    {
      if |points| < 2 {
        return false;
      }
      var metadata := Storage.Metadata("video", Some(video.videoPath), Some(video.width), Some(video.height),
                                       Some(video.fps), Some(video.totalFrames), zoomLabel);
      assert distances[..|points|] == Distances(points);
      ok := file.CreateCalibration(name, metadata, distances[..|points|], points, now, writeOk);
    }
  }
}
