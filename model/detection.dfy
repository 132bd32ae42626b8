/**
 * YoloModel/Detection.py: picking the most confident person box out of one set of detector
 * outputs. The detector itself is not modelled: its boxes are the input.
 */
module Detection {
  import opened Wrappers
  import opened PyInt

  const CONF_THRESH: real := 0.4
  const PERSON_CLASS: int := 0

  /** One detector output: corners as floats, class id and confidence as floats. */
  datatype Box = Box(x1: real, y1: real, x2: real, y2: real, cls: real, conf: real)

  /** What detect_human returns: presence, center, integer box, confidence. */
  datatype Outcome = Outcome(present: bool, center: Option<(int, int)>, bbox: Option<(int, int, int, int)>, confidence: real)

  const NotFound: Outcome := Outcome(false, None, None, 0.0)

  /** A box the loop considers: class 0 and confidence not below the threshold. */
  predicate Qualifies(b: Box) {
    TruncToZero(b.cls) == PERSON_CLASS && !(b.conf < CONF_THRESH)
  }

  function IntBox(b: Box): (int, int, int, int) {
    (TruncToZero(b.x1), TruncToZero(b.y1), TruncToZero(b.x2), TruncToZero(b.y2))
  }

  /** The integer midpoint, with floor division. */
  function Midpoint(bb: (int, int, int, int)): (c: (int, int))
    ensures bb.0 <= bb.2 ==> bb.0 <= c.0 <= bb.2
    ensures bb.1 <= bb.3 ==> bb.1 <= c.1 <= bb.3
  {
    ((bb.0 + bb.2) / 2, (bb.1 + bb.3) / 2)
  }

  function Found(b: Box): Outcome {
    Outcome(true, Some(Midpoint(IntBox(b))), Some(IntBox(b)), b.conf)
  }

  /** Box k is a qualifying box of greatest confidence among the first n, and no earlier
    * qualifying box ties with it. */
  predicate FirstBestIn(bs: seq<Box>, n: int, k: int)
    requires 0 <= n <= |bs|
  {
    && 0 <= k < n && Qualifies(bs[k])
    && (forall j :: 0 <= j < n && Qualifies(bs[j]) ==> bs[j].conf <= bs[k].conf)
    && (forall j :: 0 <= j < k && Qualifies(bs[j]) ==> bs[j].conf < bs[k].conf)
  }

  predicate AnyQualifies(bs: seq<Box>) {
    exists j :: 0 <= j < |bs| && Qualifies(bs[j])
  }

  /** detect_human, after the detector: no boxes or no qualifying box gives the failure tuple;
    * otherwise the first most confident qualifying box, its integer corners and midpoint. */
  method DetectHuman(boxes: Option<seq<Box>>) returns (r: Outcome)
    ensures boxes.None? ==> r == NotFound
    ensures boxes.Some? && !AnyQualifies(boxes.value) ==> r == NotFound
    ensures boxes.Some? && AnyQualifies(boxes.value) ==>
      exists k :: FirstBestIn(boxes.value, |boxes.value|, k) && r == Found(boxes.value[k])
  {
    if boxes.None? {
      return NotFound;
    }
    var bs := boxes.value;
    var bestConf := 0.0;
    var bestIdx: Option<int> := None;
    for i := 0 to |bs|
      invariant bestIdx.None? ==> bestConf == 0.0 && forall j :: 0 <= j < i ==> !Qualifies(bs[j])
      invariant bestIdx.Some? ==> FirstBestIn(bs, i, bestIdx.value) && bestConf == bs[bestIdx.value].conf
    {
      if TruncToZero(bs[i].cls) != PERSON_CLASS || bs[i].conf < CONF_THRESH {
        continue;
      }
      if bs[i].conf > bestConf {
        bestConf := bs[i].conf;
        bestIdx := Some(i);
      }
    }
    if bestIdx.None? {
      return NotFound;
    }
    r := Found(bs[bestIdx.value]);
  }

  /** The selected box is determined by the input: only one index is first among the best. */
  lemma FirstBestUnique(bs: seq<Box>, k1: int, k2: int)
    requires FirstBestIn(bs, |bs|, k1) && FirstBestIn(bs, |bs|, k2)
    ensures k1 == k2
  {
  }

  /** A reported person was a qualifying box: confident enough, and its center lies in its box
    * whenever the corners are ordered. */
  lemma FoundIsPerson(bs: seq<Box>, k: int)
    requires FirstBestIn(bs, |bs|, k)
    ensures Found(bs[k]).present && Found(bs[k]).confidence >= CONF_THRESH
    ensures TruncToZero(bs[k].cls) == PERSON_CLASS
    ensures var bb := IntBox(bs[k]); var c := Found(bs[k]).center.value;
      bb.0 <= bb.2 && bb.1 <= bb.3 ==> bb.0 <= c.0 <= bb.2 && bb.1 <= c.1 <= bb.3
  {
  }
}

/**
 * YoloModel/yolov8.py: the same selection (its detect_human is the same loop with the same
 * threshold), behind a camera read that can fail.
 */
module Yolov8 {
  import Detection
  import opened Wrappers

  /** detect_human_live: a failed read gives the failure tuple without running detection. */
  method DetectHumanLive(readOk: bool, boxes: Option<seq<Detection.Box>>) returns (r: Detection.Outcome)
    ensures !readOk ==> r == Detection.NotFound
    ensures readOk && (boxes.None? || !Detection.AnyQualifies(boxes.value)) ==> r == Detection.NotFound
    ensures readOk && boxes.Some? && Detection.AnyQualifies(boxes.value) ==>
      exists k :: Detection.FirstBestIn(boxes.value, |boxes.value|, k) && r == Detection.Found(boxes.value[k])
  {
    if !readOk {
      return Detection.NotFound;
    }
    r := Detection.DetectHuman(boxes);
  }
}
