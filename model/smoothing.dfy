/** The three-sample moving average of the detection centre used by the legacy Z trackers. */
module Smoothing {
  const WINDOW: nat := 3

  /** Appends a sample and drops the oldest when more than three are held. */
  function Push(history: seq<int>, cx: int): (h: seq<int>)
    ensures |history| <= WINDOW ==> |h| <= WINDOW
    ensures 1 <= |h| <= |history| + 1 && h[|h| - 1] == cx
    ensures h == (history + [cx])[|history| + 1 - |h|..]
    ensures |history| < WINDOW ==> h == history + [cx]
  {
    var appended := history + [cx];
    if |appended| > WINDOW as int then appended[1..] else appended
  }

  function Sum(s: seq<int>): int {
    if s == [] then 0 else Sum(s[..|s| - 1]) + s[|s| - 1]
  }

  /** sum(history) / len(history). */
  function Mean(s: seq<int>): real
    requires s != []
  {
    Sum(s) as real / |s| as real
  }
}
