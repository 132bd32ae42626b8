/**
 * The distance model of Distance/Model.py: four interpolation arrays, loaded together from
 * calibration points and read by get_distance and get_y through numpy's interp.
 */
module DistanceModel {
  import opened Wrappers
  import opened Sorting
  import opened DistanceFromJson

  predicate Ascending(xs: seq<real>) {
    forall i, j :: 0 <= i < j < |xs| ==> xs[i] <= xs[j]
  }

  /** numpy's slope form on one bracket: (f1 - f0) / (x1 - x0) * (x - x0) + f0. */
  function Segment(x: real, x0: real, f0: real, x1: real, f1: real): real
    requires x0 < x1
  {
    (f1 - f0) / (x1 - x0) * (x - x0) + f0
  }

  /** The bracket search of np.interp for xp[0] <= x < xp[last]: the first j with x < xp[j + 1]. */
  function InteriorScan(x: real, xp: seq<real>, fp: seq<real>): real
    requires |xp| == |fp| >= 2 && xp[0] <= x < xp[|xp| - 1]
    decreases |xp|
  {
    if x < xp[1] then Segment(x, xp[0], fp[0], xp[1], fp[1])
    else InteriorScan(x, xp[1..], fp[1..])
  }

  /** np.interp(x, xp, fp): the end values are held outside [xp[0], xp[last]]. */
  function Interp(x: real, xp: seq<real>, fp: seq<real>): real
    requires |xp| == |fp| >= 1
  {
    if x < xp[0] then fp[0]
    else if x >= xp[|xp| - 1] then fp[|fp| - 1]
    else InteriorScan(x, xp, fp)
  }

  lemma SegmentBetween(x: real, x0: real, f0: real, x1: real, f1: real)
    requires x0 <= x <= x1 && x0 < x1
    ensures Between(Segment(x, x0, f0, x1, f1), f0, f1)
    ensures x == x0 ==> Segment(x, x0, f0, x1, f1) == f0
    ensures x == x1 ==> Segment(x, x0, f0, x1, f1) == f1
  {
    var slope := (f1 - f0) / (x1 - x0);
    assert slope * (x1 - x0) == f1 - f0;
    var u := x - x0;
    assert 0.0 <= u <= x1 - x0;
    if slope >= 0.0 {
      assert 0.0 <= slope * u <= slope * (x1 - x0);
    } else {
      assert slope * (x1 - x0) <= slope * u <= 0.0;
    }
  }

  /** Inside the sampled range the interpolant lies on the segment of two adjacent samples that
    * enclose x: it equals numpy's slope form there and lies between their values. */
  lemma {:induction false} ScanOnSegment(x: real, xp: seq<real>, fp: seq<real>)
    requires |xp| == |fp| >= 2 && Ascending(xp) && xp[0] <= x < xp[|xp| - 1]
    ensures exists j :: (0 <= j < |xp| - 1 && xp[j] <= x < xp[j + 1]
      && InteriorScan(x, xp, fp) == Segment(x, xp[j], fp[j], xp[j + 1], fp[j + 1])
      && Between(InteriorScan(x, xp, fp), fp[j], fp[j + 1]))
  {
    if x < xp[1] {
      SegmentBetween(x, xp[0], fp[0], xp[1], fp[1]);
      assert 0 < |xp| - 1 && xp[0] <= x < xp[1];
    } else {
      var xs, fs := xp[1..], fp[1..];
      assert Ascending(xs) by {
        forall i, j | 0 <= i < j < |xs| ensures xs[i] <= xs[j] {
          assert xs[i] == xp[i + 1] && xs[j] == xp[j + 1];
        }
      }
      ScanOnSegment(x, xs, fs);
      var j :| 0 <= j < |xs| - 1 && xs[j] <= x < xs[j + 1]
        && InteriorScan(x, xs, fs) == Segment(x, xs[j], fs[j], xs[j + 1], fs[j + 1])
        && Between(InteriorScan(x, xs, fs), fs[j], fs[j + 1]);
      assert xp[j + 1] == xs[j] && xp[j + 2] == xs[j + 1] && fp[j + 1] == fs[j] && fp[j + 2] == fs[j + 1];
    }
  }

  /** Within the calibrated range, the interpolant lies between two adjacent samples that bracket x. */
  lemma InterpInRange(x: real, xp: seq<real>, fp: seq<real>)
    requires |xp| == |fp| >= 2 && Ascending(xp) && xp[0] <= x <= xp[|xp| - 1]
    ensures exists j :: (0 <= j < |xp| - 1 && xp[j] <= x <= xp[j + 1]
      && Between(Interp(x, xp, fp), fp[j], fp[j + 1]))
  {
    var last := |xp| - 1;
    if x >= xp[last] {
      assert xp[last - 1] <= x <= xp[last] && Between(Interp(x, xp, fp), fp[last - 1], fp[last]);
    } else {
      ScanOnSegment(x, xp, fp);
    }
  }

  /** With strictly increasing samples the interpolant passes through every sample. */
  lemma {:induction false} InterpAtSample(xp: seq<real>, fp: seq<real>, k: int)
    requires |xp| == |fp| >= 1 && 0 <= k < |xp|
    requires forall i, j :: 0 <= i < j < |xp| ==> xp[i] < xp[j]
    ensures Interp(xp[k], xp, fp) == fp[k]
  {
    if 0 < k || |xp| > 1 {
      if k < |xp| - 1 {
        ScanOnSegment(xp[k], xp, fp);
        var j :| 0 <= j < |xp| - 1 && xp[j] <= xp[k] < xp[j + 1]
          && InteriorScan(xp[k], xp, fp) == Segment(xp[k], xp[j], fp[j], xp[j + 1], fp[j + 1]);
        assert j == k;
        SegmentBetween(xp[k], xp[j], fp[j], xp[j + 1], fp[j + 1]);
      }
    }
  }

  function RowKey(p: CalPoint): real { p.0 as real }

  function DistanceKey(p: CalPoint): real { p.1 }

  /** The points ordered by pixel row (for get_distance) and by distance (for get_y); both stable. */
  function ByRow(data: seq<CalPoint>): seq<CalPoint> { SortBy(data, RowKey) }

  function ByDistance(data: seq<CalPoint>): seq<CalPoint> { SortBy(data, DistanceKey) }

  /** What load_model stores for get_distance: the rows ascending, each paired with its own
    * distance, every input point used exactly once. */
  lemma RowArraysSorted(data: seq<CalPoint>)
    ensures var ps := ByRow(data);
      && |Rows(ps)| == |Distances(ps)| == |data|
      && Ascending(Rows(ps))
      && multiset(ps) == multiset(data)
      && forall i :: 0 <= i < |ps| ==> (ps[i].0 as real, ps[i].1) == (Rows(ps)[i], Distances(ps)[i])
  {
    SortBySorted(data, RowKey);
  }

  /** What load_model stores for get_y: the distances ascending, each paired with its own row. */
  lemma DistanceArraysSorted(data: seq<CalPoint>)
    ensures var ps := ByDistance(data);
      && |Distances(ps)| == |Rows(ps)| == |data|
      && Ascending(Distances(ps))
      && multiset(ps) == multiset(data)
  {
    SortBySorted(data, DistanceKey);
  }

  /** get_distance after a load, as a function of the loaded points. */
  function DistanceAt(data: seq<CalPoint>, y: real): real
    requires |data| >= 2
  {
    var ps := ByRow(data);
    Interp(y, Rows(ps), Distances(ps))
  }

  /** Within the calibrated rows, get_distance interpolates between two adjacent calibration points
    * whose rows enclose y. */
  lemma DistanceInterpolates(data: seq<CalPoint>, y: real)
    requires |data| >= 2
    requires var ys := Rows(ByRow(data)); ys[0] <= y <= ys[|ys| - 1]
    ensures var ps := ByRow(data);
      exists j :: (0 <= j < |ps| - 1 && ps[j].0 as real <= y <= ps[j + 1].0 as real
        && Between(DistanceAt(data, y), ps[j].1, ps[j + 1].1))
  {
    RowArraysSorted(data);
    var ps := ByRow(data);
    InterpInRange(y, Rows(ps), Distances(ps));
  }

  /** Two points of the row-sorted list whose distances enclose get_distance's result. */
  lemma SortedBracket(data: seq<CalPoint>, y: real) returns (a: int, b: int)
    requires |data| >= 2
    ensures 0 <= a < |ByRow(data)| && 0 <= b < |ByRow(data)|
    ensures Between(DistanceAt(data, y), ByRow(data)[a].1, ByRow(data)[b].1)
  {
    var ps := ByRow(data);
    var ys := Rows(ps);
    if y < ys[0] {
      a, b := 0, 0;
    } else if y > ys[|ys| - 1] {
      a, b := |ps| - 1, |ps| - 1;
    } else {
      DistanceInterpolates(data, y);
      var k :| 0 <= k < |ps| - 1 && ps[k].0 as real <= y <= ps[k + 1].0 as real
        && Between(DistanceAt(data, y), ps[k].1, ps[k + 1].1);
      a, b := k, k + 1;
    }
  }

  /** get_distance never extrapolates: for any y, above, below or inside the calibrated rows, the
    * result lies between the distances of two calibration points. */
  lemma NoExtrapolation(data: seq<CalPoint>, y: real)
    requires |data| >= 2
    ensures exists i, j :: (0 <= i < |data| && 0 <= j < |data| && Between(DistanceAt(data, y), data[i].1, data[j].1))
  {
    var ps := ByRow(data);
    var a, b := SortedBracket(data, y);
    assert multiset(ps) == multiset(data);
    assert ps[a] in multiset(data) && ps[b] in multiset(data);
    var i :| 0 <= i < |data| && data[i] == ps[a];
    var j :| 0 <= j < |data| && data[j] == ps[b];
  }

  /** Rows of a row-ordered list without repeated rows strictly increase. */
  lemma StrictRows(ps: seq<CalPoint>)
    requires DistinctKeys(ps, RowKey) && Ascending(Rows(ps))
    ensures forall i, j :: 0 <= i < j < |Rows(ps)| ==> Rows(ps)[i] < Rows(ps)[j]
  {
    var ys := Rows(ps);
    forall i, j | 0 <= i < j < |ys| ensures ys[i] < ys[j] {
      assert RowKey(ps[i]) != RowKey(ps[j]);
    }
  }

  /** On a row-ordered list without repeated rows, the interpolant at a point's row is its distance. */
  lemma SortedRowExact(ps: seq<CalPoint>, m: int)
    requires 0 <= m < |ps| && DistinctKeys(ps, RowKey) && Ascending(Rows(ps))
    ensures Interp(ps[m].0 as real, Rows(ps), Distances(ps)) == ps[m].1
  {
    StrictRows(ps);
    InterpAtSample(Rows(ps), Distances(ps), m);
  }

  lemma IndexOf(ps: seq<CalPoint>, p: CalPoint) returns (m: int)
    requires p in multiset(ps)
    ensures 0 <= m < |ps| && ps[m] == p
  {
    m :| 0 <= m < |ps| && ps[m] == p;
  }

  /** With distinct rows, get_distance at a calibrated row returns that point's distance. */
  lemma DistanceAtCalibratedRow(data: seq<CalPoint>, k: int)
    requires |data| >= 2 && DistinctRows(data) && 0 <= k < |data|
    ensures DistanceAt(data, data[k].0 as real) == data[k].1
  {
    var ps := ByRow(data);
    RowArraysSorted(data);
    assert DistinctKeys(data, RowKey);
    DistinctKeysOfPermutation(data, ps, RowKey);
    assert data[k] in multiset(data);
    var m := IndexOf(ps, data[k]);
    SortedRowExact(ps, m);
  }

  /** The module globals of Distance/Model.py; None until the first successful load. */
  class Model {
    var interpY: Option<seq<real>>
    var interpDistFromY: Option<seq<real>>
    var interpDist: Option<seq<real>>
    var interpYFromDist: Option<seq<real>>

    /** Each query pair is present together, with equal lengths of at least two. */
    ghost predicate Valid()
      reads this
    {
      && (interpY.Some? <==> interpDistFromY.Some?)
      && (interpY.Some? ==> |interpY.value| == |interpDistFromY.value| >= 2)
      && (interpDist.Some? <==> interpYFromDist.Some?)
      && (interpDist.Some? ==> |interpDist.value| == |interpYFromDist.value| >= 2)
    }

    constructor ()
      ensures Valid() && interpY.None? && interpDistFromY.None? && interpDist.None? && interpYFromDist.None?
    {
      interpY, interpDistFromY, interpDist, interpYFromDist := None, None, None, None;
    }

    /** load_model: fewer than two points is a ValueError and leaves the model as it was; otherwise
      * all four arrays are replaced from the new points alone. */
    method LoadModel(data: seq<CalPoint>) returns (r: Result<()>)
      requires Valid()
      modifies this
      ensures Valid()
      ensures r.Err? <==> |data| < 2
      ensures r.Err? ==> r.error == ValueError && unchanged(this)
      ensures r.Ok? ==>
        && interpDist == Some(Distances(ByDistance(data))) && interpYFromDist == Some(Rows(ByDistance(data)))
        && interpY == Some(Rows(ByRow(data))) && interpDistFromY == Some(Distances(ByRow(data)))
    {
      if |data| < 2 {
        return Err(ValueError);
      }
      var byDist := ByDistance(data);
      interpDist := Some(Distances(byDist));
      interpYFromDist := Some(Rows(byDist));
      var byRow := ByRow(data);
      interpY := Some(Rows(byRow));
      interpDistFromY := Some(Distances(byRow));
      r := Ok(());
    }

    /** get_distance: RuntimeError before any load, else np.interp over the row arrays. */
    function GetDistance(y: real): (r: Result<real>)
      requires Valid()
      reads this
      ensures r.Err? <==> interpY.None?
      ensures r.Err? ==> r.error == RuntimeError
      ensures r.Ok? ==> r.value == Interp(y, interpY.value, interpDistFromY.value)
    {
      if interpY.None? then Err(RuntimeError) else Ok(Interp(y, interpY.value, interpDistFromY.value))
    }

    /** get_y: RuntimeError before any load, else np.interp over the distance arrays. */
    function GetY(distance: real): (r: Result<real>)
      requires Valid()
      reads this
      ensures r.Err? <==> interpDist.None?
      ensures r.Err? ==> r.error == RuntimeError
      ensures r.Ok? ==> r.value == Interp(distance, interpDist.value, interpYFromDist.value)
    {
      if interpDist.None? then Err(RuntimeError) else Ok(Interp(distance, interpDist.value, interpYFromDist.value))
    }
  }
}
