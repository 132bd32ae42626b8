/**
 * distance_from_y (Distance/DistanceFromJSON.py): clamped piecewise-linear interpolation
 * of a ground distance (feet) from a pixel row over a list of (pixel row, distance)
 * calibration points.
 */
module DistanceFromJson {
  import opened Wrappers
  import opened Sorting

  type CalPoint = (int, real)

  /** [p[0] for p in points]: the pixel rows. */
  function Rows(ps: seq<CalPoint>): (ys: seq<real>)
    ensures |ys| == |ps| && forall i :: 0 <= i < |ps| ==> ys[i] == ps[i].0 as real
  {
    if ps == [] then [] else [ps[0].0 as real] + Rows(ps[1..])
  }

  /** [p[1] for p in points]: the distances. */
  function Distances(ps: seq<CalPoint>): (ds: seq<real>)
    ensures |ds| == |ps| && forall i :: 0 <= i < |ps| ==> ds[i] == ps[i].1
  {
    if ps == [] then [] else [ps[0].1] + Distances(ps[1..])
  }

  function Row(p: CalPoint): real { p.0 as real }

  function NegRow(p: CalPoint): real { -(p.0 as real) }

  /** sorted(calibration, key=row, reverse=True): rows descending, ties in input order. */
  function SortedDescending(calibration: seq<CalPoint>): (calib: seq<CalPoint>)
    ensures |calib| == |calibration| && multiset(calib) == multiset(calibration)
    ensures forall i, j :: 0 <= i < j < |calib| ==> calib[i].0 >= calib[j].0
  {
    SortBySorted(calibration, NegRow);
    SortBy(calibration, NegRow)
  }

  /** v lies on the straight line through (y1, d1) and (y2, d2) at row y. */
  predicate OnLine(v: real, y: int, y1: int, d1: real, y2: int, d2: real) {
    (v - d2) * (y1 - y2) as real == (y - y2) as real * (d1 - d2)
  }

  /** Multiplying back by the divisor: (t * d) * w == u * d when t = u / w. */
  lemma ScaleLine(t: real, u: real, w: real, d: real)
    requires w != 0.0 && t == u / w
    ensures (t * d) * w == u * d
  {
    assert t * w == u;
    calc {
      (t * d) * w;
      (t * w) * d;
      u * d;
    }
  }

  /** d2 + t * (d1 - d2) with t = (y - y2) / (y1 - y2); Python raises ZeroDivisionError when y1 = y2. */
  function Lerp(y: int, y1: int, d1: real, y2: int, d2: real): (r: Result<real>)
    ensures r.Err? <==> y1 == y2
    ensures r.Err? ==> r.error == ZeroDivisionError
    ensures r.Ok? ==> OnLine(r.value, y, y1, d1, y2, d2)
  {
    if y1 == y2 then Err(ZeroDivisionError)
    else
      var t := (y - y2) as real / (y1 - y2) as real;
      ScaleLine(t, (y - y2) as real, (y1 - y2) as real, d1 - d2);
      Ok(d2 + t * (d1 - d2))
  }

  /** Rows k and k + 1 of the list enclose y, as the loop's test y1 >= y >= y2 has it. */
  predicate Encloses(calib: seq<CalPoint>, k: int, y: int)
    requires 0 <= k < |calib| - 1
  {
    calib[k].0 >= y >= calib[k + 1].0
  }

  /** The loop over adjacent pairs: the first pair with y1 >= y >= y2 gives the result; None when none does. */
  function Scan(y: int, calib: seq<CalPoint>): Option<Result<real>> {
    if |calib| < 2 then None
    else if calib[0].0 >= y >= calib[1].0 then Some(Lerp(y, calib[0].0, calib[0].1, calib[1].0, calib[1].1))
    else Scan(y, calib[1..])
  }

  /** Scan answers exactly when some adjacent pair encloses y, and then with the interpolation
    * on the first such pair of the list. */
  lemma {:induction false} ScanFirstEnclosing(y: int, calib: seq<CalPoint>)
    ensures Scan(y, calib).Some? <==> exists k :: 0 <= k < |calib| - 1 && Encloses(calib, k, y)
    ensures Scan(y, calib).Some? ==> exists k :: (0 <= k < |calib| - 1 && Encloses(calib, k, y)
      && (forall j :: 0 <= j < k ==> !Encloses(calib, j, y))
      && Scan(y, calib).value == Lerp(y, calib[k].0, calib[k].1, calib[k + 1].0, calib[k + 1].1))
    decreases |calib|
  {
    if |calib| >= 2 && !Encloses(calib, 0, y) {
      var rest := calib[1..];
      ScanFirstEnclosing(y, rest);
      forall k | 0 <= k < |rest| - 1
        ensures Encloses(rest, k, y) <==> Encloses(calib, k + 1, y)
      {
        assert rest[k] == calib[k + 1] && rest[k + 1] == calib[k + 2];
      }
      if exists k :: 0 <= k < |calib| - 1 && Encloses(calib, k, y) {
        var k :| 0 <= k < |calib| - 1 && Encloses(calib, k, y);
        assert k >= 1 && Encloses(rest, k - 1, y);
      }
      if Scan(y, rest).Some? {
        var k :| 0 <= k < |rest| - 1 && Encloses(rest, k, y)
          && (forall j :: 0 <= j < k ==> !Encloses(rest, j, y))
          && Scan(y, rest).value == Lerp(y, rest[k].0, rest[k].1, rest[k + 1].0, rest[k + 1].1);
        assert rest[k] == calib[k + 1] && rest[k + 1] == calib[k + 2];
        forall j | 0 <= j < k + 1 ensures !Encloses(calib, j, y) {
          if j > 0 {
            assert !Encloses(rest, j - 1, y);
          }
        }
        assert Encloses(calib, k + 1, y);
      }
    }
  }

  /** The lookup on the sorted list: clamp above the first row and below the last, else scan,
    * and fall back to the last distance when the scan finds no pair. */
  function Lookup(y: int, calib: seq<CalPoint>): Result<real>
    requires calib != []
  {
    if y >= calib[0].0 then Ok(calib[0].1)
    else if y <= calib[|calib| - 1].0 then Ok(calib[|calib| - 1].1)
    else match Scan(y, calib)
      case Some(r) => r
      case None => Ok(calib[|calib| - 1].1)
  }

  function DistanceFromY(y: int, calibration: seq<CalPoint>): Result<real> {
    if calibration == [] then Err(IndexError)
    else Lookup(y, SortedDescending(calibration))
  }

  predicate Between(v: real, a: real, b: real) {
    (a <= v <= b) || (b <= v <= a)
  }

  lemma MulNonneg(a: real, b: real)
    requires a >= 0.0 && b >= 0.0
    ensures a * b >= 0.0
  {
  }

  /** A point a fraction t of the way from d2 to d1 lies between them. */
  lemma FractionBetween(t: real, d1: real, d2: real)
    requires 0.0 <= t <= 1.0
    ensures Between(d2 + t * (d1 - d2), d1, d2)
  {
    var v := d2 + t * (d1 - d2);
    assert d1 - v == (1.0 - t) * (d1 - d2);
    if d1 >= d2 {
      MulNonneg(t, d1 - d2);
      MulNonneg(1.0 - t, d1 - d2);
    } else {
      MulNonneg(t, d2 - d1);
      MulNonneg(1.0 - t, d2 - d1);
      assert t * (d2 - d1) == -(t * (d1 - d2));
      assert (1.0 - t) * (d2 - d1) == -((1.0 - t) * (d1 - d2));
    }
  }

  /** With y1 > y >= y2 the interpolation is defined, lies between d1 and d2, and is d2 at y2. */
  lemma LerpBetween(y: int, y1: int, d1: real, y2: int, d2: real)
    requires y1 > y >= y2
    ensures Lerp(y, y1, d1, y2, d2).Ok? && Between(Lerp(y, y1, d1, y2, d2).value, d1, d2)
    ensures y == y2 ==> Lerp(y, y1, d1, y2, d2).value == d2
  {
    var t := (y - y2) as real / (y1 - y2) as real;
    assert 0.0 <= t <= 1.0;
    assert Lerp(y, y1, d1, y2, d2).Ok?;
    assert Lerp(y, y1, d1, y2, d2).value == d2 + t * (d1 - d2);
    FractionBetween(t, d1, d2);
  }

  /** Below the first row of a descending list and above the last, the scan stops at a pair with
    * y1 > y >= y2, so it never divides by zero and never falls through; the result lies between the
    * pair's distances, and is exactly d2 when y = y2. */
  lemma {:induction false} ScanFinds(y: int, calib: seq<CalPoint>)
    requires |calib| >= 2
    requires forall i, j :: 0 <= i < j < |calib| ==> calib[i].0 >= calib[j].0
    requires calib[0].0 > y > calib[|calib| - 1].0
    ensures Scan(y, calib).Some? && Scan(y, calib).value.Ok?
    ensures exists k :: (0 <= k < |calib| - 1 && calib[k].0 > y >= calib[k + 1].0
      && Between(Scan(y, calib).value.value, calib[k].1, calib[k + 1].1)
      && OnLine(Scan(y, calib).value.value, y, calib[k].0, calib[k].1, calib[k + 1].0, calib[k + 1].1)
      && (y == calib[k + 1].0 ==> Scan(y, calib).value.value == calib[k + 1].1))
  {
    if calib[0].0 >= y >= calib[1].0 {
      LerpBetween(y, calib[0].0, calib[0].1, calib[1].0, calib[1].1);
      assert 0 < |calib| - 1 && calib[0].0 > y >= calib[1].0;
    } else {
      var rest := calib[1..];
      assert forall i, j :: 0 <= i < j < |rest| ==> rest[i].0 >= rest[j].0 by {
        forall i, j | 0 <= i < j < |rest| ensures rest[i].0 >= rest[j].0 {
          assert rest[i] == calib[i + 1] && rest[j] == calib[j + 1];
        }
      }
      assert |rest| >= 2;
      ScanFinds(y, rest);
      var k :| 0 <= k < |rest| - 1 && rest[k].0 > y >= rest[k + 1].0
        && Between(Scan(y, rest).value.value, rest[k].1, rest[k + 1].1)
        && OnLine(Scan(y, rest).value.value, y, rest[k].0, rest[k].1, rest[k + 1].0, rest[k + 1].1)
        && (y == rest[k + 1].0 ==> Scan(y, rest).value.value == rest[k + 1].1);
      assert calib[k + 1] == rest[k] && calib[k + 2] == rest[k + 1];
    }
  }

  /** distance_from_y fails only on an empty list (IndexError): with at least one point neither the
    * division by zero nor the fall-through after the loop can happen, even with repeated rows. */
  lemma DistanceDefinedIffNonEmpty(y: int, calibration: seq<CalPoint>)
    ensures DistanceFromY(y, calibration).Ok? <==> calibration != []
    ensures calibration == [] ==> DistanceFromY(y, calibration) == Err(IndexError)
  {
    if calibration != [] {
      var calib := SortedDescending(calibration);
      if calib[0].0 > y > calib[|calib| - 1].0 {
        ScanFinds(y, calib);
      }
    }
  }

  /** At or above the largest row the result is that row's distance; at or below the smallest, that row's. */
  lemma ClampedOutsideRange(y: int, calibration: seq<CalPoint>)
    requires calibration != []
    ensures var calib := SortedDescending(calibration);
      && (y >= calib[0].0 ==> DistanceFromY(y, calibration) == Ok(calib[0].1))
      && (forall p :: p in calibration ==> p.0 <= calib[0].0)
      && (y < calib[0].0 && y <= calib[|calib| - 1].0 ==> DistanceFromY(y, calibration) == Ok(calib[|calib| - 1].1))
      && (forall p :: p in calibration ==> calib[|calib| - 1].0 <= p.0)
  {
    var calib := SortedDescending(calibration);
    forall p | p in calibration ensures calib[|calib| - 1].0 <= p.0 <= calib[0].0 {
      assert p in multiset(calib);
      var i :| 0 <= i < |calib| && calib[i] == p;
    }
  }

  /** Strictly inside the calibrated range the result lies between the distances of two adjacent
    * rows that enclose the query. */
  lemma InteriorBetweenNeighbours(y: int, calibration: seq<CalPoint>)
    requires calibration != []
    requires var calib := SortedDescending(calibration); calib[0].0 > y > calib[|calib| - 1].0
    ensures DistanceFromY(y, calibration).Ok?
    ensures var calib := SortedDescending(calibration);
      exists k :: (0 <= k < |calib| - 1 && calib[k].0 > y >= calib[k + 1].0
        && Between(DistanceFromY(y, calibration).value, calib[k].1, calib[k + 1].1)
        && OnLine(DistanceFromY(y, calibration).value, y, calib[k].0, calib[k].1, calib[k + 1].0, calib[k + 1].1))
  {
    var calib := SortedDescending(calibration);
    ScanFinds(y, calib);
  }

  predicate DistinctRows(calibration: seq<CalPoint>) {
    forall i, j :: 0 <= i < j < |calibration| ==> calibration[i].0 != calibration[j].0
  }

  /** On a strictly descending list, a query at one of its rows returns that row's distance. */
  lemma ExactInStrictlyDescending(calib: seq<CalPoint>, m: int)
    requires forall i, j :: 0 <= i < j < |calib| ==> calib[i].0 > calib[j].0
    requires 0 <= m < |calib|
    ensures Lookup(calib[m].0, calib) == Ok(calib[m].1)
  {
    var y := calib[m].0;
    if 0 < m < |calib| - 1 {
      ScanFinds(y, calib);
      var k :| 0 <= k < |calib| - 1 && calib[k].0 > y >= calib[k + 1].0
        && (y == calib[k + 1].0 ==> Scan(y, calib).value.value == calib[k + 1].1);
      assert k + 1 == m;
    }
  }

  /** With distinct rows, a query at a calibrated row returns exactly that point's distance. */
  lemma ExactAtCalibratedRow(calibration: seq<CalPoint>, j: int)
    requires DistinctRows(calibration) && 0 <= j < |calibration|
    ensures DistanceFromY(calibration[j].0, calibration) == Ok(calibration[j].1)
  {
    var calib := SortedDescending(calibration);
    assert DistinctKeys(calibration, NegRow);
    DistinctKeysOfPermutation(calibration, calib, NegRow);
    assert forall a, b :: 0 <= a < b < |calib| ==> calib[a].0 > calib[b].0 by {
      forall a, b | 0 <= a < b < |calib| ensures calib[a].0 > calib[b].0 {
        assert NegRow(calib[a]) != NegRow(calib[b]);
      }
    }
    assert calibration[j] in multiset(calib);
    var m :| 0 <= m < |calib| && calib[m] == calibration[j];
    ExactInStrictlyDescending(calib, m);
  }

  /** The result does not depend on the order of a calibration list with distinct rows. */
  lemma OrderIndependent(y: int, calibration: seq<CalPoint>, shuffled: seq<CalPoint>)
    requires multiset(calibration) == multiset(shuffled) && DistinctRows(calibration)
    ensures DistanceFromY(y, calibration) == DistanceFromY(y, shuffled)
  {
    assert DistinctKeys(calibration, NegRow);
    SortByOrderIndependent(calibration, shuffled, NegRow);
    assert |calibration| == |multiset(calibration)| == |shuffled|;
  }
}
