/**
 * Distance/Storage.py: a JSON file holding named calibrations (metadata, points, test results),
 * with a migration from the older list-of-points format. The file is a field of
 * `CalibrationFile`; each public operation loads it, edits the table and writes it back.
 */
module Storage {
  import opened Wrappers
  import opened DistanceFromJson

  const VERSION := "2.0"
  const DEFAULT_NAME := "default"
  const LEGACY_NAME := "legacy_calibration"

  datatype Metadata = Metadata(
    sourceType: string, sourcePath: Option<string>,
    width: Option<int>, height: Option<int>, fps: Option<real>, totalFrames: Option<int>, zoomLabel: string)

  datatype TestResult = TestResult(
    knownDistance: real, estimatedDistance: real, errorPercent: real,
    feetY: int, frameNumber: int, timestamp: string)

  datatype Calibration = Calibration(
    name: string, createdAt: string, metadata: Metadata,
    distanceList: seq<real>, points: seq<CalPoint>, testResults: seq<TestResult>)

  /** The "calibrations" object: names in insertion order, as a Python dict keeps them. */
  type Table = seq<(string, Calibration)>

  datatype Store = Store(version: string, calibrations: Table)

  /** What reading the file yields: no file, unparsable or unreadable, the legacy list, or a store. */
  datatype FileContents = Missing | Unreadable | LegacyList(legacy: seq<CalPoint>) | Stored(store: Store)

  /** The metadata the legacy migration attaches. */
  const LEGACY_METADATA := Metadata("live_camera", None, None, None, None, None, "unknown")

  /** The metadata save_calibration_data attaches. */
  const DEFAULT_METADATA := Metadata("live_camera", None, None, None, None, None, "default")

  predicate UniqueNames(t: Table) {
    forall i, j :: 0 <= i < j < |t| ==> t[i].0 != t[j].0
  }

  predicate Has(t: Table, name: string) {
    exists i :: 0 <= i < |t| && t[i].0 == name
  }

  function Names(t: Table): (ns: seq<string>)
    ensures |ns| == |t| && forall i :: 0 <= i < |t| ==> ns[i] == t[i].0
  {
    if t == [] then [] else [t[0].0] + Names(t[1..])
  }

  /** calibrations.get(name) */
  function Get(t: Table, name: string): (r: Option<Calibration>)
    ensures r.Some? <==> Has(t, name)
    ensures r.Some? ==> exists i :: 0 <= i < |t| && t[i] == (name, r.value)
  {
    if t == [] then None
    else if t[0].0 == name then Some(t[0].1)
    else
      var r := Get(t[1..], name);
      assert Has(t, name) ==> Has(t[1..], name) by {
        if Has(t, name) {
          var i :| 0 <= i < |t| && t[i].0 == name;
          assert t[1..][i - 1] == t[i];
        }
      }
      assert r.Some? ==> exists i :: 0 <= i < |t| && t[i] == (name, r.value) by {
        if r.Some? {
          var i :| 0 <= i < |t[1..]| && t[1..][i] == (name, r.value);
          assert t[i + 1] == (name, r.value);
        }
      }
      r
  }

  lemma HasTail(t: Table, name: string)
    requires t != [] && t[0].0 != name
    ensures Has(t, name) <==> Has(t[1..], name)
  {
    if Has(t, name) {
      var i :| 0 <= i < |t| && t[i].0 == name;
      assert t[1..][i - 1] == t[i];
    }
    if Has(t[1..], name) {
      var i :| 0 <= i < |t[1..]| && t[1..][i].0 == name;
      assert t[i + 1] == t[1..][i];
    }
  }

  lemma UniqueTail(t: Table)
    requires t != [] && UniqueNames(t)
    ensures UniqueNames(t[1..]) && !Has(t[1..], t[0].0)
  {
    forall i, j | 0 <= i < j < |t[1..]| ensures t[1..][i].0 != t[1..][j].0 {
      assert t[1..][i] == t[i + 1] && t[1..][j] == t[j + 1];
    }
    forall i | 0 <= i < |t[1..]| ensures t[1..][i].0 != t[0].0 {
      assert t[1..][i] == t[i + 1];
    }
  }

  /** A table whose first name does not occur in the unique rest has unique names. */
  lemma UniqueCons(e: (string, Calibration), rest: Table)
    requires UniqueNames(rest) && !Has(rest, e.0)
    ensures UniqueNames([e] + rest)
  {
    var r := [e] + rest;
    forall i, j | 0 <= i < j < |r| ensures r[i].0 != r[j].0 {
      assert r[j] == rest[j - 1];
      if i > 0 { assert r[i] == rest[i - 1]; }
    }
  }

  /** calibrations[name] = c: the name now holds c and every other name reads as before. */
  function Put(t: Table, name: string, c: Calibration): (r: Table)
    ensures Get(r, name) == Some(c)
    ensures forall n :: n != name ==> Get(r, n) == Get(t, n)
  {
    if t == [] then [(name, c)]
    else if t[0].0 == name then [(name, c)] + t[1..]
    else
      var r := [t[0]] + Put(t[1..], name, c);
      assert r[1..] == Put(t[1..], name, c);
      r
  }

  lemma NamesCons(e: (string, Calibration), rest: Table)
    ensures Names([e] + rest) == [e.0] + Names(rest)
  {
    assert ([e] + rest)[1..] == rest;
  }

  /** A Python dict keeps an overwritten key in its place and appends a new one. */
  lemma {:induction false} PutOrder(t: Table, name: string, c: Calibration)
    ensures Has(t, name) ==> Names(Put(t, name, c)) == Names(t)
    ensures !Has(t, name) ==> Names(Put(t, name, c)) == Names(t) + [name]
  {
    if t != [] {
      NamesCons(t[0], t[1..]);
      assert [t[0]] + t[1..] == t;
      if t[0].0 == name {
        NamesCons((name, c), t[1..]);
      } else {
        var rest := Put(t[1..], name, c);
        assert Put(t, name, c) == [t[0]] + rest;
        NamesCons(t[0], rest);
        HasTail(t, name);
        PutOrder(t[1..], name, c);
        if !Has(t, name) {
          assert [t[0].0] + (Names(t[1..]) + [name]) == ([t[0].0] + Names(t[1..])) + [name];
        }
      }
    }
  }

  lemma {:induction false} PutUnique(t: Table, name: string, c: Calibration)
    requires UniqueNames(t)
    ensures UniqueNames(Put(t, name, c))
  {
    if t != [] {
      UniqueTail(t);
      if t[0].0 == name {
        UniqueCons((name, c), t[1..]);
      } else {
        PutUnique(t[1..], name, c);
        assert Get(Put(t[1..], name, c), t[0].0) == Get(t[1..], t[0].0);
        UniqueCons(t[0], Put(t[1..], name, c));
      }
    }
  }

  /** del calibrations[name]: only that name disappears, the others keep their order. */
  function Remove(t: Table, name: string): (r: Table)
    ensures !Has(r, name)
    ensures forall n :: n != name ==> Get(r, n) == Get(t, n)
    ensures forall n :: Has(r, n) ==> Has(t, n)
  {
    if t == [] then []
    else
      var rest := Remove(t[1..], name);
      if t[0].0 == name then
        assert forall n :: Has(rest, n) ==> Has(t, n) by {
          forall n | Has(rest, n) ensures Has(t, n) {
            if n != t[0].0 { HasTail(t, n); }
          }
        }
        rest
      else
        var r := [t[0]] + rest;
        assert r[1..] == rest;
        HasTail(r, name);
        assert forall n :: Has(r, n) ==> Has(t, n) by {
          forall n | Has(r, n) ensures Has(t, n) {
            if n != t[0].0 { HasTail(r, n); HasTail(t, n); }
          }
        }
        r
  }

  lemma {:induction false} RemoveUnique(t: Table, name: string)
    requires UniqueNames(t)
    ensures UniqueNames(Remove(t, name))
  {
    if t != [] {
      UniqueTail(t);
      RemoveUnique(t[1..], name);
      if t[0].0 != name {
        UniqueCons(t[0], Remove(t[1..], name));
      }
    }
  }

  function DefaultStore(): (s: Store)
    ensures s.calibrations == [] && s.version == VERSION
  {
    Store(VERSION, [])
  }

  /** _migrate_legacy_data: a non-empty point list becomes the single "legacy_calibration" entry
    * whose distance list is the points' second components; an empty one gives the default store. */
  function Migrate(legacy: seq<CalPoint>, now: string): (s: Store)
    ensures legacy == [] ==> s == DefaultStore()
    ensures legacy != [] ==> (&& Names(s.calibrations) == [LEGACY_NAME]
      && Get(s.calibrations, LEGACY_NAME) == Some(Calibration(LEGACY_NAME, now, LEGACY_METADATA, Distances(legacy), legacy, []))
      && forall i :: 0 <= i < |legacy| ==> s.calibrations[0].1.distanceList[i] == legacy[i].1)
  {
    if |legacy| > 0 then
      Store(VERSION, [(LEGACY_NAME, Calibration(LEGACY_NAME, now, LEGACY_METADATA, Distances(legacy), legacy, []))])
    else DefaultStore()
  }

  /** _load_storage: a missing, unparsable or unreadable file reads as the default store. */
  function Load(contents: FileContents, now: string): (s: Store)
    ensures (contents.Missing? || contents.Unreadable?) ==> s == DefaultStore()
    ensures contents.Stored? ==> s == contents.store
    ensures (contents.Stored? ==> UniqueNames(contents.store.calibrations)) ==> UniqueNames(s.calibrations)
  {
    match contents
    case Missing => DefaultStore()
    case Unreadable => DefaultStore()
    case LegacyList(legacy) => Migrate(legacy, now)
    case Stored(store) => store
  }

  /** create_calibration's edit: the named entry is (re)written with no test results. */
  function Create(s: Store, name: string, metadata: Metadata, distanceList: seq<real>,
                  points: seq<CalPoint>, now: string): (r: Store)
    ensures Get(r.calibrations, name) == Some(Calibration(name, now, metadata, distanceList, points, []))
    ensures forall n :: n != name ==> Get(r.calibrations, n) == Get(s.calibrations, n)
  {
    Store(s.version, Put(s.calibrations, name, Calibration(name, now, metadata, distanceList, points, [])))
  }

  /** add_test_result's edit: the result, stamped with now, goes at the end of that entry's list. */
  function AppendResult(s: Store, name: string, result: TestResult, now: string): (r: Store)
    requires Has(s.calibrations, name)
    ensures var before := Get(s.calibrations, name).value;
      Get(r.calibrations, name) == Some(before.(testResults := before.testResults + [result.(timestamp := now)]))
    ensures forall n :: n != name ==> Get(r.calibrations, n) == Get(s.calibrations, n)
    ensures Names(r.calibrations) == Names(s.calibrations)
  {
    var c := Get(s.calibrations, name).value;
    PutOrder(s.calibrations, name, c.(testResults := c.testResults + [result.(timestamp := now)]));
    Store(s.version, Put(s.calibrations, name, c.(testResults := c.testResults + [result.(timestamp := now)])))
  }

  /** clear_test_results' edit: only the named entry's test results are emptied. */
  function ClearResults(s: Store, name: string): (r: Store)
    requires Has(s.calibrations, name)
    ensures Get(r.calibrations, name) == Some(Get(s.calibrations, name).value.(testResults := []))
    ensures forall n :: n != name ==> Get(r.calibrations, n) == Get(s.calibrations, n)
    ensures Names(r.calibrations) == Names(s.calibrations)
  {
    var c := Get(s.calibrations, name).value;
    PutOrder(s.calibrations, name, c.(testResults := []));
    Store(s.version, Put(s.calibrations, name, c.(testResults := [])))
  }

  /** One row of list_calibrations. */
  datatype Summary = Summary(name: string, createdAt: string, zoomLabel: string, numPoints: nat, sourceType: string)

  function SummaryOf(entry: (string, Calibration)): Summary {
    Summary(entry.0, entry.1.createdAt, entry.1.metadata.zoomLabel, |entry.1.points|, entry.1.metadata.sourceType)
  }

  /** load_calibration_data's choice: None without calibrations, else "default", else
    * "legacy_calibration", else the first entry. */
  function PreferredPoints(t: Table): (r: Option<seq<CalPoint>>)
    ensures r.None? <==> t == []
    ensures Has(t, DEFAULT_NAME) ==> r == Some(Get(t, DEFAULT_NAME).value.points)
    ensures !Has(t, DEFAULT_NAME) && Has(t, LEGACY_NAME) ==> r == Some(Get(t, LEGACY_NAME).value.points)
    ensures !Has(t, DEFAULT_NAME) && !Has(t, LEGACY_NAME) && t != [] ==> r == Some(t[0].1.points)
    ensures r.Some? ==> exists i :: 0 <= i < |t| && r.value == t[i].1.points
  {
    if t == [] then None
    else match Get(t, DEFAULT_NAME)
      case Some(c) => Some(c.points)
      case None => match Get(t, LEGACY_NAME)
        case Some(c) => Some(c.points)
        case None => Some(t[0].1.points)
  }

  /** Creating then reading back a calibration gives exactly what was created, with no test results;
    * an existing name is overwritten in its place and a new one is listed last. */
  lemma CreateThenGet(contents: FileContents, name: string, metadata: Metadata, distanceList: seq<real>,
                      points: seq<CalPoint>, now: string, later: string)
    ensures var before := Load(contents, now).calibrations;
      var after := Load(Stored(Create(Load(contents, now), name, metadata, distanceList, points, now)), later).calibrations;
      && Get(after, name) == Some(Calibration(name, now, metadata, distanceList, points, []))
      && (Has(before, name) ==> Names(after) == Names(before))
      && (!Has(before, name) ==> Names(after) == Names(before) + [name])
  {
    PutOrder(Load(contents, now).calibrations, name, Calibration(name, now, metadata, distanceList, points, []));
  }

  /** The calibration file: one JSON document read and rewritten by every public operation.
    * `writeOk` stands for whether the write succeeds; `now` for datetime.now().isoformat(). */
  class CalibrationFile {
    var contents: FileContents

    /** A parsed JSON object cannot repeat a key. */
    ghost predicate Valid()
      reads this
    {
      contents.Stored? ==> UniqueNames(contents.store.calibrations)
    }

    constructor (initial: FileContents)
      requires initial.Stored? ==> UniqueNames(initial.store.calibrations)
      ensures contents == initial && Valid()
    {
      contents := initial;
    }

    /** _save_storage: True and the new store on disk when the write succeeds, else False and no change. */
    method SaveStorage(s: Store, writeOk: bool) returns (ok: bool)
      requires Valid() && UniqueNames(s.calibrations)
      modifies this
      ensures Valid()
      ensures ok == writeOk
      ensures contents == if writeOk then Stored(s) else old(contents)
    {
      if writeOk {
        contents := Stored(s);
      }
      ok := writeOk;
    }

    method CreateCalibration(name: string, metadata: Metadata, distanceList: seq<real>,
                             points: seq<CalPoint>, now: string, writeOk: bool) returns (ok: bool)
      requires Valid()
      modifies this
      ensures Valid() && ok == writeOk
      ensures contents == if writeOk then Stored(Create(old(Load(contents, now)), name, metadata, distanceList, points, now))
                          else old(contents)
    {
      var s := Load(contents, now);
      PutUnique(s.calibrations, name, Calibration(name, now, metadata, distanceList, points, []));
      ok := SaveStorage(Create(s, name, metadata, distanceList, points, now), writeOk);
    }

    /** delete_calibration: an unknown name returns False without writing. */
    method DeleteCalibration(name: string, now: string, writeOk: bool) returns (ok: bool)
      requires Valid()
      modifies this
      ensures Valid()
      ensures !Has(old(Load(contents, now)).calibrations, name) ==> !ok && contents == old(contents)
      ensures Has(old(Load(contents, now)).calibrations, name) ==> (ok == writeOk
        && contents == if writeOk then Stored(old(Load(contents, now)).(calibrations := Remove(old(Load(contents, now)).calibrations, name)))
                       else old(contents))
    {
      var s := Load(contents, now);
      if !Has(s.calibrations, name) {
        return false;
      }
      RemoveUnique(s.calibrations, name);
      ok := SaveStorage(s.(calibrations := Remove(s.calibrations, name)), writeOk);
    }

    /** add_test_result: an unknown name returns False without writing. */
    method AddTestResult(name: string, result: TestResult, now: string, writeOk: bool) returns (ok: bool)
      requires Valid()
      modifies this
      ensures Valid()
      ensures !Has(old(Load(contents, now)).calibrations, name) ==> !ok && contents == old(contents)
      ensures Has(old(Load(contents, now)).calibrations, name) ==> (ok == writeOk
        && contents == if writeOk then Stored(AppendResult(old(Load(contents, now)), name, result, now)) else old(contents))
    {
      var s := Load(contents, now);
      if !Has(s.calibrations, name) {
        return false;
      }
      var c := Get(s.calibrations, name).value;
      PutUnique(s.calibrations, name, c.(testResults := c.testResults + [result.(timestamp := now)]));
      ok := SaveStorage(AppendResult(s, name, result, now), writeOk);
    }

    /** clear_test_results: an unknown name returns False without writing. */
    method ClearTestResults(name: string, now: string, writeOk: bool) returns (ok: bool)
      requires Valid()
      modifies this
      ensures Valid()
      ensures !Has(old(Load(contents, now)).calibrations, name) ==> !ok && contents == old(contents)
      ensures Has(old(Load(contents, now)).calibrations, name) ==> (ok == writeOk
        && contents == if writeOk then Stored(ClearResults(old(Load(contents, now)), name)) else old(contents))
    {
      var s := Load(contents, now);
      if !Has(s.calibrations, name) {
        return false;
      }
      PutUnique(s.calibrations, name, Get(s.calibrations, name).value.(testResults := []));
      ok := SaveStorage(ClearResults(s, name), writeOk);
    }

    /** list_calibrations: one summary per calibration, in table order, counting its points. */
    method ListCalibrations(now: string) returns (r: seq<Summary>)
      ensures var t := Load(contents, now).calibrations;
        |r| == |t| && forall i :: 0 <= i < |t| ==> (r[i].name == t[i].0 && r[i].numPoints == |t[i].1.points|
          && r[i] == SummaryOf(t[i]))
    {
      var t := Load(contents, now).calibrations;
      r := [];
      var i := 0;
      while i < |t|
        invariant 0 <= i <= |t| && |r| == i
        invariant forall k :: 0 <= k < i ==> r[k] == SummaryOf(t[k])
      {
        r := r + [SummaryOf(t[i])];
        i := i + 1;
      }
    }

    function GetCalibration(name: string, now: string): (r: Option<Calibration>)
      reads this
      ensures r.Some? <==> Has(Load(contents, now).calibrations, name)
    {
      Get(Load(contents, now).calibrations, name)
    }

    /** get_calibration_points: None for a missing name. */
    function GetCalibrationPoints(name: string, now: string): (r: Option<seq<CalPoint>>)
      reads this
      ensures r.None? <==> !Has(Load(contents, now).calibrations, name)
      ensures r.Some? ==> exists i :: (0 <= i < |Load(contents, now).calibrations|
        && Load(contents, now).calibrations[i].0 == name
        && r.value == Load(contents, now).calibrations[i].1.points)
    {
      match GetCalibration(name, now)
      case Some(c) => Some(c.points)
      case None => None
    }

    /** get_test_results: the empty list for a missing name. */
    function GetTestResults(name: string, now: string): (r: seq<TestResult>)
      reads this
      ensures !Has(Load(contents, now).calibrations, name) ==> r == []
      ensures Has(Load(contents, now).calibrations, name) ==> exists i :: (0 <= i < |Load(contents, now).calibrations|
        && Load(contents, now).calibrations[i].0 == name
        && r == Load(contents, now).calibrations[i].1.testResults)
    {
      match GetCalibration(name, now)
      case Some(c) => c.testResults
      case None => []
    }

    /** save_calibration_data: create_calibration("default", ...) with the points' distances as the distance list. */
    method SaveCalibrationData(data: seq<CalPoint>, now: string, writeOk: bool) returns (ok: bool)
      requires Valid()
      modifies this
      ensures Valid() && ok == writeOk
      ensures writeOk ==> (Get(Load(contents, now).calibrations, DEFAULT_NAME)
        == Some(Calibration(DEFAULT_NAME, now, DEFAULT_METADATA, Distances(data), data, [])))
      ensures writeOk ==> forall n :: n != DEFAULT_NAME ==>
        Get(Load(contents, now).calibrations, n) == Get(old(Load(contents, now)).calibrations, n)
      ensures contents == if writeOk then Stored(Create(old(Load(contents, now)), DEFAULT_NAME, DEFAULT_METADATA, Distances(data), data, now))
                          else old(contents)
    {
      ok := CreateCalibration(DEFAULT_NAME, DEFAULT_METADATA, Distances(data), data, now, writeOk);
    }

    /** load_calibration_data */
    function LoadCalibrationData(now: string): (r: Option<seq<CalPoint>>)
      reads this
      ensures r.None? <==> Load(contents, now).calibrations == []
    {
      PreferredPoints(Load(contents, now).calibrations)
    }
  }
}
