/**
 * YoloModel/Tiling.py: splitting a frame into overlapping tiles, mapping tile detections back to
 * frame coordinates, and merging them with non-maximum suppression.
 */
module Tiling {
  import opened Wrappers
  import opened Sorting
  import opened PyInt

  datatype TileConfig = TileConfig(gridRows: int, gridCols: int, overlapPercent: real)

  predicate ValidTileConfig(c: TileConfig) {
    c.gridRows >= 1 && c.gridCols >= 1 && 0.0 <= c.overlapPercent <= 0.5
  }

  /** TileConfig.__post_init__: ValueError unless the grid is at least 1x1 and the overlap in [0, 0.5]. */
  function MakeTileConfig(rows: int, cols: int, overlap: real): (r: Result<TileConfig>)
    ensures r.Ok? <==> rows >= 1 && cols >= 1 && 0.0 <= overlap <= 0.5
    ensures r.Ok? ==> r.value == TileConfig(rows, cols, overlap) && ValidTileConfig(r.value)
    ensures r.Err? ==> r.error == ValueError
  {
    if rows < 1 || cols < 1 then Err(ValueError)
    else if !(0.0 <= overlap <= 0.5) then Err(ValueError)
    else Ok(TileConfig(rows, cols, overlap))
  }

  datatype Detection = Detection(x1: int, y1: int, x2: int, y2: int, confidence: real, classId: int)

  function Max(a: int, b: int): int { if a >= b then a else b }

  function Min(a: int, b: int): int { if a <= b then a else b }

  /** Detection.area: sides below zero count as zero. */
  function Area(d: Detection): (a: int)
    ensures a >= 0
    ensures (d.x2 <= d.x1 || d.y2 <= d.y1) ==> a == 0
  {
    Mul(Max(0, d.x2 - d.x1), Max(0, d.y2 - d.y1))
  }

  /** Multiplication of sizes, by repeated addition (MulIsProduct: it is the product). */
  function Mul(a: nat, b: nat): (p: nat)
    ensures (a == 0 || b == 0) ==> p == 0
  {
    if b == 0 then 0 else a + Mul(a, b - 1)
  }

  lemma {:induction false} MulIsProduct(a: nat, b: nat)
    ensures Mul(a, b) == a * b
  {
    if b > 0 {
      MulIsProduct(a, b - 1);
    }
  }

  /** Larger sides give a larger area. */
  lemma {:induction false} MulMono(a: nat, b: nat, c: nat, d: nat)
    requires a <= c && b <= d
    ensures Mul(a, b) <= Mul(c, d)
  {
    if d > 0 {
      if b == d {
        MulMono(a, b - 1, c, d - 1);
      } else {
        MulMono(a, b, c, d - 1);
      }
    }
  }

  /** Detection.center, with floor division. */
  function Center(d: Detection): (c: (int, int))
    ensures d.x1 <= d.x2 ==> d.x1 <= c.0 <= d.x2
    ensures d.y1 <= d.y2 ==> d.y1 <= c.1 <= d.y2
  {
    ((d.x1 + d.x2) / 2, (d.y1 + d.y2) / 2)
  }

  // ---------------------------------------------------------------- tile regions

  datatype Region = Region(x1: int, y1: int, x2: int, y2: int)

  lemma FractionWithin(i: int, n: int, side: int)
    requires 0 <= i < n && side >= 0
    ensures 0.0 <= i as real * (side as real / n as real) <= side as real
  {
    var base := side as real / n as real;
    assert base * n as real == side as real;
    assert base >= 0.0;
    assert i as real * base <= n as real * base by {
      assert (n - i) as real * base >= 0.0;
    }
  }

  /** One axis of a tile: start at int(i * base) less half the overlap (none for the first tile),
    * end one tile later, both clamped to the frame, pulled back when the tile is cut by the edge. */
  function AxisSpan(i: int, n: int, side: int, overlap: real): (span: (int, int))
    requires 0 <= i < n && side >= 0 && 0.0 <= overlap <= 0.5
    ensures 0 <= span.0 <= span.1 <= side
  {
    var base := side as real / n as real;
    var overlapPx := TruncToZero(base * overlap);
    var tile := TruncToZero(base + overlapPx as real);
    FractionWithin(i, n, side);
    var raw := TruncToZero(i as real * base) - (if i > 0 then overlapPx / 2 else 0);
    var start := Max(0, raw);
    var end := Min(side, start + tile);
    if end == side && end - start < tile then (Max(0, side - tile), end) else (start, end)
  }

  /** The region of the tile in row `row`, column `col`. */
  function TileRegion(h: int, w: int, c: TileConfig, row: int, col: int): (r: Region)
    requires ValidTileConfig(c) && h >= 0 && w >= 0 && 0 <= row < c.gridRows && 0 <= col < c.gridCols
    ensures 0 <= r.x1 <= r.x2 <= w && 0 <= r.y1 <= r.y2 <= h
  {
    var (y1, y2) := AxisSpan(row, c.gridRows, h, c.overlapPercent);
    var (x1, x2) := AxisSpan(col, c.gridCols, w, c.overlapPercent);
    Region(x1, y1, x2, y2)
  }

  /** The regions of row `row`, left to right. */
  function RowSpec(h: int, w: int, c: TileConfig, row: int): (rs: seq<Region>)
    requires ValidTileConfig(c) && h >= 0 && w >= 0 && 0 <= row < c.gridRows
    ensures |rs| == c.gridCols
    ensures forall col :: 0 <= col < c.gridCols ==> rs[col] == TileRegion(h, w, c, row, col)
  {
    seq(c.gridCols, col requires 0 <= col < c.gridCols => TileRegion(h, w, c, row, col))
  }

  /** The rows of regions for the first `rows` rows of the grid. */
  function GridRows(h: int, w: int, c: TileConfig, rows: int): (g: seq<seq<Region>>)
    requires ValidTileConfig(c) && h >= 0 && w >= 0 && 0 <= rows <= c.gridRows
    ensures |g| == rows
  {
    if rows == 0 then [] else GridRows(h, w, c, rows - 1) + [RowSpec(h, w, c, rows - 1)]
  }

  lemma {:induction false} GridRowsAt(h: int, w: int, c: TileConfig, rows: int)
    requires ValidTileConfig(c) && h >= 0 && w >= 0 && 0 <= rows <= c.gridRows
    ensures forall r :: 0 <= r < rows ==> GridRows(h, w, c, rows)[r] == RowSpec(h, w, c, r)
  {
    if rows > 0 {
      GridRowsAt(h, w, c, rows - 1);
    }
  }

  /** Rows laid one after another. */
  function Flatten<T>(rs: seq<seq<T>>): seq<T> {
    if rs == [] then [] else Flatten(rs[..|rs| - 1]) + rs[|rs| - 1]
  }

  /** Rows of equal length `cols`, flattened, hold Mul(cols, n) cells (n * cols by MulIsProduct). */
  lemma {:induction false} FlattenLength<T>(rs: seq<seq<T>>, cols: nat)
    requires forall r :: 0 <= r < |rs| ==> |rs[r]| == cols
    ensures |Flatten(rs)| == Mul(cols, |rs|)
  {
    if rs != [] {
      FlattenLength(rs[..|rs| - 1], cols);
    }
  }

  /** ... and put row r, column k at index Mul(cols, r) + k. */
  lemma {:induction false} FlattenAt<T>(rs: seq<seq<T>>, cols: nat, r: nat, k: nat)
    requires forall i :: 0 <= i < |rs| ==> |rs[i]| == cols
    requires r < |rs| && k < cols
    ensures Mul(cols, r) + k < |Flatten(rs)| && Flatten(rs)[Mul(cols, r) + k] == rs[r][k]
  {
    var front := rs[..|rs| - 1];
    assert Flatten(rs) == Flatten(front) + rs[|rs| - 1];
    FlattenLength(front, cols);
    if r < |front| {
      FlattenAt(front, cols, r, k);
      MulMono(cols, r + 1, cols, |front|);
      assert front[r] == rs[r];
    }
  }

  /** The whole grid holds rows * cols regions. */
  lemma GridSize(h: int, w: int, c: TileConfig)
    requires ValidTileConfig(c) && h >= 0 && w >= 0
    ensures |Flatten(GridRows(h, w, c, c.gridRows))| == c.gridRows * c.gridCols
  {
    GridRowsAt(h, w, c, c.gridRows);
    FlattenLength(GridRows(h, w, c, c.gridRows), c.gridCols);
    MulIsProduct(c.gridCols, c.gridRows);
  }

  /** The grid is row-major: the tile of row r, column k sits at index Mul(cols, r) + k,
    * which MulIsProduct equates with r * cols + k. */
  lemma GridRowMajor(h: int, w: int, c: TileConfig, r: nat, k: nat)
    requires ValidTileConfig(c) && h >= 0 && w >= 0 && r < c.gridRows && k < c.gridCols
    ensures Mul(c.gridCols, r) + k < |Flatten(GridRows(h, w, c, c.gridRows))|
    ensures Flatten(GridRows(h, w, c, c.gridRows))[Mul(c.gridCols, r) + k] == TileRegion(h, w, c, r, k)
  {
    var rs := GridRows(h, w, c, c.gridRows);
    GridRowsAt(h, w, c, c.gridRows);
    FlattenAt(rs, c.gridCols, r, k);
    assert rs[r] == RowSpec(h, w, c, r);
  }

  /** Every region of the grid lies inside the frame: 0 <= x1 <= x2 <= w and 0 <= y1 <= y2 <= h. */
  lemma {:induction false} GridInFrame(h: int, w: int, c: TileConfig, rows: int)
    requires ValidTileConfig(c) && h >= 0 && w >= 0 && 0 <= rows <= c.gridRows
    ensures forall reg :: reg in Flatten(GridRows(h, w, c, rows)) ==>
      0 <= reg.x1 <= reg.x2 <= w && 0 <= reg.y1 <= reg.y2 <= h
  {
    if rows > 0 {
      GridInFrame(h, w, c, rows - 1);
      var g := GridRows(h, w, c, rows);
      assert g[..rows - 1] == GridRows(h, w, c, rows - 1);
      assert Flatten(g) == Flatten(GridRows(h, w, c, rows - 1)) + RowSpec(h, w, c, rows - 1);
    }
  }

  /** The inner loop of calculate_tile_regions: the regions of one row, left to right. */
  method RowRegions(h: int, w: int, c: TileConfig, row: int) returns (rowRegions: seq<Region>)
    requires ValidTileConfig(c) && h >= 0 && w >= 0 && 0 <= row < c.gridRows
    ensures rowRegions == RowSpec(h, w, c, row)
  {
    rowRegions := [];
    for col := 0 to c.gridCols
      invariant |rowRegions| == col
      invariant forall k :: 0 <= k < col ==> rowRegions[k] == TileRegion(h, w, c, row, k)
    {
      rowRegions := rowRegions + [TileRegion(h, w, c, row, col)];
    }
  }

  /** calculate_tile_regions: the whole grid; GridRowMajor gives its row-major layout, and each
    * region is inside the frame by TileRegion's contract. */
  method CalculateTileRegions(h: int, w: int, c: TileConfig) returns (regions: seq<Region>)
    requires ValidTileConfig(c) && h >= 0 && w >= 0
    ensures regions == Flatten(GridRows(h, w, c, c.gridRows))
  {
    regions := [];
    var row := 0;
    while row < c.gridRows
      invariant 0 <= row <= c.gridRows && regions == Flatten(GridRows(h, w, c, row))
    {
      var rowRegions := RowRegions(h, w, c, row);
      assert GridRows(h, w, c, row + 1)[..row] == GridRows(h, w, c, row);
      regions := regions + rowRegions;
      row := row + 1;
    }
  }

  // ---------------------------------------------------------------- coordinates

  /** The part of a tile the conversion needs: its offset in the frame. */
  datatype Tile = Tile(xOffset: int, yOffset: int, width: int, height: int, row: int, col: int)

  function Shift(d: Detection, dx: int, dy: int): (s: Detection)
    ensures s.confidence == d.confidence && s.classId == d.classId
    ensures s.x2 - s.x1 == d.x2 - d.x1 && s.y2 - s.y1 == d.y2 - d.y1
  {
    Detection(d.x1 + dx, d.y1 + dy, d.x2 + dx, d.y2 + dy, d.confidence, d.classId)
  }

  /** The tile cut from a region: the region's corner as offset, its size, and its grid place. */
  function TileOf(reg: Region, row: int, col: int): Tile {
    Tile(reg.x1, reg.y1, reg.x2 - reg.x1, reg.y2 - reg.y1, row, col)
  }

  /** extract_tiles: tile idx is cut from region idx and placed at row idx // cols, column idx % cols. */
  method ExtractTiles(h: int, w: int, c: TileConfig) returns (tiles: seq<Tile>)
    requires ValidTileConfig(c) && h >= 0 && w >= 0
    ensures var regions := Flatten(GridRows(h, w, c, c.gridRows));
      && |tiles| == |regions|
      && forall idx :: 0 <= idx < |tiles| ==> tiles[idx] == TileOf(regions[idx], idx / c.gridCols, idx % c.gridCols)
  {
    var regions := CalculateTileRegions(h, w, c);
    tiles := [];
    for idx := 0 to |regions|
      invariant |tiles| == idx
      invariant forall j :: 0 <= j < idx ==> tiles[j] == TileOf(regions[j], j / c.gridCols, j % c.gridCols)
    {
      tiles := tiles + [TileOf(regions[idx], idx / c.gridCols, idx % c.gridCols)];
    }
  }

  lemma {:induction false} MulAtLeast(a: int, b: int)
    requires a >= 1 && b > 0
    ensures a * b >= b
  {
    if a > 1 {
      MulAtLeast(a - 1, b);
      assert a * b == (a - 1) * b + b;
    }
  }

  /** Index r * cols + k divides back into row r and column k. */
  lemma DivModPlace(cols: int, r: int, k: int)
    requires cols > 0 && r >= 0 && 0 <= k < cols
    ensures (r * cols + k) / cols == r && (r * cols + k) % cols == k
  {
    var idx := r * cols + k;
    var q, m := idx / cols, idx % cols;
    assert idx == q * cols + m && 0 <= m < cols;
    assert (r - q) * cols == m - k;
    if r > q {
      MulAtLeast(r - q, cols);
    } else if r < q {
      MulAtLeast(q - r, cols);
    }
  }

  /** The tile extract_tiles puts at index r * cols + k is row r, column k: it is cut from that
    * grid cell's region, lies inside the frame and has a non-negative size. */
  lemma TilePlacement(h: int, w: int, c: TileConfig, r: nat, k: nat)
    requires ValidTileConfig(c) && h >= 0 && w >= 0 && r < c.gridRows && k < c.gridCols
    ensures r * c.gridCols + k < |Flatten(GridRows(h, w, c, c.gridRows))|
    ensures var regions := Flatten(GridRows(h, w, c, c.gridRows));
      var idx := r * c.gridCols + k;
      var t := TileOf(regions[idx], idx / c.gridCols, idx % c.gridCols);
      var reg := TileRegion(h, w, c, r, k);
      && t == Tile(reg.x1, reg.y1, reg.x2 - reg.x1, reg.y2 - reg.y1, r, k)
      && 0 <= t.xOffset && t.xOffset + t.width <= w && 0 <= t.yOffset && t.yOffset + t.height <= h
      && t.width >= 0 && t.height >= 0
  {
    GridRowMajor(h, w, c, r, k);
    MulIsProduct(c.gridCols, r);
    assert c.gridCols * r == r * c.gridCols;
    DivModPlace(c.gridCols, r, k);
  }

  /** Moving a box keeps its area, and moving it back restores it. */
  lemma ShiftKeepsAreaAndInverts(d: Detection, dx: int, dy: int)
    ensures Area(Shift(d, dx, dy)) == Area(d)
    ensures Shift(Shift(d, dx, dy), -dx, -dy) == d
  {
  }

  /** convert_to_frame_coords: every detection moved by the tile's offset, in order. */
  method ConvertToFrameCoords(detections: seq<Detection>, tile: Tile) returns (converted: seq<Detection>)
    ensures |converted| == |detections|
    ensures forall i :: 0 <= i < |detections| ==> converted[i] == Shift(detections[i], tile.xOffset, tile.yOffset)
  {
    converted := [];
    for i := 0 to |detections|
      invariant |converted| == i
      invariant forall k :: 0 <= k < i ==> converted[k] == Shift(detections[k], tile.xOffset, tile.yOffset)
    {
      converted := converted + [Shift(detections[i], tile.xOffset, tile.yOffset)];
    }
  }

  // ---------------------------------------------------------------- IoU

  function Intersection(a: Detection, b: Detection): (i: int)
    ensures i >= 0
  {
    Mul(Max(0, Min(a.x2, b.x2) - Max(a.x1, b.x1)), Max(0, Min(a.y2, b.y2) - Max(a.y1, b.y1)))
  }

  /** The overlap of two boxes is no larger than either box. */
  lemma IntersectionWithinBoth(a: Detection, b: Detection)
    ensures Intersection(a, b) <= Area(a) && Intersection(a, b) <= Area(b)
  {
    var w := Max(0, Min(a.x2, b.x2) - Max(a.x1, b.x1));
    var h := Max(0, Min(a.y2, b.y2) - Max(a.y1, b.y1));
    MulMono(w, h, Max(0, a.x2 - a.x1), Max(0, a.y2 - a.y1));
    MulMono(w, h, Max(0, b.x2 - b.x1), Max(0, b.y2 - b.y1));
  }

  lemma RatioInUnit(n: int, d: int)
    requires 0 < n <= d
    ensures 0.0 < n as real / d as real <= 1.0
  {
  }

  /** calculate_iou */
  function Iou(a: Detection, b: Detection): (r: real)
    ensures 0.0 <= r <= 1.0
    ensures Intersection(a, b) == 0 ==> r == 0.0
  {
    var inter := Intersection(a, b);
    if inter == 0 then 0.0
    else
      var union := Area(a) + Area(b) - inter;
      if union == 0 then 0.0
      else
        IntersectionWithinBoth(a, b);
        RatioInUnit(inter, union);
        inter as real / union as real
  }

  /** Boxes that overlap at all have a positive IoU: the zero-union guard is never taken then. */
  lemma OverlapPositiveIou(a: Detection, b: Detection)
    requires Intersection(a, b) > 0
    ensures Iou(a, b) > 0.0
  {
    IntersectionWithinBoth(a, b);
    RatioInUnit(Intersection(a, b), Area(a) + Area(b) - Intersection(a, b));
  }

  /** IoU does not depend on the order of its arguments. */
  lemma IouSymmetric(a: Detection, b: Detection)
    ensures Iou(a, b) == Iou(b, a)
  {
    assert Intersection(a, b) == Intersection(b, a);
  }

  /** Boxes that do not overlap (one ends before the other starts, on either axis) have IoU 0. */
  lemma DisjointIouZero(a: Detection, b: Detection)
    requires a.x2 <= b.x1 || b.x2 <= a.x1 || a.y2 <= b.y1 || b.y2 <= a.y1
    ensures Iou(a, b) == 0.0
  {
    assert Intersection(a, b) == 0;
  }

  // ---------------------------------------------------------------- NMS

  function NegConfidence(d: Detection): real { -d.confidence }

  /** The detections that survive one pass of suppression against `best`. */
  function Survivors(rest: seq<Detection>, best: Detection, threshold: real, overlap: (Detection, Detection) -> real): (s: seq<Detection>)
    ensures |s| <= |rest|
    ensures forall d :: d in s ==> d in rest && overlap(best, d) < threshold
    ensures multiset(s) <= multiset(rest)
  {
    if rest == [] then []
    else
      var tail := Survivors(rest[1..], best, threshold, overlap);
      assert rest == [rest[0]] + rest[1..];
      if overlap(best, rest[0]) < threshold then [rest[0]] + tail else tail
  }

  /** The suppression loop, on a list already sorted by confidence: keep the head, drop what
    * overlaps it too much, repeat. */
  function Suppress(sorted: seq<Detection>, threshold: real, overlap: (Detection, Detection) -> real): (keep: seq<Detection>)
    decreases |sorted|
  {
    if sorted == [] then []
    else [sorted[0]] + Suppress(Survivors(sorted[1..], sorted[0], threshold, overlap), threshold, overlap)
  }

  lemma {:induction false} SurvivorsSorted(rest: seq<Detection>, best: Detection, threshold: real, overlap: (Detection, Detection) -> real)
    requires SortedBy(rest, NegConfidence)
    ensures SortedBy(Survivors(rest, best, threshold, overlap), NegConfidence)
  {
    if rest != [] {
      var tail := Survivors(rest[1..], best, threshold, overlap);
      assert SortedBy(rest[1..], NegConfidence);
      SurvivorsSorted(rest[1..], best, threshold, overlap);
      forall d | d in tail ensures NegConfidence(rest[0]) <= NegConfidence(d) {
        var j :| 0 <= j < |rest[1..]| && rest[1..][j] == d;
        assert rest[j + 1] == d;
      }
    }
  }

  /** Suppression keeps the head of its input first, and is empty only for empty input. */
  lemma SuppressHead(sorted: seq<Detection>, threshold: real, overlap: (Detection, Detection) -> real)
    ensures sorted != [] ==> Suppress(sorted, threshold, overlap) != [] && Suppress(sorted, threshold, overlap)[0] == sorted[0]
    ensures sorted == [] ==> Suppress(sorted, threshold, overlap) == []
  {
  }

  /** Suppression keeps only detections of its input. */
  lemma {:induction false} SuppressDrawsFromInput(sorted: seq<Detection>, threshold: real, overlap: (Detection, Detection) -> real)
    ensures multiset(Suppress(sorted, threshold, overlap)) <= multiset(sorted)
    decreases |sorted|
  {
    if sorted != [] {
      var survivors := Survivors(sorted[1..], sorted[0], threshold, overlap);
      SuppressDrawsFromInput(survivors, threshold, overlap);
      assert sorted == [sorted[0]] + sorted[1..];
      assert multiset(Suppress(survivors, threshold, overlap)) <= multiset(sorted[1..]);
      assert Suppress(sorted, threshold, overlap) == [sorted[0]] + Suppress(survivors, threshold, overlap);
    }
  }

  /** Every detection kept after the head survived suppression against the head. */
  lemma SuppressTailSurvives(sorted: seq<Detection>, threshold: real, overlap: (Detection, Detection) -> real, d: Detection)
    requires sorted != [] && d in Suppress(sorted, threshold, overlap)[1..]
    ensures d in sorted[1..] && overlap(sorted[0], d) < threshold
  {
    var survivors := Survivors(sorted[1..], sorted[0], threshold, overlap);
    assert Suppress(sorted, threshold, overlap)[1..] == Suppress(survivors, threshold, overlap);
    SuppressDrawsFromInput(survivors, threshold, overlap);
    assert d in multiset(Suppress(survivors, threshold, overlap));
    assert d in multiset(survivors);
  }

  /** Suppression keeps the confidence order of its input. */
  lemma {:induction false} SuppressSorted(sorted: seq<Detection>, threshold: real, overlap: (Detection, Detection) -> real)
    requires SortedBy(sorted, NegConfidence)
    ensures SortedBy(Suppress(sorted, threshold, overlap), NegConfidence)
    decreases |sorted|
  {
    if sorted != [] {
      var survivors := Survivors(sorted[1..], sorted[0], threshold, overlap);
      assert SortedBy(sorted[1..], NegConfidence);
      SurvivorsSorted(sorted[1..], sorted[0], threshold, overlap);
      SuppressSorted(survivors, threshold, overlap);
      var keep := Suppress(sorted, threshold, overlap);
      forall i, j | 0 <= i < j < |keep| ensures NegConfidence(keep[i]) <= NegConfidence(keep[j]) {
        if i == 0 {
          assert keep[j] in keep[1..];
          SuppressTailSurvives(sorted, threshold, overlap, keep[j]);
          var k :| 0 <= k < |sorted[1..]| && sorted[1..][k] == keep[j];
          assert sorted[k + 1] == keep[j];
        } else {
          assert keep[i] == keep[1..][i - 1] && keep[j] == keep[1..][j - 1];
        }
      }
    }
  }

  /** No two kept detections overlap at or above the threshold. */
  lemma {:induction false} SuppressSeparated(sorted: seq<Detection>, threshold: real, overlap: (Detection, Detection) -> real)
    ensures var keep := Suppress(sorted, threshold, overlap);
      forall i, j :: 0 <= i < j < |keep| ==> overlap(keep[i], keep[j]) < threshold
    decreases |sorted|
  {
    if sorted != [] {
      var survivors := Survivors(sorted[1..], sorted[0], threshold, overlap);
      SuppressSeparated(survivors, threshold, overlap);
      var keep := Suppress(sorted, threshold, overlap);
      assert keep[0] == sorted[0] && keep[1..] == Suppress(survivors, threshold, overlap);
      forall i, j | 0 <= i < j < |keep| ensures overlap(keep[i], keep[j]) < threshold {
        if i == 0 {
          assert keep[j] in keep[1..];
          SuppressTailSurvives(sorted, threshold, overlap, keep[j]);
        } else {
          assert keep[i] == keep[1..][i - 1] && keep[j] == keep[1..][j - 1];
        }
      }
    }
  }

  /** One pass of the outer loop's body: the detections that do not overlap `best` too much. */
  method RemoveOverlapping(rest: seq<Detection>, best: Detection, threshold: real) returns (remaining: seq<Detection>)
    ensures remaining == Survivors(rest, best, threshold, Iou)
  {
    remaining := [];
    for i := 0 to |rest|
      invariant remaining == Survivors(rest[..i], best, threshold, Iou)
    {
      var d := rest[i];
      assert rest[..i + 1] == rest[..i] + [d];
      SurvivorsSnoc(rest[..i], d, best, threshold, Iou);
      var score := Iou(best, d);
      if score < threshold {
        remaining := remaining + [d];
      }
    }
    assert rest[..|rest|] == rest;
  }

  /** non_max_suppression: the configured merge threshold stands in for a missing one. */
  method NonMaxSuppression(detections: seq<Detection>, iouThreshold: Option<real>, configThreshold: real)
    returns (keep: seq<Detection>)
    ensures var threshold := if iouThreshold.Some? then iouThreshold.value else configThreshold;
      keep == Suppress(SortBy(detections, NegConfidence), threshold, Iou)
  {
    var threshold := if iouThreshold.Some? then iouThreshold.value else configThreshold;
    if detections == [] {
      return [];
    }
    var sortedDets := SortBy(detections, NegConfidence);
    keep := [];
    while sortedDets != []
      invariant keep + Suppress(sortedDets, threshold, Iou) == Suppress(SortBy(detections, NegConfidence), threshold, Iou)
      decreases |sortedDets|
    {
      var best := sortedDets[0];
      ghost var before := sortedDets;
      sortedDets := sortedDets[1..];
      keep := keep + [best];
      sortedDets := RemoveOverlapping(sortedDets, best, threshold);
      assert Suppress(before, threshold, Iou) == [best] + Suppress(sortedDets, threshold, Iou);
    }
  }

  lemma {:induction false} SurvivorsSnoc(s: seq<Detection>, d: Detection, best: Detection, threshold: real, overlap: (Detection, Detection) -> real)
    ensures Survivors(s + [d], best, threshold, overlap)
      == Survivors(s, best, threshold, overlap) + (if overlap(best, d) < threshold then [d] else [])
  {
    if s == [] {
      assert [d][1..] == [];
    } else {
      assert (s + [d])[1..] == s[1..] + [d];
      SurvivorsSnoc(s[1..], d, best, threshold, overlap);
    }
  }

  /** What non_max_suppression returns, stated on its input: a sub-collection, by decreasing
    * confidence, led by a most confident detection, pairwise below the threshold, empty only for
    * empty input. */
  lemma NmsProperties(detections: seq<Detection>, threshold: real)
    ensures var keep := Suppress(SortBy(detections, NegConfidence), threshold, Iou);
      && multiset(keep) <= multiset(detections)
      && (forall i, j :: 0 <= i < j < |keep| ==> keep[i].confidence >= keep[j].confidence)
      && (keep == [] <==> detections == [])
      && (keep != [] ==> keep[0] in detections && forall d :: d in detections ==> d.confidence <= keep[0].confidence)
      && forall i, j :: 0 <= i < j < |keep| ==> Iou(keep[i], keep[j]) < threshold
  {
    var sorted := SortBy(detections, NegConfidence);
    SortBySorted(detections, NegConfidence);
    SuppressDrawsFromInput(sorted, threshold, Iou);
    SuppressHead(sorted, threshold, Iou);
    SuppressSorted(sorted, threshold, Iou);
    SuppressSeparated(sorted, threshold, Iou);
    var keep := Suppress(sorted, threshold, Iou);
    if detections != [] {
      assert sorted != [];
      assert sorted[0] in multiset(detections);
      forall d | d in detections ensures d.confidence <= keep[0].confidence {
        assert d in multiset(sorted);
        var k :| 0 <= k < |sorted| && sorted[k] == d;
        assert NegConfidence(sorted[0]) <= NegConfidence(sorted[k]) || k == 0;
      }
    }
  }

  /** Everything the tiles saw, in frame coordinates, tile by tile (zip stops at the shorter list). */
  function AllInFrame(perTile: seq<seq<Detection>>, tiles: seq<Tile>): (ds: seq<Detection>)
    decreases |perTile|
  {
    if perTile == [] || tiles == [] then []
    else
      Converted(perTile[0], tiles[0]) + AllInFrame(perTile[1..], tiles[1..])
  }

  function Converted(ds: seq<Detection>, t: Tile): (out: seq<Detection>)
    ensures |out| == |ds| && forall i :: 0 <= i < |ds| ==> out[i] == Shift(ds[i], t.xOffset, t.yOffset)
  {
    if ds == [] then [] else [Shift(ds[0], t.xOffset, t.yOffset)] + Converted(ds[1..], t)
  }

  /** merge_tile_detections: convert each tile's detections, concatenate, then suppress. */
  method MergeTileDetections(perTile: seq<seq<Detection>>, tiles: seq<Tile>, iouThreshold: Option<real>,
                             configThreshold: real) returns (merged: seq<Detection>)
    ensures var threshold := if iouThreshold.Some? then iouThreshold.value else configThreshold;
      merged == Suppress(SortBy(AllInFrame(perTile, tiles), NegConfidence), threshold, Iou)
  {
    var frameDetections: seq<Detection> := [];
    var i := 0;
    while i < |perTile| && i < |tiles|
      invariant 0 <= i <= |perTile| && i <= |tiles|
      invariant frameDetections + AllInFrame(perTile[i..], tiles[i..]) == AllInFrame(perTile, tiles)
    {
      var converted := ConvertToFrameCoords(perTile[i], tiles[i]);
      assert converted == Converted(perTile[i], tiles[i]);
      assert perTile[i..][1..] == perTile[i + 1..] && tiles[i..][1..] == tiles[i + 1..];
      frameDetections := frameDetections + converted;
      i := i + 1;
    }
    assert AllInFrame(perTile[i..], tiles[i..]) == [];
    assert frameDetections == AllInFrame(perTile, tiles);
    merged := NonMaxSuppression(frameDetections, iouThreshold, configThreshold);
  }

  /** `d`, at index `k`, has the greatest confidence and nothing before it ties. */
  predicate FirstMostConfident(detections: seq<Detection>, k: int, d: Detection) {
    && 0 <= k < |detections| && detections[k] == d
    && (forall j :: 0 <= j < |detections| ==> detections[j].confidence <= d.confidence)
    && (forall j :: 0 <= j < k ==> detections[j].confidence < d.confidence)
  }

  /** get_best_detection: None for no detections, else the first one of greatest confidence. */
  function BestDetection(detections: seq<Detection>): (r: Option<Detection>)
    ensures r.None? <==> detections == []
    ensures r.Some? ==> exists k :: FirstMostConfident(detections, k, r.value)
  {
    if detections == [] then None
    else
      var last := detections[|detections| - 1];
      var front := detections[..|detections| - 1];
      match BestDetection(front)
      case None =>
        assert FirstMostConfident(detections, 0, last);
        Some(last)
      case Some(b) =>
        var k :| FirstMostConfident(front, k, b);
        assert forall j :: 0 <= j < |detections| - 1 ==> detections[j] == front[j];
        if last.confidence > b.confidence then
          assert FirstMostConfident(detections, |detections| - 1, last);
          Some(last)
        else
          assert FirstMostConfident(detections, k, b);
          Some(b)
  }

  /** The module's default tile configuration, replaced by set_tile_config. */
  class TileSettings {
    const configRows: int
    const configCols: int
    const configOverlap: real
    var defaultTileConfig: TileConfig

    ghost predicate Valid()
      reads this
    {
      ValidTileConfig(defaultTileConfig)
    }

    constructor (rows: int, cols: int, overlap: real)
      requires ValidTileConfig(TileConfig(rows, cols, overlap))
      ensures Valid() && defaultTileConfig == TileConfig(rows, cols, overlap)
      ensures configRows == rows && configCols == cols && configOverlap == overlap
    {
      configRows, configCols, configOverlap := rows, cols, overlap;
      defaultTileConfig := TileConfig(rows, cols, overlap);
    }

    /** set_tile_config: missing values come from the vision configuration; an invalid result
      * raises ValueError before the default is replaced. */
    method SetTileConfig(rows: Option<int>, cols: Option<int>, overlap: Option<real>) returns (r: Result<TileConfig>)
      requires Valid()
      modifies this
      ensures Valid()
      ensures r == MakeTileConfig(if rows.Some? then rows.value else configRows,
                                  if cols.Some? then cols.value else configCols,
                                  if overlap.Some? then overlap.value else configOverlap)
      ensures r.Ok? ==> defaultTileConfig == r.value
      ensures r.Err? ==> defaultTileConfig == old(defaultTileConfig)
    {
      var rr := if rows.Some? then rows.value else configRows;
      var cc := if cols.Some? then cols.value else configCols;
      var oo := if overlap.Some? then overlap.value else configOverlap;
      r := MakeTileConfig(rr, cc, oo);
      if r.Ok? {
        defaultTileConfig := r.value;
      }
    }

    function GetTileConfig(): (c: TileConfig)
      reads this
      requires Valid()
      ensures ValidTileConfig(c)
    {
      defaultTileConfig
    }
  }
}
