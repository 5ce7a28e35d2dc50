/** The static grid: from points to cells, from cells to regions and to the cells around them. */
module SpatialGrid {
  import opened Prelude

  type ChannelId = nat

  datatype Point = Point(x: real, z: real)

  datatype Config = Config(width: real, height: real, cols: nat, rows: nat, offset: Point,
                           serverCols: nat, serverRows: nat, border: nat, start: ChannelId)

  /** What loading a configuration checks and, which it does not check, that the ids of all cells fit in 32 bits. */
  ghost predicate Loaded(g: Config) {
    && g.width > 0.0 && g.height > 0.0
    && g.cols > 0 && g.rows > 0
    && g.serverCols > 0 && g.serverRows > 0
    && g.border > 0
    && g.start + g.cols * g.rows <= 0x1_0000_0000
  }

  ghost const UNIT_GRID := Config(1.0, 1.0, 1, 1, Point(0.0, 0.0), 1, 1, 1, 0x1_0000)

  type Grid = g: Config | Loaded(g) ghost witness UNIT_GRID

  // ---- points and cells ----

  /** The number of the interval of length `size`, counted from `offset`, that `v` is in. */
  function Interval(v: real, offset: real, size: real): int
    requires size > 0.0
  {
    ((v - offset) / size).Floor
  }

  /** Where the interval with this number begins. */
  function Edge(offset: real, size: real, k: int): real {
    offset + size * k as real
  }

  lemma EdgesAscend(offset: real, size: real, i: int, j: int)
    requires size > 0.0
    ensures i <= j <==> Edge(offset, size, i) <= Edge(offset, size, j)
  {
    assert i < j ==> size * i as real < size * j as real;
    assert j < i ==> size * j as real < size * i as real;
  }

  lemma Scaled(a: real, b: real, size: real)
    requires size > 0.0
    ensures a <= b <==> a * size <= b * size
  {
    assert a <= b ==> (b - a) * size >= 0.0;
    assert a > b ==> (a - b) * size > 0.0;
  }

  lemma AtOrAfterEdge(v: real, offset: real, size: real, k: int)
    requires size > 0.0
    ensures Edge(offset, size, k) <= v <==> k as real <= (v - offset) / size
  {
    var q := (v - offset) / size;
    assert q * size == v - offset;
    Scaled(k as real, q, size);
    assert size * k as real == k as real * size;
  }

  lemma IntervalBounds(v: real, offset: real, size: real, k: int)
    requires size > 0.0
    ensures Interval(v, offset, size) == k <==> Edge(offset, size, k) <= v < Edge(offset, size, k + 1)
  {
    hide Edge;
    AtOrAfterEdge(v, offset, size, k);
    AtOrAfterEdge(v, offset, size, k + 1);
  }

  lemma IntervalInRange(v: real, offset: real, size: real, n: nat)
    requires size > 0.0
    ensures 0 <= Interval(v, offset, size) < n <==> offset <= v < Edge(offset, size, n)
  {
    var k := Interval(v, offset, size);
    assert Edge(offset, size, 0) == offset;
    hide Interval, Edge;
    IntervalBounds(v, offset, size, k);
    EdgesAscend(offset, size, 0, k);
    EdgesAscend(offset, size, k + 1, 0);
    EdgesAscend(offset, size, n, k);
    EdgesAscend(offset, size, k + 1, n);
  }

  function Cells(g: Grid): nat {
    g.cols * g.rows
  }

  /** Counting row by row, `cols` to the row. */
  function Flat(cols: nat, x: nat, y: nat): nat {
    x + y * cols
  }

  lemma FlatSteps(cols: nat, x: nat, y: nat)
    ensures Flat(cols, x + 1, y) == Flat(cols, x, y) + 1
    ensures Flat(cols, cols, y) == Flat(cols, 0, y + 1)
    ensures Flat(cols, 0, 0) == 0
  {
  }

  lemma TimesAscends(a: nat, b: nat, c: nat)
    ensures a >= b ==> a * c >= b * c
    ensures a > b ==> a * c >= b * c + c
  {
    if a > b {
      assert (a - b - 1) * c >= 0;
      assert a * c == (a - b - 1) * c + b * c + c;
    }
  }

  lemma FlatBounds(cols: nat, rows: nat, x: nat, y: nat)
    requires x < cols && y < rows
    ensures Flat(cols, x, y) < cols * rows
    ensures Flat(cols, x, y) % cols == x && Flat(cols, x, y) / cols == y
  {
    TimesAscends(rows, y, cols);
    var n := Flat(cols, x, y);
    assert n == (n / cols) * cols + n % cols;
    TimesAscends(n / cols, y, cols);
    TimesAscends(y, n / cols, cols);
  }

  lemma FlatInverse(cols: nat, rows: nat, index: nat)
    requires index < cols * rows
    ensures cols > 0 && index / cols < rows && index == Flat(cols, index % cols, index / cols)
  {
    assert cols > 0;
    assert index == (index / cols) * cols + index % cols;
    TimesAscends(index / cols, rows, cols);
  }

  /** The place of a cell in the row by row order. */
  function CellIndex(g: Grid, x: nat, y: nat): (index: nat)
    requires x < g.cols && y < g.rows
    ensures index < Cells(g)
  {
    FlatBounds(g.cols, g.rows, x, y);
    Flat(g.cols, x, y)
  }

  lemma IndexPlace(g: Grid, index: nat)
    requires index < Cells(g)
    ensures g.cols > 0 && 0 <= index % g.cols < g.cols && 0 <= index / g.cols < g.rows
    ensures CellIndex(g, index % g.cols, index / g.cols) == index
  {
    FlatInverse(g.cols, g.rows, index);
    hide Flat;
  }

  function CellId(g: Grid, x: nat, y: nat): (id: ChannelId)
    requires x < g.cols && y < g.rows
    ensures IsCell(g, id)
  {
    g.start + CellIndex(g, x, y)
  }

  predicate IsCell(g: Grid, id: ChannelId) {
    g.start <= id < g.start + Cells(g)
  }

  function Column(g: Grid, id: ChannelId): (x: nat)
    requires IsCell(g, id)
    ensures x < g.cols
  {
    (id - g.start) % g.cols
  }

  function Row(g: Grid, id: ChannelId): (y: nat)
    requires IsCell(g, id)
    ensures y < g.rows && id == CellId(g, Column(g, id), y)
  {
    IndexPlace(g, id - g.start);
    (id - g.start) / g.cols
  }

  /** A cell's id tells its column and its row, and these tell the id. */
  lemma PlaceOf(g: Grid, x: nat, y: nat)
    requires x < g.cols && y < g.rows
    ensures Column(g, CellId(g, x, y)) == x && Row(g, CellId(g, x, y)) == y
    ensures forall b :: IsCell(g, b) && Column(g, b) == x && Row(g, b) == y ==> b == CellId(g, x, y)
  {
    FlatBounds(g.cols, g.rows, x, y);
    hide Flat, Cells;
  }

  function GetChannelIdWithOffset(g: Grid, p: Point, offset: Point): Result<ChannelId> {
    var x := Interval(p.x, offset.x, g.width);
    if x < 0 || x >= g.cols then Err
    else
      var y := Interval(p.z, offset.z, g.height);
      if y < 0 || y >= g.rows then Err
      else Ok(CellId(g, x, y))
  }

  function GetChannelId(g: Grid, p: Point): Result<ChannelId> {
    GetChannelIdWithOffset(g, p, g.offset)
  }

  // ---- regions ----

  datatype Region = Region(min: Point, max: Point, id: ChannelId, server: nat)

  predicate Inside(r: Region, p: Point) {
    r.min.x <= p.x < r.max.x && r.min.z <= p.z < r.max.z
  }

  /** Inside a region or on its boundary. */
  predicate Touches(r: Region, p: Point) {
    r.min.x <= p.x <= r.max.x && r.min.z <= p.z <= r.max.z
  }

  /** Two regions have a point in common, on their boundaries or inside. */
  ghost predicate Meet(r: Region, s: Region) {
    exists p :: Touches(r, p) && Touches(s, p)
  }

  /** How many cells each of `servers` gets along an axis of `cells`. */
  function Share(cells: nat, servers: nat): (n: nat)
    requires cells > 0 && servers > 0
    ensures n > 0
  {
    ShareCovers(cells, servers);
    cells / servers + (if cells % servers > 0 then 1 else 0)
  }

  lemma ShareCovers(cells: nat, servers: nat)
    requires cells > 0 && servers > 0
    ensures var n := cells / servers + (if cells % servers > 0 then 1 else 0);
            n > 0 && n * servers >= cells && (cells % servers == 0 <==> n * servers == cells)
  {
    assert cells == (cells / servers) * servers + cells % servers;
    assert (cells / servers + 1) * servers == (cells / servers) * servers + servers;
  }

  /** Which server a cell is for. */
  function ServerOf(g: Grid, x: nat, y: nat): nat {
    Flat(g.serverCols, x / Share(g.cols, g.serverCols), y / Share(g.rows, g.serverRows))
  }

  function CornerOf(g: Grid, x: nat, y: nat): Point {
    Point(Edge(g.offset.x, g.width, x), Edge(g.offset.z, g.height, y))
  }

  /** The region of the cell with this index. */
  function RegionAt(g: Grid, index: nat): Region {
    var x, y := index % g.cols, index / g.cols;
    Region(CornerOf(g, x, y), CornerOf(g, x + 1, y + 1), g.start + index, ServerOf(g, x, y))
  }

  method GetRegions(g: Grid) returns (regions: seq<Region>)
    ensures |regions| == Cells(g)
    ensures forall k :: 0 <= k < |regions| ==> regions[k] == RegionAt(g, k)
  {
    hide Share, Edge, Flat;
    var serverGridCols, serverGridRows := Share(g.cols, g.serverCols), Share(g.rows, g.serverRows);
    var filled := new Region[Cells(g)];
    FlatSteps(g.cols, 0, 0);
    for y := 0 to g.rows
      invariant forall k :: 0 <= k < Flat(g.cols, 0, y) && k < filled.Length ==> filled[k] == RegionAt(g, k)
    {
      for x := 0 to g.cols
        invariant forall k :: 0 <= k < Flat(g.cols, x, y) && k < filled.Length ==> filled[k] == RegionAt(g, k)
      {
        var index := CellIndex(g, x, y);
        filled[index] := Region(
          Point(Edge(g.offset.x, g.width, x), Edge(g.offset.z, g.height, y)),
          Point(Edge(g.offset.x, g.width, x + 1), Edge(g.offset.z, g.height, y + 1)),
          g.start + index,
          Flat(g.serverCols, x / serverGridCols, y / serverGridRows));
        FlatBounds(g.cols, g.rows, x, y);
        FlatSteps(g.cols, x, y);
      }
      FlatSteps(g.cols, 0, y);
    }
    AllFilled(g);
    regions := filled[..];
  }

  lemma AllFilled(g: Grid)
    ensures Flat(g.cols, 0, g.rows) == Cells(g)
  {
  }

  /** A point's channel is the cell whose column and row the point is in. */
  lemma CellOnAxes(g: Grid, p: Point, id: ChannelId)
    requires IsCell(g, id)
    ensures GetChannelId(g, p) == Ok(id) <==>
            Interval(p.x, g.offset.x, g.width) == Column(g, id) && Interval(p.z, g.offset.z, g.height) == Row(g, id)
  {
    var x, y := Interval(p.x, g.offset.x, g.width), Interval(p.z, g.offset.z, g.height);
    if 0 <= x < g.cols && 0 <= y < g.rows {
      PlaceOf(g, x, y);
    }
    hide Interval, Column, Row, CellId;
  }

  /** A point's channel is the one whose region holds the point. */
  lemma RegionHoldsItsPoints(g: Grid, p: Point, index: nat)
    requires index < Cells(g)
    ensures Inside(RegionAt(g, index), p) <==> GetChannelId(g, p) == Ok(RegionAt(g, index).id)
  {
    var id := g.start + index;
    CellOnAxes(g, p, id);
    IntervalBounds(p.x, g.offset.x, g.width, Column(g, id));
    IntervalBounds(p.z, g.offset.z, g.height, Row(g, id));
    hide Interval, Edge, ServerOf, GetChannelId;
  }

  predicate InWorld(g: Grid, p: Point) {
    && g.offset.x <= p.x < Edge(g.offset.x, g.width, g.cols)
    && g.offset.z <= p.z < Edge(g.offset.z, g.height, g.rows)
  }

  /** Every point of the half-open world has a channel, which is a cell, and no other point has one. */
  lemma ChannelsCoverTheWorld(g: Grid, p: Point)
    ensures GetChannelId(g, p).Ok? <==> InWorld(g, p)
    ensures GetChannelId(g, p).Ok? ==> IsCell(g, GetChannelId(g, p).value)
  {
    IntervalInRange(p.x, g.offset.x, g.width, g.cols);
    IntervalInRange(p.z, g.offset.z, g.height, g.rows);
  }

  /** The regions cover the world and do not overlap. */
  lemma OneRegionPerPoint(g: Grid, p: Point, regions: seq<Region>)
    requires |regions| == Cells(g) && forall k :: 0 <= k < |regions| ==> regions[k] == RegionAt(g, k)
    ensures InWorld(g, p) <==> exists k :: 0 <= k < |regions| && Inside(regions[k], p)
    ensures forall j, k :: 0 <= j < |regions| && 0 <= k < |regions| && Inside(regions[j], p) && Inside(regions[k], p)
              ==> j == k
  {
    ChannelsCoverTheWorld(g, p);
    forall k | 0 <= k < |regions|
      ensures Inside(regions[k], p) <==> GetChannelId(g, p) == Ok(g.start + k)
    {
      RegionHoldsItsPoints(g, p, k);
    }
    if InWorld(g, p) {
      var index := GetChannelId(g, p).value - g.start;
      assert Inside(regions[index], p);
    }
  }

  lemma QuotientBelow(i: nat, cells: nat, servers: nat)
    requires i < cells && servers > 0
    ensures i / Share(cells, servers) < servers
  {
    var share := Share(cells, servers);
    ShareCovers(cells, servers);
    assert i == (i / share) * share + i % share;
    TimesAscends(i / share, servers, share);
  }

  /** Rounding the servers' shares up never names a server that does not exist. */
  lemma ServerIndexInRange(g: Grid, index: nat)
    requires index < Cells(g)
    ensures RegionAt(g, index).server < g.serverCols * g.serverRows
    ensures RegionAt(g, index).server % g.serverCols == index % g.cols / Share(g.cols, g.serverCols)
    ensures RegionAt(g, index).server / g.serverCols == index / g.cols / Share(g.rows, g.serverRows)
  {
    hide Share, CornerOf, Flat;
    var x, y := index % g.cols, index / g.cols;
    FlatInverse(g.cols, g.rows, index);
    QuotientBelow(x, g.cols, g.serverCols);
    QuotientBelow(y, g.rows, g.serverRows);
    FlatBounds(g.serverCols, g.serverRows, x / Share(g.cols, g.serverCols), y / Share(g.rows, g.serverRows));
  }

  // ---- neighbours ----

  /** Two different cells at most one column and one row apart. */
  predicate Adjacent(g: Grid, a: ChannelId, b: ChannelId) {
    && IsCell(g, a) && IsCell(g, b) && a != b
    && -1 <= Column(g, a) - Column(g, b) <= 1
    && -1 <= Row(g, a) - Row(g, b) <= 1
  }

  predicate Before(g: Grid, id: ChannelId, x: int, y: int)
    requires IsCell(g, id)
  {
    Row(g, id) < y || (Row(g, id) == y && Column(g, id) < x)
  }

  lemma RowByRow(g: Grid, a: ChannelId, b: ChannelId)
    requires IsCell(g, a) && IsCell(g, b) && Before(g, a, Column(g, b), Row(g, b))
    ensures a < b
  {
    TimesAscends(Row(g, b), Row(g, a), g.cols);
    var _ := CellIndex(g, Column(g, a), Row(g, a));
    hide Row, Column;
  }

  /** A number as a signed one of 32 bits. */
  function Int32(n: int): (r: int)
    ensures -0x8000_0000 <= r < 0x8000_0000
    ensures -0x8000_0000 <= n < 0x8000_0000 ==> r == n
  {
    (n + 0x8000_0000) % 0x1_0000_0000 - 0x8000_0000
  }

  /** Where a channel is in the row by row order; for ids below the first cell's the subtraction wraps. */
  function IndexOf(g: Grid, id: ChannelId): (index: nat)
    ensures IsCell(g, id) ==> index == id - g.start
  {
    (id - g.start) % 0x1_0000_0000
  }

  /** The cells at most one column and one row from a place, which itself may be outside the grid. */
  predicate Around(g: Grid, x: int, y: int, b: ChannelId) {
    && IsCell(g, b)
    && -1 <= x - Column(g, b) <= 1 && -1 <= y - Row(g, b) <= 1
    && !(Column(g, b) == x && Row(g, b) == y)
  }

  lemma AroundCells(g: Grid, id: ChannelId)
    requires IsCell(g, id)
    ensures forall b :: Around(g, Column(g, id), Row(g, id), b) <==> Adjacent(g, id, b)
  {
    forall b | IsCell(g, b) && Column(g, b) == Column(g, id) && Row(g, b) == Row(g, id) ensures b == id {
      PlaceOf(g, Column(g, id), Row(g, id));
    }
    hide Column, Row;
  }

  /**
   The cells around the place that the id stands for, in ascending order; for the id of a cell, its
   neighbours. Rows and columns are counted in 32-bit signed integers, and the loops would not end
   if one of them reached the largest.
   */
  method GetAdjacentChannels(g: Grid, id: ChannelId) returns (ids: seq<ChannelId>)
    requires g.cols < 0x7fff_ffff && g.rows < 0x7fff_ffff
    requires id < 0x1_0000_0000 && IndexOf(g, id) / g.cols != 0x7fff_fffe
    ensures forall b :: b in ids <==> Around(g, IndexOf(g, id) % g.cols, Int32(IndexOf(g, id) / g.cols), b)
    ensures IsCell(g, id) ==> forall b :: b in ids <==> Adjacent(g, id, b)
    ensures forall i, j :: 0 <= i < j < |ids| ==> ids[i] < ids[j]
  {
    var index := IndexOf(g, id);
    var gridX, gridY := Int32(index % g.cols), Int32(index / g.cols);
    if IsCell(g, id) {
      AroundCells(g, id);
    }
    hide Column, Row, IsCell, CellId, Adjacent, Int32, IndexOf;
    ids := [];
    var y := Int32(gridY - 1);
    while y <= Int32(gridY + 1)
      invariant forall b :: b in ids <==> Around(g, gridX, gridY, b) && Row(g, b) < y
      invariant forall i, j :: 0 <= i < j < |ids| ==> ids[i] < ids[j]
    {
      if 0 <= y <= g.rows - 1 {
        ids := AdjacentInRow(g, gridX, gridY, y, ids);
      }
      y := y + 1;
    }
  }

  /** The inner loop. */
  method AdjacentInRow(g: Grid, gridX: nat, gridY: int, y: nat, before: seq<ChannelId>) returns (ids: seq<ChannelId>)
    requires gridX < g.cols < 0x7fff_ffff && y < g.rows && -1 <= gridY - y <= 1
    requires forall b :: b in before <==> Around(g, gridX, gridY, b) && Row(g, b) < y
    requires forall i, j :: 0 <= i < j < |before| ==> before[i] < before[j]
    ensures forall b :: b in ids <==> Around(g, gridX, gridY, b) && Row(g, b) < y + 1
    ensures forall i, j :: 0 <= i < j < |ids| ==> ids[i] < ids[j]
  {
    hide Column, Row, IsCell, CellId;
    ids := before;
    for x: int := gridX - 1 to gridX + 2
      invariant forall b :: b in ids <==> Around(g, gridX, gridY, b) && Before(g, b, x, y)
      invariant forall i, j :: 0 <= i < j < |ids| ==> ids[i] < ids[j]
    {
      if x < 0 || x > g.cols - 1 {
        continue;
      }
      if x == gridX && y == gridY {
        continue;
      }
      var next := CellId(g, x, y);
      PlaceOf(g, x, y);
      forall i | 0 <= i < |ids| ensures ids[i] < next {
        assert ids[i] in ids;
        RowByRow(g, ids[i], next);
      }
      ids := ids + [next];
    }
  }

  lemma AdjacencyIsSymmetric(g: Grid, a: ChannelId, b: ChannelId)
    ensures Adjacent(g, a, b) <==> Adjacent(g, b, a)
    ensures !Adjacent(g, a, a)
  {
  }

  function Max(a: real, b: real): real {
    if a < b then b else a
  }

  lemma IntervalsTouch(offset: real, size: real, i: nat, j: nat)
    requires size > 0.0
    ensures var corner := Max(Edge(offset, size, i), Edge(offset, size, j));
            -1 <= i - j <= 1 <==> corner <= Edge(offset, size, i + 1) && corner <= Edge(offset, size, j + 1)
  {
    hide Edge;
    EdgesAscend(offset, size, i, i + 1);
    EdgesAscend(offset, size, j, j + 1);
    EdgesAscend(offset, size, i, j + 1);
    EdgesAscend(offset, size, j, i + 1);
  }

  /** The neighbours of a cell are the other cells whose regions touch its own. */
  lemma NeighboursTouch(g: Grid, a: ChannelId, b: ChannelId)
    requires IsCell(g, a) && IsCell(g, b)
    ensures Adjacent(g, a, b) <==>
            a != b && Meet(RegionAt(g, a - g.start), RegionAt(g, b - g.start))
  {
    hide Edge, ServerOf;
    var ra, rb := RegionAt(g, a - g.start), RegionAt(g, b - g.start);
    var corner := Point(Max(ra.min.x, rb.min.x), Max(ra.min.z, rb.min.z));
    IntervalsTouch(g.offset.x, g.width, Column(g, a), Column(g, b));
    IntervalsTouch(g.offset.z, g.height, Row(g, a), Row(g, b));
    assert Touches(ra, corner) && Touches(rb, corner) ==> Meet(ra, rb);
  }
}
