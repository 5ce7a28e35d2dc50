/** Blocks of cells for spatial servers, and the border cells a server subscribes to. */
module ServerBlocks {
  import opened Prelude
  import opened SpatialGrid

  // ---- slots and their blocks ----

  function Slots(g: Grid): nat {
    g.serverCols * g.serverRows
  }

  /** How many columns, and how many rows, of cells a server gets. */
  function BlockCols(g: Grid): (n: nat)
    ensures n > 0
  {
    Share(g.cols, g.serverCols)
  }

  function BlockRows(g: Grid): (n: nat)
    ensures n > 0
  {
    Share(g.rows, g.serverRows)
  }

  function SlotX(g: Grid, slot: nat): nat {
    slot % g.serverCols
  }

  function SlotY(g: Grid, slot: nat): nat {
    slot / g.serverCols
  }

  /** The first of the columns, or rows, of the block with this number. */
  function First(number: nat, share: nat): nat {
    number * share
  }

  lemma FirstOfNext(number: nat, share: nat)
    ensures First(number + 1, share) == First(number, share) + share
    ensures number > 0 ==> First(number, share) >= share
  {
    if number > 0 {
      TimesAscends(number, 1, share);
    }
  }

  /** The k-th column or row is in the block iff the division says so. */
  lemma InShare(k: nat, number: nat, share: nat)
    requires share > 0
    ensures First(number, share) <= k < First(number, share) + share <==> k / share == number
  {
    assert k == (k / share) * share + k % share;
    TimesAscends(k / share, number, share);
    TimesAscends(number, k / share, share);
  }

  predicate InBlock(g: Grid, slot: nat, x: nat, y: nat) {
    && First(SlotX(g, slot), BlockCols(g)) <= x < First(SlotX(g, slot), BlockCols(g)) + BlockCols(g)
    && First(SlotY(g, slot), BlockRows(g)) <= y < First(SlotY(g, slot), BlockRows(g)) + BlockRows(g)
  }

  /** No cell of the block lies past the last column or row of the grid. */
  predicate BlockFits(g: Grid, slot: nat) {
    && First(SlotX(g, slot), BlockCols(g)) + BlockCols(g) <= g.cols
    && First(SlotY(g, slot), BlockRows(g)) + BlockRows(g) <= g.rows
  }

  predicate Divides(g: Grid) {
    g.cols % g.serverCols == 0 && g.rows % g.serverRows == 0
  }

  lemma LastShare(number: nat, cells: nat, servers: nat)
    requires cells > 0 && number < servers
    ensures cells % servers == 0 ==> First(number, Share(cells, servers)) + Share(cells, servers) <= cells
    ensures number == servers - 1 && First(number, Share(cells, servers)) + Share(cells, servers) <= cells
            ==> cells % servers == 0
  {
    var share := Share(cells, servers);
    ShareCovers(cells, servers);
    FirstOfNext(number, share);
    TimesAscends(servers, number + 1, share);
  }

  lemma SlotPlace(g: Grid, slot: nat)
    requires slot < Slots(g)
    ensures SlotX(g, slot) < g.serverCols && SlotY(g, slot) < g.serverRows
    ensures slot == Flat(g.serverCols, SlotX(g, slot), SlotY(g, slot))
  {
    FlatInverse(g.serverCols, g.serverRows, slot);
  }

  /** Every slot's channels can be created iff the server counts divide the grid. */
  lemma AllBlocksFitIff(g: Grid)
    ensures (forall slot :: 0 <= slot < Slots(g) ==> BlockFits(g, slot)) <==> Divides(g)
  {
    var last := Flat(g.serverCols, g.serverCols - 1, g.serverRows - 1);
    FlatBounds(g.serverCols, g.serverRows, g.serverCols - 1, g.serverRows - 1);
    hide Share, Flat, First;
    LastShare(g.serverCols - 1, g.cols, g.serverCols);
    LastShare(g.serverRows - 1, g.rows, g.serverRows);
    if Divides(g) {
      forall slot | 0 <= slot < Slots(g) ensures BlockFits(g, slot) {
        SlotPlace(g, slot);
        LastShare(SlotX(g, slot), g.cols, g.serverCols);
        LastShare(SlotY(g, slot), g.rows, g.serverRows);
      }
    } else {
      assert !BlockFits(g, last);
    }
  }

  ghost const THREE_FOR_TWO: Grid := Config(1.0, 1.0, 3, 1, Point(0.0, 0.0), 2, 1, 1, 0x1_0000)

  /** Three columns for two servers: shares of two, and the second block reaches past the grid. */
  lemma SecondBlockDoesNotFit()
    ensures BlockFits(THREE_FOR_TWO, 0) && !BlockFits(THREE_FOR_TWO, 1)
  {
    assert Share(3, 2) == 2;
  }

  /** A cell is in a slot's block iff its region names that server. */
  lemma BlockIsTheServersRegions(g: Grid, slot: nat, index: nat)
    requires slot < Slots(g) && index < Cells(g)
    ensures InBlock(g, slot, index % g.cols, index / g.cols) <==> RegionAt(g, index).server == slot
  {
    ServerIndexInRange(g, index);
    SlotPlace(g, slot);
    SlotPlace(g, RegionAt(g, index).server);
    hide Share, Flat, First, CornerOf;
    InShare(index % g.cols, SlotX(g, slot), BlockCols(g));
    InShare(index / g.cols, SlotY(g, slot), BlockRows(g));
  }

  // ---- making the channels of a block ----

  const NO_OFFSET := Point(0.0, 0.0)

  /** The lower edge of the k-th cell, counted without an offset. */
  function LowerEdge(k: nat, size: real): real {
    k as real * size
  }

  lemma LowerEdgeIsInItsCell(k: nat, size: real)
    requires size > 0.0
    ensures Interval(LowerEdge(k, size), 0.0, size) == k
  {
    IntervalBounds(LowerEdge(k, size), 0.0, size, k);
    EdgesAscend(0.0, size, k + 1, k);
  }

  /** The channel of the lower corner of the cell in column `x`, row `y`, if there is one. */
  function CornerChannel(g: Grid, x: nat, y: nat): Result<ChannelId> {
    GetChannelIdWithOffset(g, Point(LowerEdge(x, g.width), LowerEdge(y, g.height)), NO_OFFSET)
  }

  lemma CornerChannelIs(g: Grid, x: nat, y: nat)
    ensures CornerChannel(g, x, y) == if x < g.cols && y < g.rows then Ok(CellId(g, x, y)) else Err
  {
    hide Interval, LowerEdge, CellId;
    LowerEdgeIsInItsCell(x, g.width);
    LowerEdgeIsInItsCell(y, g.height);
  }

  /** The cells of a slot's block. */
  ghost predicate OwnCell(g: Grid, slot: nat, id: ChannelId) {
    IsCell(g, id) && InBlock(g, slot, Column(g, id), Row(g, id))
  }

  ghost predicate NoRepeats(ids: seq<ChannelId>) {
    forall j, k :: 0 <= j < k < |ids| ==> ids[j] != ids[k]
  }

  /** The ids are those of cells from column `x0`, row `y0` on, as many to the row as a block is wide. */
  ghost predicate ListsRows(g: Grid, x0: nat, y0: nat, ids: seq<ChannelId>) {
    forall k :: 0 <= k < |ids| ==> Ok(ids[k]) == CornerChannel(g, x0 + k % BlockCols(g), y0 + k / BlockCols(g))
  }

  lemma BlockListing(g: Grid, slot: nat, ids: seq<ChannelId>)
    requires slot < Slots(g) && BlockFits(g, slot) && |ids| == BlockCols(g) * BlockRows(g)
    requires ListsRows(g, First(SlotX(g, slot), BlockCols(g)), First(SlotY(g, slot), BlockRows(g)), ids)
    ensures NoRepeats(ids) && forall id :: id in ids <==> OwnCell(g, slot, id)
  {
    hide ListsRows, OwnCell, BlockFits, ListedInBlock;
    forall k | 0 <= k < |ids| ensures ListedInBlock(g, slot, ids, k) {
      ListedIsOwn(g, slot, ids, k);
    }
    forall id | OwnCell(g, slot, id) ensures id in ids {
      OwnIsListed(g, slot, ids, id);
    }
    ListedOwnOnce(g, slot, ids);
  }

  ghost predicate ListedInBlock(g: Grid, slot: nat, ids: seq<ChannelId>, k: nat)
    requires k < |ids|
  {
    && OwnCell(g, slot, ids[k])
    && k == Flat(BlockCols(g), Column(g, ids[k]) - First(SlotX(g, slot), BlockCols(g)),
                 Row(g, ids[k]) - First(SlotY(g, slot), BlockRows(g)))
  }

  lemma ListedOwnOnce(g: Grid, slot: nat, ids: seq<ChannelId>)
    requires forall k :: 0 <= k < |ids| ==> ListedInBlock(g, slot, ids, k)
    ensures NoRepeats(ids) && forall id :: id in ids ==> OwnCell(g, slot, id)
  {
    hide OwnCell, Flat, First, Column, Row, IsCell;
    forall j, k | 0 <= j < k < |ids| ensures ids[j] != ids[k] {
      assert ListedInBlock(g, slot, ids, j) && ListedInBlock(g, slot, ids, k);
    }
    forall id | id in ids ensures OwnCell(g, slot, id) {
      var k :| 0 <= k < |ids| && ids[k] == id;
      assert ListedInBlock(g, slot, ids, k);
    }
  }

  lemma ListedIsOwn(g: Grid, slot: nat, ids: seq<ChannelId>, k: nat)
    requires slot < Slots(g) && BlockFits(g, slot) && k < |ids| == BlockCols(g) * BlockRows(g)
    requires ListsRows(g, First(SlotX(g, slot), BlockCols(g)), First(SlotY(g, slot), BlockRows(g)), ids)
    ensures ListedInBlock(g, slot, ids, k)
  {
    hide CornerChannel, Flat, OwnCell, BlockFits, First, BlockCols, BlockRows;
    FlatInverse(BlockCols(g), BlockRows(g), k);
    PlacedIsOwn(g, slot, k % BlockCols(g), k / BlockCols(g));
  }

  lemma PlacedIsOwn(g: Grid, slot: nat, dx: nat, dy: nat)
    requires BlockFits(g, slot) && dx < BlockCols(g) && dy < BlockRows(g)
    ensures var (x, y) := (First(SlotX(g, slot), BlockCols(g)) + dx, First(SlotY(g, slot), BlockRows(g)) + dy);
            var r := CornerChannel(g, x, y);
            r.Ok? && OwnCell(g, slot, r.value) && Column(g, r.value) == x && Row(g, r.value) == y
  {
    hide First, BlockCols, BlockRows, CornerChannel, Column, Row, CellId;
    var x, y := First(SlotX(g, slot), BlockCols(g)) + dx, First(SlotY(g, slot), BlockRows(g)) + dy;
    CornerChannelIs(g, x, y);
    PlaceOf(g, x, y);
  }

  lemma OwnIsListed(g: Grid, slot: nat, ids: seq<ChannelId>, id: ChannelId)
    requires slot < Slots(g) && BlockFits(g, slot) && |ids| == BlockCols(g) * BlockRows(g) && OwnCell(g, slot, id)
    requires ListsRows(g, First(SlotX(g, slot), BlockCols(g)), First(SlotY(g, slot), BlockRows(g)), ids)
    ensures id in ids
  {
    hide First, BlockCols, BlockRows, CornerChannel, Flat, CellId;
    var x, y := Column(g, id), Row(g, id);
    var k := Flat(BlockCols(g), x - First(SlotX(g, slot), BlockCols(g)), y - First(SlotY(g, slot), BlockRows(g)));
    FlatBounds(BlockCols(g), BlockRows(g), x - First(SlotX(g, slot), BlockCols(g)),
               y - First(SlotY(g, slot), BlockRows(g)));
    CornerChannelIs(g, x, y);
    assert ids[k] == id;
  }

  /** The ids a server's block gets, in the order of the loops, or an error at the first that is not a cell. */
  method BlockChannels(g: Grid, slot: nat) returns (r: Result<seq<ChannelId>>)
    requires slot < Slots(g)
    ensures r.Ok? <==> BlockFits(g, slot)
    ensures r.Ok? ==> NoRepeats(r.value) && forall id :: id in r.value <==> OwnCell(g, slot, id)
  {
    var x0, y0 := First(SlotX(g, slot), BlockCols(g)), First(SlotY(g, slot), BlockRows(g));
    hide Share, First, CornerChannel, Flat, BlockCols, BlockRows;
    var ids: seq<ChannelId> := [];
    FlatSteps(BlockCols(g), 0, 0);
    for y := 0 to BlockRows(g)
      invariant |ids| == Flat(BlockCols(g), 0, y)
      invariant y > 0 ==> x0 + BlockCols(g) <= g.cols
      invariant y0 + y <= g.rows || y == 0
      invariant ListsRows(g, x0, y0, ids)
    {
      for x := 0 to BlockCols(g)
        invariant |ids| == Flat(BlockCols(g), x, y)
        invariant x > 0 ==> x0 + x <= g.cols && y0 + y < g.rows
        invariant ListsRows(g, x0, y0, ids)
      {
        CornerChannelIs(g, x0 + x, y0 + y);
        var id := CornerChannel(g, x0 + x, y0 + y);
        if id.Err? {
          return Err;
        }
        FlatBounds(BlockCols(g), y + 1, x, y);
        ids := ids + [id.value];
        FlatSteps(BlockCols(g), x, y);
      }
      FlatSteps(BlockCols(g), 0, y);
    }
    BlockArea(BlockCols(g), BlockRows(g));
    BlockListing(g, slot, ids);
    return Ok(ids);
  }

  lemma BlockArea(cols: nat, rows: nat)
    ensures Flat(cols, 0, rows) == cols * rows
  {
  }

  // ---- border cells ----

  datatype Side = Right | Left | Top | Bottom

  /** The slot has a neighbour on this side. */
  predicate Faces(g: Grid, slot: nat, side: Side) {
    match side
    case Right => SlotX(g, slot) > 0
    case Left => SlotX(g, slot) < g.serverCols - 1
    case Top => SlotY(g, slot) > 0
    case Bottom => SlotY(g, slot) < g.serverRows - 1
  }

  /** How often the outer loop, and how often the inner loop over this side runs. */
  function Rounds(g: Grid, side: Side): nat {
    if side.Right? || side.Left? then BlockRows(g) else g.border
  }

  function PerRound(g: Grid, side: Side): (n: nat)
    ensures n > 0
  {
    if side.Right? || side.Left? then g.border else BlockCols(g)
  }

  /** 32-bit unsigned subtraction. */
  function Wrapped(v: int): nat {
    v % 0x1_0000_0000
  }

  function TargetX(g: Grid, slot: nat, side: Side, i: nat): nat {
    match side
    case Right => Wrapped(First(SlotX(g, slot), BlockCols(g)) - (i + 1))
    case Left => First(SlotX(g, slot) + 1, BlockCols(g)) + i
    case _ => First(SlotX(g, slot), BlockCols(g)) + i
  }

  function TargetY(g: Grid, slot: nat, side: Side, o: nat): nat {
    match side
    case Top => Wrapped(First(SlotY(g, slot), BlockRows(g)) - (o + 1))
    case Bottom => First(SlotY(g, slot) + 1, BlockRows(g)) + o
    case _ => First(SlotY(g, slot), BlockRows(g)) + o
  }

  function Target(g: Grid, slot: nat, side: Side, o: nat, i: nat): Result<ChannelId> {
    CornerChannel(g, TargetX(g, slot, side, i), TargetY(g, slot, side, o))
  }

  /** The k-th target over all rounds. */
  function TargetAt(g: Grid, slot: nat, side: Side, k: nat): Result<ChannelId> {
    Target(g, slot, side, k / PerRound(g, side), k % PerRound(g, side))
  }

  predicate Subscribable(r: Result<ChannelId>, present: set<ChannelId>) {
    r.Ok? && r.value in present
  }

  /** The ids are the targets on this side, round by round. */
  ghost predicate ListsSide(g: Grid, slot: nat, side: Side, ids: seq<ChannelId>) {
    && |ids| == PerRound(g, side) * Rounds(g, side)
    && forall k :: 0 <= k < |ids| ==> Ok(ids[k]) == TargetAt(g, slot, side, k)
  }

  /** The nested loops over one side; they stop with an error at a target that is no channel. */
  method SubscribeSide(g: Grid, slot: nat, side: Side, present: set<ChannelId>) returns (ids: seq<ChannelId>, ok: bool)
    requires slot < Slots(g)
    ensures ok <==> forall o, i :: 0 <= o < Rounds(g, side) && 0 <= i < PerRound(g, side) ==>
              Subscribable(Target(g, slot, side, o, i), present)
    ensures ok ==> ListsSide(g, slot, side, ids)
  {
    hide Target, Rounds, PerRound, Flat;
    ids := [];
    FlatSteps(PerRound(g, side), 0, 0);
    for o := 0 to Rounds(g, side)
      invariant |ids| == Flat(PerRound(g, side), 0, o)
      invariant forall k :: 0 <= k < |ids| ==> Ok(ids[k]) == TargetAt(g, slot, side, k)
      invariant forall o', i' :: 0 <= o' < o && 0 <= i' < PerRound(g, side) ==>
                  Subscribable(Target(g, slot, side, o', i'), present)
    {
      for i := 0 to PerRound(g, side)
        invariant |ids| == Flat(PerRound(g, side), i, o)
        invariant forall k :: 0 <= k < |ids| ==> Ok(ids[k]) == TargetAt(g, slot, side, k)
        invariant forall i' :: 0 <= i' < i ==> Subscribable(Target(g, slot, side, o, i'), present)
      {
        var id := Target(g, slot, side, o, i);
        if id.Err? || id.value !in present {
          return ids, false;
        }
        FlatBounds(PerRound(g, side), o + 1, i, o);
        FlatSteps(PerRound(g, side), i, o);
        ids := ids + [id.value];
      }
      FlatSteps(PerRound(g, side), 0, o);
    }
    BlockArea(PerRound(g, side), Rounds(g, side));
    ok := true;
  }

  /** The interest border is no wider than a block, and the server counts divide the grid. */
  predicate BordersFit(g: Grid) {
    Divides(g) && g.border <= BlockCols(g) && g.border <= BlockRows(g)
  }

  /** At most a border to the left or to the right of the block, on one of its rows. */
  predicate Beside(g: Grid, x0: int, share: nat, y0: int, height: nat, x: int, y: int) {
    y0 <= y < y0 + height && (x0 - g.border <= x < x0 || x0 + share <= x < x0 + share + g.border)
  }

  /** The cell is straight across one side of the slot's block, at most a border away. */
  predicate InBorder(g: Grid, slot: nat, id: ChannelId) {
    IsCell(g, id) &&
    var (x, y) := (Column(g, id), Row(g, id));
    var (x0, y0) := (First(SlotX(g, slot), BlockCols(g)), First(SlotY(g, slot), BlockRows(g)));
    Beside(g, x0, BlockCols(g), y0, BlockRows(g), x, y) || Beside(g, y0, BlockRows(g), x0, BlockCols(g), y, x)
  }

  /** In the same row or column, and at most a border away. */
  predicate StraightFrom(g: Grid, a: ChannelId, b: ChannelId) {
    && IsCell(g, a) && IsCell(g, b)
    && var (dx, dy) := (Column(g, a) - Column(g, b), Row(g, a) - Row(g, b));
       (dy == 0 && 0 <= dx + g.border <= 2 * g.border) || (dx == 0 && 0 <= dy + g.border <= 2 * g.border)
  }

  /** A block's border is the cells of other blocks that are straight from a cell of its own. */
  lemma InBorderIff(g: Grid, slot: nat, id: ChannelId)
    requires slot < Slots(g) && BlockFits(g, slot)
    ensures InBorder(g, slot, id) <==>
            IsCell(g, id) && !OwnCell(g, slot, id) && exists own :: OwnCell(g, slot, own) && StraightFrom(g, own, id)
  {
    if IsCell(g, id) {
      var x, y := Column(g, id), Row(g, id);
      var x0, y0 := First(SlotX(g, slot), BlockCols(g)), First(SlotY(g, slot), BlockRows(g));
      if InBorder(g, slot, id) {
        var nearX := if x < x0 then x0 else if x < x0 + BlockCols(g) then x else x0 + BlockCols(g) - 1;
        var nearY := if y < y0 then y0 else if y < y0 + BlockRows(g) then y else y0 + BlockRows(g) - 1;
        PlaceOf(g, nearX, nearY);
        hide First, BlockCols, BlockRows, Column, Row, IsCell;
        assert OwnCell(g, slot, CellId(g, nearX, nearY)) && StraightFrom(g, CellId(g, nearX, nearY), id);
      }
    }
  }

  /** The strip of cells across one side. */
  predicate InStrip(g: Grid, slot: nat, side: Side, x: int, y: int) {
    var (x0, y0) := (First(SlotX(g, slot), BlockCols(g)), First(SlotY(g, slot), BlockRows(g)));
    match side
    case Right => x0 - g.border <= x < x0 && y0 <= y < y0 + BlockRows(g)
    case Left => x0 + BlockCols(g) <= x < x0 + BlockCols(g) + g.border && y0 <= y < y0 + BlockRows(g)
    case Top => y0 - g.border <= y < y0 && x0 <= x < x0 + BlockCols(g)
    case Bottom => y0 + BlockRows(g) <= y < y0 + BlockRows(g) + g.border && x0 <= x < x0 + BlockCols(g)
  }

  lemma WrappedIs(v: int)
    requires 0 <= v < 0x1_0000_0000
    ensures Wrapped(v) == v
  {
  }

  /** The blocks of a slot and of the neighbours it has lie in the grid, whose sides are 32-bit counts. */
  lemma BlocksAround(g: Grid, slot: nat)
    requires slot < Slots(g) && Divides(g)
    ensures BlockFits(g, slot)
    ensures SlotX(g, slot) > 0 ==> First(SlotX(g, slot), BlockCols(g)) >= BlockCols(g)
    ensures SlotY(g, slot) > 0 ==> First(SlotY(g, slot), BlockRows(g)) >= BlockRows(g)
    ensures First(SlotX(g, slot) + 1, BlockCols(g)) == First(SlotX(g, slot), BlockCols(g)) + BlockCols(g)
    ensures First(SlotY(g, slot) + 1, BlockRows(g)) == First(SlotY(g, slot), BlockRows(g)) + BlockRows(g)
    ensures SlotX(g, slot) < g.serverCols - 1 ==> First(SlotX(g, slot) + 1, BlockCols(g)) + BlockCols(g) <= g.cols
    ensures SlotY(g, slot) < g.serverRows - 1 ==> First(SlotY(g, slot) + 1, BlockRows(g)) + BlockRows(g) <= g.rows
    ensures g.cols <= 0x1_0000_0000 && g.rows <= 0x1_0000_0000
  {
    SlotPlace(g, slot);
    SidesFit(g.cols, g.rows);
    hide Share, First, Flat;
    AllBlocksFitIff(g);
    FirstOfNext(SlotX(g, slot), BlockCols(g));
    FirstOfNext(SlotY(g, slot), BlockRows(g));
    if SlotX(g, slot) < g.serverCols - 1 {
      LastShare(SlotX(g, slot) + 1, g.cols, g.serverCols);
    }
    if SlotY(g, slot) < g.serverRows - 1 {
      LastShare(SlotY(g, slot) + 1, g.rows, g.serverRows);
    }
  }

  lemma SidesFit(cols: nat, rows: nat)
    requires cols > 0 && rows > 0
    ensures cols <= cols * rows && rows <= cols * rows
  {
    TimesAscends(rows, 1, cols);
    TimesAscends(cols, 1, rows);
  }

  /** The subtractions of the loops never wrap, and every target is a cell of the side's strip. */
  lemma TargetPlace(g: Grid, slot: nat, side: Side, o: nat, i: nat)
    requires slot < Slots(g) && BordersFit(g) && Faces(g, slot, side)
    requires o < Rounds(g, side) && i < PerRound(g, side)
    ensures TargetX(g, slot, side, i) < g.cols && TargetY(g, slot, side, o) < g.rows
    ensures InStrip(g, slot, side, TargetX(g, slot, side, i), TargetY(g, slot, side, o))
    ensures side.Right? ==> TargetX(g, slot, side, i) == First(SlotX(g, slot), BlockCols(g)) - (i + 1)
    ensures side.Top? ==> TargetY(g, slot, side, o) == First(SlotY(g, slot), BlockRows(g)) - (o + 1)
  {
    BlocksAround(g, slot);
    hide First, BlockCols, BlockRows, Wrapped;
    if side.Right? {
      WrappedIs(First(SlotX(g, slot), BlockCols(g)) - (i + 1));
    } else if side.Top? {
      WrappedIs(First(SlotY(g, slot), BlockRows(g)) - (o + 1));
    }
  }

  lemma TargetIsCell(g: Grid, slot: nat, side: Side, o: nat, i: nat)
    requires slot < Slots(g) && BordersFit(g) && Faces(g, slot, side)
    requires o < Rounds(g, side) && i < PerRound(g, side)
    ensures var r := Target(g, slot, side, o, i);
            && r.Ok? && IsCell(g, r.value)
            && Column(g, r.value) == TargetX(g, slot, side, i) && Row(g, r.value) == TargetY(g, slot, side, o)
  {
    TargetPlace(g, slot, side, o, i);
    hide TargetX, TargetY, CornerChannel, InStrip;
    CornerChannelIs(g, TargetX(g, slot, side, i), TargetY(g, slot, side, o));
    PlaceOf(g, TargetX(g, slot, side, i), TargetY(g, slot, side, o));
  }

  /** Which round, and which step of it, targets this cell of the strip. */
  function RoundOf(g: Grid, slot: nat, side: Side, x: int, y: int): (o: int)
    ensures InStrip(g, slot, side, x, y) ==> 0 <= o < Rounds(g, side)
  {
    match side
    case Top => First(SlotY(g, slot), BlockRows(g)) - y - 1
    case Bottom => y - First(SlotY(g, slot), BlockRows(g)) - BlockRows(g)
    case _ => y - First(SlotY(g, slot), BlockRows(g))
  }

  function StepOf(g: Grid, slot: nat, side: Side, x: int, y: int): (i: int)
    ensures InStrip(g, slot, side, x, y) ==> 0 <= i < PerRound(g, side)
  {
    match side
    case Right => First(SlotX(g, slot), BlockCols(g)) - x - 1
    case Left => x - First(SlotX(g, slot), BlockCols(g)) - BlockCols(g)
    case _ => x - First(SlotX(g, slot), BlockCols(g))
  }

  /** The loops and the strip name the same cells: each is the other's inverse. */
  lemma RoundAndTarget(g: Grid, slot: nat, side: Side, o: nat, i: nat, x: nat, y: nat)
    requires slot < Slots(g) && BordersFit(g) && Faces(g, slot, side)
    requires o < Rounds(g, side) && i < PerRound(g, side) && InStrip(g, slot, side, x, y)
    ensures TargetX(g, slot, side, i) == x && TargetY(g, slot, side, o) == y <==>
            RoundOf(g, slot, side, x, y) == o && StepOf(g, slot, side, x, y) == i
  {
    TargetPlace(g, slot, side, o, i);
    BlocksAround(g, slot);
    hide First, BlockCols, BlockRows, Wrapped;
  }

  /** The cells straight across one side of a block. */
  ghost predicate AcrossSide(g: Grid, slot: nat, side: Side, id: ChannelId) {
    Faces(g, slot, side) && IsCell(g, id) && InStrip(g, slot, side, Column(g, id), Row(g, id))
  }

  lemma SideTarget(g: Grid, slot: nat, side: Side, k: nat) returns (o: nat, i: nat)
    requires slot < Slots(g) && BordersFit(g) && Faces(g, slot, side)
    requires k < PerRound(g, side) * Rounds(g, side)
    ensures o < Rounds(g, side) && i < PerRound(g, side)
    ensures k == Flat(PerRound(g, side), i, o)
    ensures TargetAt(g, slot, side, k) == Target(g, slot, side, o, i)
  {
    hide PerRound, Rounds, Target, Flat;
    o, i := k / PerRound(g, side), k % PerRound(g, side);
    FlatInverse(PerRound(g, side), Rounds(g, side), k);
  }

  lemma SideListing(g: Grid, slot: nat, side: Side, ids: seq<ChannelId>)
    requires slot < Slots(g) && BordersFit(g) && Faces(g, slot, side) && ListsSide(g, slot, side, ids)
    ensures NoRepeats(ids)
    ensures forall id :: id in ids <==> AcrossSide(g, slot, side, id)
  {
    hide ListsSide, AcrossSide, ListedAcross;
    forall k | 0 <= k < |ids| ensures ListedAcross(g, slot, side, ids, k) {
      ListedIsAcross(g, slot, side, ids, k);
    }
    forall id | AcrossSide(g, slot, side, id) ensures id in ids {
      AcrossIsListed(g, slot, side, ids, id);
    }
    ListedOnce(g, slot, side, ids);
  }

  lemma ListedOnce(g: Grid, slot: nat, side: Side, ids: seq<ChannelId>)
    requires forall k :: 0 <= k < |ids| ==> ListedAcross(g, slot, side, ids, k)
    ensures NoRepeats(ids)
    ensures forall id :: id in ids ==> AcrossSide(g, slot, side, id)
  {
    hide AcrossSide, Flat, StepOf, RoundOf, Column, Row, IsCell;
    forall j, k | 0 <= j < k < |ids| ensures ids[j] != ids[k] {
      assert ListedAcross(g, slot, side, ids, j) && ListedAcross(g, slot, side, ids, k);
    }
    forall id | id in ids ensures AcrossSide(g, slot, side, id) {
      var k :| 0 <= k < |ids| && ids[k] == id;
      assert ListedAcross(g, slot, side, ids, k);
    }
  }

  ghost predicate ListedAcross(g: Grid, slot: nat, side: Side, ids: seq<ChannelId>, k: nat)
    requires k < |ids|
  {
    && AcrossSide(g, slot, side, ids[k])
    && k == Flat(PerRound(g, side), StepOf(g, slot, side, Column(g, ids[k]), Row(g, ids[k])),
                 RoundOf(g, slot, side, Column(g, ids[k]), Row(g, ids[k])))
  }

  lemma ListedIsAcross(g: Grid, slot: nat, side: Side, ids: seq<ChannelId>, k: nat)
    requires slot < Slots(g) && BordersFit(g) && Faces(g, slot, side) && ListsSide(g, slot, side, ids) && k < |ids|
    ensures ListedAcross(g, slot, side, ids, k)
  {
    hide TargetX, TargetY, Target, InStrip, RoundOf, StepOf, Column, Row, Rounds, PerRound, Faces;
    var o, i := SideTarget(g, slot, side, k);
    TargetIsCell(g, slot, side, o, i);
    TargetPlace(g, slot, side, o, i);
    RoundAndTarget(g, slot, side, o, i, Column(g, ids[k]), Row(g, ids[k]));
  }

  lemma AcrossIsListed(g: Grid, slot: nat, side: Side, ids: seq<ChannelId>, id: ChannelId)
    requires slot < Slots(g) && BordersFit(g) && ListsSide(g, slot, side, ids) && AcrossSide(g, slot, side, id)
    ensures id in ids
  {
    hide TargetX, TargetY, Target, InStrip, Rounds, PerRound, Faces, RoundOf, StepOf;
    var x, y := Column(g, id), Row(g, id);
    var o, i := RoundOf(g, slot, side, x, y), StepOf(g, slot, side, x, y);
    RoundAndTarget(g, slot, side, o, i, x, y);
    TargetIsCell(g, slot, side, o, i);
    PlaceOf(g, x, y);
    FlatBounds(PerRound(g, side), Rounds(g, side), i, o);
    assert ids[Flat(PerRound(g, side), i, o)] == id;
  }

  lemma LastBlockEnds(number: nat, cells: nat, servers: nat)
    requires cells > 0 && number < servers && cells % servers == 0
    ensures number == servers - 1 ==> First(number, Share(cells, servers)) + Share(cells, servers) == cells
    ensures number == 0 ==> First(number, Share(cells, servers)) == 0
  {
    ShareCovers(cells, servers);
    FirstOfNext(number, Share(cells, servers));
  }

  /** Only sides with a neighbour have cells across them. */
  lemma StripsFace(g: Grid, slot: nat, side: Side, id: ChannelId)
    requires slot < Slots(g) && BordersFit(g) && IsCell(g, id)
    requires InStrip(g, slot, side, Column(g, id), Row(g, id))
    ensures Faces(g, slot, side)
  {
    SlotPlace(g, slot);
    hide Share, First, Column, Row, Flat;
    LastBlockEnds(SlotX(g, slot), g.cols, g.serverCols);
    LastBlockEnds(SlotY(g, slot), g.rows, g.serverRows);
  }

  lemma BorderIsAcrossSides(g: Grid, slot: nat, id: ChannelId)
    requires slot < Slots(g) && BordersFit(g)
    ensures InBorder(g, slot, id) <==> exists side :: AcrossSide(g, slot, side, id)
  {
    hide First, BlockCols, BlockRows, Column, Row, Faces;
    if IsCell(g, id) {
      forall side | InStrip(g, slot, side, Column(g, id), Row(g, id)) ensures AcrossSide(g, slot, side, id) {
        StripsFace(g, slot, side, id);
      }
      assert InStrip(g, slot, Right, Column(g, id), Row(g, id)) || InStrip(g, slot, Left, Column(g, id), Row(g, id))
        || InStrip(g, slot, Top, Column(g, id), Row(g, id)) || InStrip(g, slot, Bottom, Column(g, id), Row(g, id))
        <==> InBorder(g, slot, id);
    }
  }

  lemma SidesAreApart(g: Grid, slot: nat, side: Side, other: Side, id: ChannelId)
    requires AcrossSide(g, slot, side, id) && AcrossSide(g, slot, other, id)
    ensures side == other
  {
    hide First, BlockCols, BlockRows, Column, Row, Faces;
  }

  /** The ids of a border are cells of other servers. */
  lemma BorderIsForeign(g: Grid, slot: nat, id: ChannelId)
    requires slot < Slots(g) && InBorder(g, slot, id)
    ensures RegionAt(g, id - g.start).server != slot
  {
    hide First, BlockCols, BlockRows, RegionAt;
    BlockIsTheServersRegions(g, slot, id - g.start);
  }

  ghost predicate AllPresent(g: Grid, present: set<ChannelId>) {
    forall id :: IsCell(g, id) ==> id in present
  }

  /** The ids so far are those across the given sides, each once. */
  ghost predicate ListsSides(g: Grid, slot: nat, sides: set<Side>, ids: seq<ChannelId>) {
    NoRepeats(ids) && forall id :: id in ids <==> exists side :: side in sides && AcrossSide(g, slot, side, id)
  }

  lemma OneMoreSide(g: Grid, slot: nat, sides: set<Side>, ids: seq<ChannelId>, side: Side, more: seq<ChannelId>)
    requires ListsSides(g, slot, sides, ids) && side !in sides
    requires NoRepeats(more) && forall id :: id in more <==> AcrossSide(g, slot, side, id)
    ensures ListsSides(g, slot, sides + {side}, ids + more)
  {
    hide AcrossSide;
    forall id | id in ids && id in more ensures false {
      var other :| other in sides && AcrossSide(g, slot, other, id);
      SidesAreApart(g, slot, side, other, id);
    }
    forall j, k | 0 <= j < k < |ids + more| ensures (ids + more)[j] != (ids + more)[k] {
      if j < |ids| <= k {
        assert ids[j] in ids && more[k - |ids|] in more;
      }
    }
  }

  /** Every target on this side is a channel. */
  ghost predicate SideSubscribable(g: Grid, slot: nat, side: Side, present: set<ChannelId>) {
    forall o, i :: 0 <= o < Rounds(g, side) && 0 <= i < PerRound(g, side) ==>
      Subscribable(Target(g, slot, side, o, i), present)
  }

  ghost predicate FacingSidesSubscribable(g: Grid, slot: nat, present: set<ChannelId>) {
    forall side :: Faces(g, slot, side) ==> SideSubscribable(g, slot, side, present)
  }

  /** The first cell of the slot's block. */
  function OwnCorner(g: Grid, slot: nat): Result<ChannelId> {
    CornerChannel(g, First(SlotX(g, slot), BlockCols(g)), First(SlotY(g, slot), BlockRows(g)))
  }

  /** The block's own corner and every target of the loops are channels. */
  ghost predicate BorderSubscribable(g: Grid, slot: nat, present: set<ChannelId>) {
    Subscribable(OwnCorner(g, slot), present) && FacingSidesSubscribable(g, slot, present)
  }

  lemma FittingSideIsSubscribable(g: Grid, slot: nat, side: Side, present: set<ChannelId>)
    requires slot < Slots(g) && BordersFit(g) && AllPresent(g, present) && Faces(g, slot, side)
    ensures SideSubscribable(g, slot, side, present)
  {
    hide Target, Faces, BordersFit;
    forall o, i | 0 <= o < Rounds(g, side) && 0 <= i < PerRound(g, side)
      ensures Subscribable(Target(g, slot, side, o, i), present)
    {
      TargetIsCell(g, slot, side, o, i);
    }
  }

  /** One side's loops, skipped when the block is at that edge of the world. */
  method SubscribeFacingSide(g: Grid, slot: nat, side: Side, present: set<ChannelId>, ghost sides: set<Side>,
                             before: seq<ChannelId>)
    returns (ids: seq<ChannelId>, ok: bool)
    requires slot < Slots(g)
    ensures ok <==> (Faces(g, slot, side) ==> SideSubscribable(g, slot, side, present))
    ensures BordersFit(g) && AllPresent(g, present) && side !in sides && ListsSides(g, slot, sides, before) ==>
              ok && ListsSides(g, slot, sides + {side}, ids)
  {
    hide Faces, AcrossSide, Target, ListsSides, ListsSide;
    ids, ok := before, true;
    if Faces(g, slot, side) {
      var more;
      more, ok := SubscribeSide(g, slot, side, present);
      ids := ids + more;
      if BordersFit(g) && AllPresent(g, present) {
        FittingSideIsSubscribable(g, slot, side, present);
        SideListing(g, slot, side, more);
        if side !in sides && ListsSides(g, slot, sides, before) {
          OneMoreSide(g, slot, sides, before, side, more);
        }
      }
    } else {
      NoSide(g, slot, sides, side, ids);
    }
  }

  lemma NoSide(g: Grid, slot: nat, sides: set<Side>, side: Side, ids: seq<ChannelId>)
    requires !Faces(g, slot, side)
    ensures ListsSides(g, slot, sides, ids) ==> ListsSides(g, slot, sides + {side}, ids)
  {
    hide Faces, InStrip;
  }

  /**
   The channels that a server subscribes to around its block, in order. There is no error iff the
   block's own corner and all targets on the sides with a neighbour are channels. With fitting borders and
   all channels present that is so, and the channels are exactly those straight across a side, each once.
   */
  method SubToAdjacentChannels(g: Grid, slot: nat, present: set<ChannelId>) returns (ids: seq<ChannelId>, ok: bool)
    requires slot < Slots(g)
    ensures ok <==> BorderSubscribable(g, slot, present)
    ensures BordersFit(g) && AllPresent(g, present) ==>
              ok && NoRepeats(ids) && forall id :: id in ids <==> InBorder(g, slot, id)
  {
    hide BordersFit, AcrossSide, InBorder, Slots, First, SideSubscribable, Faces, ListsSides, AllPresent, NoRepeats;
    ids := [];
    OwnCornerFits(g, slot, present);
    NoSidesYet(g, slot);
    FourSides(g, slot, present);
    hide FacingSidesSubscribable, OwnCorner;
    assert {} + {Right} == {Right} && {Right} + {Left} == {Right, Left} && {Right, Left} + {Top} == {Right, Left, Top};
    var own := OwnCorner(g, slot);
    if own.Err? || own.value !in present {
      return ids, false;
    }
    ids, ok := SubscribeFacingSide(g, slot, Right, present, {}, ids);
    if !ok { return; }
    ids, ok := SubscribeFacingSide(g, slot, Left, present, {Right}, ids);
    if !ok { return; }
    ids, ok := SubscribeFacingSide(g, slot, Top, present, {Right, Left}, ids);
    if !ok { return; }
    ids, ok := SubscribeFacingSide(g, slot, Bottom, present, {Right, Left, Top}, ids);
    if BordersFit(g) && AllPresent(g, present) {
      AllSides(g, slot, ids);
    }
  }

  lemma FourSides(g: Grid, slot: nat, present: set<ChannelId>)
    ensures FacingSidesSubscribable(g, slot, present) <==>
            && (Faces(g, slot, Right) ==> SideSubscribable(g, slot, Right, present))
            && (Faces(g, slot, Left) ==> SideSubscribable(g, slot, Left, present))
            && (Faces(g, slot, Top) ==> SideSubscribable(g, slot, Top, present))
            && (Faces(g, slot, Bottom) ==> SideSubscribable(g, slot, Bottom, present))
  {
    hide Faces, SideSubscribable;
    forall side | Faces(g, slot, side)
      ensures side == Right || side == Left || side == Top || side == Bottom
    {
      assert side.Right? || side.Left? || side.Top? || side.Bottom?;
    }
  }

  lemma NoSidesYet(g: Grid, slot: nat)
    ensures ListsSides(g, slot, {}, [])
  {
  }

  lemma OwnCornerFits(g: Grid, slot: nat, present: set<ChannelId>)
    requires slot < Slots(g)
    ensures BordersFit(g) && AllPresent(g, present) ==> Subscribable(OwnCorner(g, slot), present)
  {
    if BordersFit(g) {
      BlocksAround(g, slot);
      hide First, BlockCols, BlockRows, CornerChannel;
      CornerChannelIs(g, First(SlotX(g, slot), BlockCols(g)), First(SlotY(g, slot), BlockRows(g)));
    }
  }

  lemma AllSides(g: Grid, slot: nat, ids: seq<ChannelId>)
    requires slot < Slots(g) && BordersFit(g)
    requires ListsSides(g, slot, {Right, Left, Top} + {Bottom}, ids)
    ensures NoRepeats(ids) && forall id :: id in ids <==> InBorder(g, slot, id)
  {
    hide AcrossSide, InBorder;
    forall side: Side ensures side in {Right, Left, Top} + {Bottom} {
      assert side.Right? || side.Left? || side.Top? || side.Bottom?;
    }
    forall id ensures id in ids <==> InBorder(g, slot, id) {
      BorderIsAcrossSides(g, slot, id);
    }
  }
}
