/** Area-of-interest queries: which cells a sampled box or sphere names, and at what distance. */
module SpatialQuery {
  import opened Prelude
  import opened SpatialGrid
  import opened GridDistance
  import opened AxisSampling

  // ---- boxes and spheres ----

  datatype Area =
    | Box(center: Point, extent: Point)
    | Sphere(center: Point, radius: real)
  {
    function ReachX(): real {
      if Box? then extent.x else radius
    }

    function ReachZ(): real {
      if Box? then extent.z else radius
    }

    predicate Positive() {
      ReachX() > 0.0 && ReachZ() > 0.0
    }

    predicate Contains(p: Point) {
      match this
      case Box(c, e) => c.x - e.x <= p.x <= c.x + e.x && c.z - e.z <= p.z <= c.z + e.z
      case Sphere(c, r) => Distance2(p, c) <= Square(r)
    }
  }

  type Distances = map<ChannelId, nat>

  function SampleAt(g: Grid, a: Area, j: int, i: int): Point {
    Point(Sample(a.center.x, a.ReachX(), g.width, i), Sample(a.center.z, a.ReachZ(), g.height, j))
  }

  /** The sampling loops skip the corners of the square around a sphere. */
  function CellAt(g: Grid, a: Area, j: int, i: int): Result<ChannelId> {
    if a.Sphere? && !a.Contains(SampleAt(g, a, j, i)) then Err else GetChannelId(g, SampleAt(g, a, j, i))
  }

  function UnitsAt(g: Grid, a: Area, j: int, i: int): nat {
    Units(Distance2(a.center, SampleAt(g, a, j, i)), Diagonal2(g))
  }

  predicate InRange(g: Grid, a: Area, j: nat, i: nat)
    requires a.Positive()
  {
    j <= Last(a.center.z, a.ReachZ(), g.height) && i <= Last(a.center.x, a.ReachX(), g.width)
  }

  /** The sample in row `j`, column `i` is in this cell. */
  predicate Names(g: Grid, a: Area, id: ChannelId, j: nat, i: nat)
    requires a.Positive()
  {
    InRange(g, a, j, i) && CellAt(g, a, j, i) == Ok(id)
  }

  ghost predicate Sampled(g: Grid, a: Area, id: ChannelId)
    requires a.Positive()
  {
    exists j: nat, i: nat :: Names(g, a, id, j, i)
  }

  predicate Earlier(j: nat, i: nat, j': nat, i': nat) {
    j < j' || (j == j' && i < i')
  }

  /** The last sample of the cell, in the order of the loops, is that in row `j`, column `i`. */
  ghost predicate LastToName(g: Grid, a: Area, id: ChannelId, j: nat, i: nat)
    requires a.Positive()
  {
    Names(g, a, id, j, i) && forall j': nat, i': nat :: Names(g, a, id, j', i') ==> !Earlier(j, i, j', i')
  }

  predicate SameAt(m: Distances, n: Distances, id: ChannelId) {
    (id in m <==> id in n) && (id in m ==> m[id] == n[id])
  }

  /** What sampling does to the entry of one cell. */
  ghost predicate Painted(g: Grid, a: Area, id: ChannelId, before: Distances, after: Distances)
    requires a.Positive()
  {
    if Sampled(g, a, id) then
      id in after && exists j: nat, i: nat :: LastToName(g, a, id, j, i) && after[id] == UnitsAt(g, a, j, i)
    else SameAt(before, after, id)
  }

  /** The samples before row `j`, column `i` have been taken; `last` remembers who named each cell last. */
  ghost predicate Progress(g: Grid, a: Area, before: Distances, now: Distances,
                           last: map<ChannelId, (nat, nat)>, j: nat, i: nat)
    requires a.Positive()
  {
    && (forall id <- last.Keys ::
          && id in now && Names(g, a, id, last[id].0, last[id].1)
          && now[id] == UnitsAt(g, a, last[id].0, last[id].1)
          && Earlier(last[id].0, last[id].1, j, i))
    && (forall id, j': nat, i': nat :: Names(g, a, id, j', i') && Earlier(j', i', j, i) ==>
          id in last && !Earlier(last[id].0, last[id].1, j', i'))
    && (forall id: ChannelId :: id !in last ==> SameAt(before, now, id))
  }

  lemma SampleTaken(g: Grid, a: Area, before: Distances, now: Distances, last: map<ChannelId, (nat, nat)>, j: nat,
                    i: nat)
    requires a.Positive() && InRange(g, a, j, i) && Progress(g, a, before, now, last, j, i)
    ensures var r := CellAt(g, a, j, i);
            if r.Ok? then
              Progress(g, a, before, now[r.value := UnitsAt(g, a, j, i)], last[r.value := (j, i)], j, i + 1)
            else Progress(g, a, before, now, last, j, i + 1)
  {
    hide CellAt, UnitsAt, InRange;
  }

  lemma RowDone(g: Grid, a: Area, before: Distances, now: Distances, last: map<ChannelId, (nat, nat)>, j: nat, i: nat)
    requires a.Positive() && Progress(g, a, before, now, last, j, i)
    requires i > Last(a.center.x, a.ReachX(), g.width)
    ensures Progress(g, a, before, now, last, j + 1, 0)
  {
    hide CellAt, UnitsAt, Last;
  }

  lemma AllTaken(g: Grid, a: Area, before: Distances, now: Distances, last: map<ChannelId, (nat, nat)>, j: nat)
    requires a.Positive() && Progress(g, a, before, now, last, j, 0)
    requires j > Last(a.center.z, a.ReachZ(), g.height)
    ensures forall id :: Painted(g, a, id, before, now)
  {
    hide CellAt, UnitsAt, Last;
    forall id ensures Painted(g, a, id, before, now) {
      if Sampled(g, a, id) {
        var j', i' :| Names(g, a, id, j', i');
        assert Earlier(j', i', j, 0);
        assert LastToName(g, a, id, last[id].0, last[id].1);
      }
    }
  }

  /** The nested loops of a box or sphere query; later samples overwrite earlier ones. */
  method SampleArea(g: Grid, a: Area, before: Distances) returns (result: Distances)
    requires a.Positive()
    ensures forall id :: Painted(g, a, id, before, result)
  {
    hide CellAt, UnitsAt, Progress, Painted, Names, Edge, Units, Distance2, Diagonal2, GetChannelId, Square;
    var center, reachX, reachZ := a.center, a.ReachX(), a.ReachZ();
    var stepX, stepZ := Step(reachX, g.width), Step(reachZ, g.height);
    ghost var lastX, lastZ := Last(center.x, reachX, g.width), Last(center.z, reachZ, g.height);
    ghost var last: map<ChannelId, (nat, nat)>, j: nat := map[], 0;
    result := before;
    var z := center.z - reachZ;
    NothingTaken(g, a, before);
    FirstSample(center.z, reachZ, g.height);
    while z <= center.z + reachZ
      invariant z == Sample(center.z, reachZ, g.height, j) && j <= lastZ + 1
      invariant Progress(g, a, before, result, last, j, 0)
      decreases lastZ + 1 - j
    {
      var x := center.x - reachX;
      ghost var i := 0 as nat;
      FirstSample(center.x, reachX, g.width);
      while x <= center.x + reachX
        invariant x == Sample(center.x, reachX, g.width, i) && i <= lastX + 1
        invariant Progress(g, a, before, result, last, j, i)
        decreases lastX + 1 - i
      {
        var spot := Point(x, z);
        SampleTaken(g, a, before, result, last, j, i);
        CellOfSpot(g, a, j, i);
        if !(a.Sphere? && !a.Contains(spot)) {
          var chId := GetChannelId(g, spot);
          if chId.Ok? {
            result := result[chId.value := Units(Distance2(center, spot), Diagonal2(g))];
            last := last[chId.value := (j, i)];
          }
        }
        EdgeStep(center.x - reachX, stepX, i);
        x, i := x + stepX, i + 1;
      }
      RowDone(g, a, before, result, last, j, i);
      EdgeStep(center.z - reachZ, stepZ, j);
      z, j := z + stepZ, j + 1;
    }
    AllTaken(g, a, before, result, last, j);
  }

  lemma NothingTaken(g: Grid, a: Area, before: Distances)
    requires a.Positive()
    ensures Progress(g, a, before, before, map[], 0, 0)
  {
  }

  lemma CellOfSpot(g: Grid, a: Area, j: nat, i: nat)
    ensures var spot := SampleAt(g, a, j, i);
            CellAt(g, a, j, i) == (if a.Sphere? && !a.Contains(spot) then Err else GetChannelId(g, spot))
            && UnitsAt(g, a, j, i) == Units(Distance2(a.center, spot), Diagonal2(g))
  {
  }

  /** Every cell whose samples were taken, and the centre's at distance 0. */
  ghost predicate Answers(g: Grid, a: Area, before: Distances, after: Distances)
    requires a.Positive() && GetChannelId(g, a.center).Ok?
  {
    forall id: ChannelId ::
      if Ok(id) == GetChannelId(g, a.center) then id in after && after[id] == 0
      else Painted(g, a, id, before, after)
  }

  /** One box or sphere of a query; a centre outside the world is an error only after sampling. */
  method QueryArea(g: Grid, a: Area, before: Distances) returns (r: Result<Distances>)
    ensures r.Ok? <==> a.Positive() && InWorld(g, a.center)
    ensures r.Ok? ==> GetChannelId(g, a.center).Ok? && Answers(g, a, before, r.value)
    ensures r.Ok? ==> var c := GetChannelId(g, a.center).value; c in r.value && r.value[c] == 0
  {
    hide Painted, Sampled, Edge, GetChannelId;
    ChannelsCoverTheWorld(g, a.center);
    if Step(a.ReachZ(), g.height) <= 0.0 || Step(a.ReachX(), g.width) <= 0.0 {
      return Err;
    }
    var result := SampleArea(g, a, before);
    var centerId := GetChannelId(g, a.center);
    if centerId.Err? {
      return Err;
    }
    PaintedElsewhere(g, a, before, result, result[centerId.value := 0], centerId.value);
    return Ok(result[centerId.value := 0]);
  }

  lemma PaintedElsewhere(g: Grid, a: Area, before: Distances, after: Distances, now: Distances, id0: ChannelId)
    requires a.Positive() && forall id :: Painted(g, a, id, before, after)
    requires forall id :: id != id0 ==> SameAt(after, now, id)
    ensures forall id :: id != id0 ==> Painted(g, a, id, before, now)
  {
    hide UnitsAt, LastToName, Sampled;
    forall id | id != id0 ensures Painted(g, a, id, before, now) {
      assert Painted(g, a, id, before, after) && SameAt(after, now, id);
    }
  }

  // ---- what an answer says ----

  ghost predicate HitX(g: Grid, a: Area, k: int)
    requires a.Positive()
  {
    Hit(a.center.x, a.ReachX(), g.width, g.offset.x, k)
  }

  ghost predicate HitZ(g: Grid, a: Area, k: int)
    requires a.Positive()
  {
    Hit(a.center.z, a.ReachZ(), g.height, g.offset.z, k)
  }

  /** The samples of a box form a grid of their own. */
  lemma BoxIsSampledOnBothAxes(g: Grid, a: Area, id: ChannelId)
    requires a.Box? && a.Positive() && IsCell(g, id)
    ensures Sampled(g, a, id) <==> HitX(g, a, Column(g, id)) && HitZ(g, a, Row(g, id))
  {
    if Sampled(g, a, id) {
      SampleHitsBothAxes(g, a, id);
    }
    if HitX(g, a, Column(g, id)) && HitZ(g, a, Row(g, id)) {
      HitsGiveSample(g, a, id);
    }
  }

  lemma SampleHitsBothAxes(g: Grid, a: Area, id: ChannelId)
    requires a.Box? && a.Positive() && IsCell(g, id) && Sampled(g, a, id)
    ensures HitX(g, a, Column(g, id)) && HitZ(g, a, Row(g, id))
  {
    hide Interval, Sample, GetChannelId, Column, Row, Last;
    var j: nat, i: nat :| Names(g, a, id, j, i);
    CellOnAxes(g, SampleAt(g, a, j, i), id);
  }

  lemma HitsGiveSample(g: Grid, a: Area, id: ChannelId)
    requires a.Box? && a.Positive() && IsCell(g, id) && HitX(g, a, Column(g, id)) && HitZ(g, a, Row(g, id))
    ensures Sampled(g, a, id)
  {
    hide Interval, Sample, GetChannelId, Column, Row, Last;
    var i: nat :| i <= Last(a.center.x, a.ReachX(), g.width)
      && Interval(Sample(a.center.x, a.ReachX(), g.width, i), g.offset.x, g.width) == Column(g, id);
    var j: nat :| j <= Last(a.center.z, a.ReachZ(), g.height)
      && Interval(Sample(a.center.z, a.ReachZ(), g.height, j), g.offset.z, g.height) == Row(g, id);
    CellOnAxes(g, SampleAt(g, a, j, i), id);
    assert Names(g, a, id, j, i);
  }

  /** The cells that a box or sphere names: that of its centre, and those its samples are in. */
  ghost predicate Found(g: Grid, a: Area, id: ChannelId)
    requires a.Positive()
  {
    GetChannelId(g, a.center) == Ok(id) || Sampled(g, a, id)
  }

  /** They are the ones an answer adds. */
  lemma AnswerKeys(g: Grid, a: Area, before: Distances, after: Distances, id: ChannelId)
    requires a.Positive() && GetChannelId(g, a.center).Ok? && Answers(g, a, before, after)
    ensures id in after <==> id in before || Found(g, a, id)
  {
    hide GetChannelId, Sampled, LastToName, UnitsAt;
    if Ok(id) != GetChannelId(g, a.center) {
      assert Painted(g, a, id, before, after);
    }
  }

  /** Some point of the area is in the cell. */
  ghost predicate Reaches(g: Grid, a: Area, id: ChannelId) {
    exists p :: a.Contains(p) && GetChannelId(g, p) == Ok(id)
  }

  lemma SamplesAreInside(g: Grid, a: Area, j: nat, i: nat)
    requires a.Box? && a.Positive() && InRange(g, a, j, i)
    ensures a.Contains(SampleAt(g, a, j, i))
  {
    hide Sample, Last;
    SamplesAscend(a.center.x, a.ReachX(), g.width, 0, i);
    SamplesAscend(a.center.z, a.ReachZ(), g.height, 0, j);
    FirstSample(a.center.x, a.ReachX(), g.width);
    FirstSample(a.center.z, a.ReachZ(), g.height);
  }

  /** Every cell found is that of a point of the box or sphere. */
  lemma FoundIsReached(g: Grid, a: Area, id: ChannelId)
    requires a.Positive() && Found(g, a, id)
    ensures Reaches(g, a, id)
  {
    hide GetChannelId, InRange, SampleAt, Square;
    if Ok(id) == GetChannelId(g, a.center) {
      assert a.Contains(a.center) by { CenterIsInside(a); }
    } else {
      var j: nat, i: nat :| Names(g, a, id, j, i);
      if a.Box? {
        SamplesAreInside(g, a, j, i);
      }
      assert a.Contains(SampleAt(g, a, j, i));
    }
  }

  lemma CenterIsInside(a: Area)
    requires a.Positive()
    ensures a.Contains(a.center)
  {
    ZeroSquare();
  }

  // ---- coverage ----

  /** The k-th interval has a point of the stretch. */
  predicate Spans(c: real, reach: real, size: real, offset: real, k: int)
    requires size > 0.0
  {
    Interval(c - reach, offset, size) <= k <= Interval(c + reach, offset, size)
  }

  /** A point of the stretch in its k-th interval: the near edge of one or of the other. */
  lemma PointInInterval(c: real, reach: real, size: real, offset: real, k: int) returns (v: real)
    requires reach > 0.0 && size > 0.0 && Spans(c, reach, size, offset, k)
    ensures c - reach <= v <= c + reach && Interval(v, offset, size) == k
  {
    var near, far := Interval(c - reach, offset, size), Interval(c + reach, offset, size);
    hide Interval, Edge;
    v := Max(c - reach, Edge(offset, size, k));
    IntervalBounds(c - reach, offset, size, near);
    IntervalBounds(c + reach, offset, size, far);
    IntervalBounds(v, offset, size, k);
    EdgesAscend(offset, size, k, far);
    EdgesAscend(offset, size, near + 1, k + 1);
    EdgeStep(offset, size, k);
  }

  lemma BoxReachesOnBothAxes(g: Grid, a: Area, id: ChannelId)
    requires a.Box? && a.Positive() && IsCell(g, id)
    ensures Reaches(g, a, id) <==>
            Spans(a.center.x, a.ReachX(), g.width, g.offset.x, Column(g, id))
            && Spans(a.center.z, a.ReachZ(), g.height, g.offset.z, Row(g, id))
  {
    hide Interval, GetChannelId, Column, Row;
    if Reaches(g, a, id) {
      var p :| a.Contains(p) && GetChannelId(g, p) == Ok(id);
      CellOnAxes(g, p, id);
      IntervalAscends(a.center.x - a.ReachX(), p.x, g.offset.x, g.width);
      IntervalAscends(p.x, a.center.x + a.ReachX(), g.offset.x, g.width);
      IntervalAscends(a.center.z - a.ReachZ(), p.z, g.offset.z, g.height);
      IntervalAscends(p.z, a.center.z + a.ReachZ(), g.offset.z, g.height);
    }
    if Spans(a.center.x, a.ReachX(), g.width, g.offset.x, Column(g, id))
      && Spans(a.center.z, a.ReachZ(), g.height, g.offset.z, Row(g, id)) {
      var x := PointInInterval(a.center.x, a.ReachX(), g.width, g.offset.x, Column(g, id));
      var z := PointInInterval(a.center.z, a.ReachZ(), g.height, g.offset.z, Row(g, id));
      CellOnAxes(g, Point(x, z), id);
      assert a.Contains(Point(x, z));
    }
  }

  /** On this axis, the far edge lies past the world's `n` cells or shares a cell with the last sample. */
  predicate FarEdgeFound(c: real, reach: real, size: real, offset: real, n: nat)
    requires reach > 0.0 && size > 0.0
  {
    Interval(c + reach, offset, size) >= n || FarEdgeSampled(c, reach, size, offset)
  }

  lemma SpannedCellsAreHit(c: real, reach: real, size: real, offset: real, n: nat, k: int)
    requires reach > 0.0 && size > 0.0 && k < n && Spans(c, reach, size, offset, k)
    requires FarEdgeFound(c, reach, size, offset, n)
    ensures Hit(c, reach, size, offset, k)
  {
    hide Interval, Sample, Last;
    if k < Interval(c + reach, offset, size) {
      EarlierCellsAreHit(c, reach, size, offset, k);
    } else {
      HitCells(c, reach, size, offset, k);
    }
  }

  /** A far edge that no sample shares a cell with is not hit, and is not in the centre's cell. */
  lemma MissedFarEdge(c: real, reach: real, size: real, offset: real)
    requires reach > 0.0 && size > 0.0 && !FarEdgeSampled(c, reach, size, offset)
    ensures var far := Interval(c + reach, offset, size);
            && !Hit(c, reach, size, offset, far) && Spans(c, reach, size, offset, far)
            && Interval(c, offset, size) < far && Spans(c, reach, size, offset, Interval(c, offset, size))
  {
    var far, mid := Interval(c + reach, offset, size), Interval(c, offset, size);
    hide Interval, Sample, Last, Edge;
    HitCells(c, reach, size, offset, far);
    IntervalAscends(Sample(c, reach, size, Last(c, reach, size)), c + reach, offset, size);
    IntervalAscends(c - reach, c, offset, size);
    IntervalAscends(c, c + reach, offset, size);
    if reach <= size {
      ShortReachSamplesFarEdge(c, reach, size, offset);
    }
    IntervalBounds(c, offset, size, mid);
    IntervalBounds(c + reach, offset, size, far);
    EdgeStep(offset, size, mid);
  }

  lemma SpansCenter(c: real, reach: real, size: real, offset: real)
    requires reach > 0.0 && size > 0.0
    ensures Spans(c, reach, size, offset, Interval(c, offset, size))
  {
    hide Interval;
    IntervalAscends(c - reach, c, offset, size);
    IntervalAscends(c, c + reach, offset, size);
  }

  ghost predicate Covered(g: Grid, a: Area)
    requires a.Positive()
  {
    forall id :: Reaches(g, a, id) ==> Found(g, a, id)
  }

  predicate FarEdgesFound(g: Grid, a: Area)
    requires a.Positive()
  {
    && FarEdgeFound(a.center.x, a.ReachX(), g.width, g.offset.x, g.cols)
    && FarEdgeFound(a.center.z, a.ReachZ(), g.height, g.offset.z, g.rows)
  }

  lemma FoundEdgesCover(g: Grid, a: Area)
    requires a.Box? && a.Positive() && FarEdgesFound(g, a)
    ensures Covered(g, a)
  {
    hide GetChannelId, Column, Row, FarEdgeFound, Spans, Hit;
    forall id | Reaches(g, a, id) ensures Found(g, a, id) {
      ReachedIsCell(g, a, id);
      BoxReachesOnBothAxes(g, a, id);
      SpannedCellsAreHit(a.center.x, a.ReachX(), g.width, g.offset.x, g.cols, Column(g, id));
      SpannedCellsAreHit(a.center.z, a.ReachZ(), g.height, g.offset.z, g.rows, Row(g, id));
      BoxIsSampledOnBothAxes(g, a, id);
    }
  }

  lemma ReachedIsCell(g: Grid, a: Area, id: ChannelId)
    requires Reaches(g, a, id)
    ensures IsCell(g, id)
  {
    hide GetChannelId;
    var p :| a.Contains(p) && GetChannelId(g, p) == Ok(id);
    ChannelsCoverTheWorld(g, p);
  }

  /** A cell that no sample hits on one of the axes, and that is not the centre's, is not found. */
  lemma MissedCell(g: Grid, a: Area, id: ChannelId)
    requires a.Box? && a.Positive() && Reaches(g, a, id)
    requires IsCell(g, id) && !(HitX(g, a, Column(g, id)) && HitZ(g, a, Row(g, id)))
    requires GetChannelId(g, a.center) != Ok(id)
    ensures !Covered(g, a)
  {
    hide GetChannelId, Column, Row, HitX, HitZ;
    BoxIsSampledOnBothAxes(g, a, id);
    assert !Found(g, a, id);
  }

  /**
   A box with its centre in the world finds every cell it reaches iff, on each axis, its far
   edge is past the world or in the cell of the last sample.
   */
  lemma BoxIsCoveredIff(g: Grid, a: Area)
    requires a.Box? && a.Positive() && InWorld(g, a.center)
    ensures Covered(g, a) <==> FarEdgesFound(g, a)
  {
    if FarEdgesFound(g, a) {
      FoundEdgesCover(g, a);
    } else {
      ChannelsCoverTheWorld(g, a.center);
      var middle := GetChannelId(g, a.center).value;
      CellOnAxes(g, a.center, middle);
      var x, z := Column(g, middle), Row(g, middle);
      hide GetChannelId, Column, Row, Interval, Spans, Hit, FarEdgeSampled, Covered;
      SpansCenter(a.center.x, a.ReachX(), g.width, g.offset.x);
      SpansCenter(a.center.z, a.ReachZ(), g.height, g.offset.z);
      if !FarEdgeFound(a.center.x, a.ReachX(), g.width, g.offset.x, g.cols) {
        MissedFarEdge(a.center.x, a.ReachX(), g.width, g.offset.x);
        x := Interval(a.center.x + a.ReachX(), g.offset.x, g.width);
      } else {
        MissedFarEdge(a.center.z, a.ReachZ(), g.height, g.offset.z);
        z := Interval(a.center.z + a.ReachZ(), g.offset.z, g.height);
      }
      var id := CellId(g, x, z);
      PlaceOf(g, x, z);
      BoxReachesOnBothAxes(g, a, id);
      MissedCell(g, a, id);
    }
  }

  /** Extents of at most one cell miss nothing. */
  lemma SmallBoxIsCovered(g: Grid, a: Area)
    requires a.Box? && a.Positive() && a.extent.x <= g.width && a.extent.z <= g.height
    ensures Covered(g, a)
  {
    ShortReachSamplesFarEdge(a.center.x, a.ReachX(), g.width, g.offset.x);
    ShortReachSamplesFarEdge(a.center.z, a.ReachZ(), g.height, g.offset.z);
    hide FarEdgeSampled, Covered, GetChannelId;
    FoundEdgesCover(g, a);
  }

  /** How much of the k-th interval the stretch covers. */
  function Overlap(c: real, reach: real, size: real, offset: real, k: int): real {
    Min(c + reach, Edge(offset, size, k + 1)) - Max(c - reach, Edge(offset, size, k))
  }

  lemma WideOverlapIsHit(c: real, reach: real, size: real, offset: real, k: int)
    requires reach > 0.0 && size > 0.0 && Overlap(c, reach, size, offset, k) >= Step(reach, size)
    ensures Hit(c, reach, size, offset, k)
  {
    hide Edge, Interval, Last, Step;
    var i := StretchIsHit(c, reach, size, Max(c - reach, Edge(offset, size, k)),
                          Min(c + reach, Edge(offset, size, k + 1)));
    IntervalBounds(Sample(c, reach, size, i), offset, size, k);
  }

  /** Whatever the extents, a cell that overlaps the box by a step on both axes is found. */
  lemma WideOverlapIsFound(g: Grid, a: Area, id: ChannelId)
    requires a.Box? && a.Positive() && IsCell(g, id)
    requires Overlap(a.center.x, a.ReachX(), g.width, g.offset.x, Column(g, id)) >= Step(a.ReachX(), g.width)
    requires Overlap(a.center.z, a.ReachZ(), g.height, g.offset.z, Row(g, id)) >= Step(a.ReachZ(), g.height)
    ensures Found(g, a, id)
  {
    hide GetChannelId, Column, Row, Hit, Overlap, Step;
    WideOverlapIsHit(a.center.x, a.ReachX(), g.width, g.offset.x, Column(g, id));
    WideOverlapIsHit(a.center.z, a.ReachZ(), g.height, g.offset.z, Row(g, id));
    BoxIsSampledOnBothAxes(g, a, id);
  }

  // ---- squares of one step ----

  /** The square of one step, or rectangle, with this lower corner; the upper sides do not belong to it. */
  predicate InSquare(g: Grid, a: Area, corner: Point, p: Point) {
    && corner.x <= p.x < corner.x + Step(a.ReachX(), g.width)
    && corner.z <= p.z < corner.z + Step(a.ReachZ(), g.height)
  }

  lemma ContainedIsWithinReach(a: Area, p: Point)
    requires a.Positive() && a.Contains(p)
    ensures a.center.x - a.ReachX() <= p.x <= a.center.x + a.ReachX()
    ensures a.center.z - a.ReachZ() <= p.z <= a.center.z + a.ReachZ()
  {
    if a.Sphere? {
      assert Square(p.x - a.center.x) == Square(a.center.x - p.x);
      assert Square(p.z - a.center.z) == Square(a.center.z - p.z);
      hide Square;
      SquaresAscend(p.x - a.center.x, a.radius);
      SquaresAscend(a.center.x - p.x, a.radius);
      SquaresAscend(p.z - a.center.z, a.radius);
      SquaresAscend(a.center.z - p.z, a.radius);
    }
  }

  /** Box or sphere: a cell that shares a square of one step with the area is found. */
  lemma SharedSquareIsFound(g: Grid, a: Area, corner: Point, id: ChannelId)
    requires a.Positive()
    requires forall p :: InSquare(g, a, corner, p) ==> a.Contains(p) && GetChannelId(g, p) == Ok(id)
    ensures Found(g, a, id)
  {
    hide GetChannelId, Step, Last, Sample;
    var (c, w, h) := (a.center, Step(a.ReachX(), g.width), Step(a.ReachZ(), g.height));
    StepIsPositive(a.ReachX(), g.width);
    StepIsPositive(a.ReachZ(), g.height);
    assert InSquare(g, a, corner, corner);
    ContainedIsWithinReach(a, corner);
    var x := Max(corner.x, (corner.x + w + c.x + a.ReachX()) / 2.0);
    if corner.x + w > c.x + a.ReachX() {
      assert InSquare(g, a, corner, Point(x, corner.z));
      ContainedIsWithinReach(a, Point(x, corner.z));
    }
    var z := Max(corner.z, (corner.z + h + c.z + a.ReachZ()) / 2.0);
    if corner.z + h > c.z + a.ReachZ() {
      assert InSquare(g, a, corner, Point(corner.x, z));
      ContainedIsWithinReach(a, Point(corner.x, z));
    }
    var i := StretchIsHit(c.x, a.ReachX(), g.width, corner.x, corner.x + w);
    var j := StretchIsHit(c.z, a.ReachZ(), g.height, corner.z, corner.z + h);
    assert InSquare(g, a, corner, SampleAt(g, a, j, i));
    assert Names(g, a, id, j, i);
  }

  lemma StepIsPositive(reach: real, size: real)
    requires reach > 0.0 && size > 0.0
    ensures Step(reach, size) > 0.0
  {
  }

  /** Between two numbers, none is farther from `c` than both of them. */
  lemma SquareBetween(c: real, low: real, v: real, high: real, bound: real)
    requires low <= v <= high && Square(low - c) <= bound && Square(high - c) <= bound
    ensures Square(v - c) <= bound
  {
    if v >= c {
      ProductsAscend(v - c, high - c, v - c, high - c);
    } else {
      ProductsAscend(c - v, c - low, c - v, c - low);
    }
  }

  /** The square lies in the cell. */
  predicate InCell(g: Grid, a: Area, corner: Point, id: ChannelId)
    requires IsCell(g, id)
  {
    && Edge(g.offset.x, g.width, Column(g, id)) <= corner.x
    && corner.x + Step(a.ReachX(), g.width) <= Edge(g.offset.x, g.width, Column(g, id) + 1)
    && Edge(g.offset.z, g.height, Row(g, id)) <= corner.z
    && corner.z + Step(a.ReachZ(), g.height) <= Edge(g.offset.z, g.height, Row(g, id) + 1)
  }

  /** A sphere finds every cell in which a square of one step has its four corners within the radius. */
  lemma SphereOverlapIsFound(g: Grid, a: Area, corner: Point, id: ChannelId)
    requires a.Sphere? && a.Positive() && IsCell(g, id) && InCell(g, a, corner, id)
    requires var (w, h) := (Step(a.ReachX(), g.width), Step(a.ReachZ(), g.height));
             && a.Contains(corner) && a.Contains(Point(corner.x + w, corner.z))
             && a.Contains(Point(corner.x, corner.z + h)) && a.Contains(Point(corner.x + w, corner.z + h))
    ensures Found(g, a, id)
  {
    hide Step, Edge, Interval, Square;
    var (c, w, h) := (a.center, Step(a.ReachX(), g.width), Step(a.ReachZ(), g.height));
    forall p | InSquare(g, a, corner, p) ensures a.Contains(p) && GetChannelId(g, p) == Ok(id) {
      IntervalBounds(p.x, g.offset.x, g.width, Column(g, id));
      IntervalBounds(p.z, g.offset.z, g.height, Row(g, id));
      CellOnAxes(g, p, id);
      var r2 := Square(a.radius);
      SquareBetween(c.x, corner.x, p.x, corner.x + w, r2 - Square(corner.z - c.z));
      SquareBetween(c.x, corner.x, p.x, corner.x + w, r2 - Square(corner.z + h - c.z));
      SquareBetween(c.z, corner.z, p.z, corner.z + h, r2 - Square(p.x - c.x));
    }
    SharedSquareIsFound(g, a, corner, id);
  }

  ghost const FOUR_BY_FOUR: Grid := Config(1.0, 1.0, 4, 4, Point(-2.0, -2.0), 1, 1, 1, 0x1_0000)

  /** A box of 1.1 cells to each side: the samples stop at 0.9, short of the cells that start at 1. */
  lemma FarEdgeCanBeMissed()
    ensures !Covered(FOUR_BY_FOUR, Box(Point(0.0, 0.0), Point(1.1, 1.1)))
  {
    var g, a := FOUR_BY_FOUR, Box(Point(0.0, 0.0), Point(1.1, 1.1));
    assert InWorld(g, a.center);
    assert !FarEdgesFound(g, a) by {
      assert Sample(0.0, 1.1, 1.0, 4) == 0.9 && Sample(0.0, 1.1, 1.0, 5) == 1.4;
      assert Last(0.0, 1.1, 1.0) == 4;
    }
    BoxIsCoveredIff(g, a);
  }

  // ---- distances ----

  lemma ZeroUnits(unit2: real)
    requires unit2 > 0.0
    ensures Units(0.0, unit2) == 0
  {
    LeastUnits(0.0, unit2, 0);
  }

  lemma CloseUnits(g: Grid, c: Point, p: Point, q: Point)
    requires GetChannelId(g, p).Ok? && GetChannelId(g, p) == GetChannelId(g, q)
    ensures -1 <= Units(Distance2(c, p), Diagonal2(g)) - Units(Distance2(c, q), Diagonal2(g)) <= 1
  {
    CellDiameter(g, p, q);
    CellDiameter(g, q, p);
    hide GetChannelId, Distance2, Units, Diagonal2;
    NearbyUnits(c, p, q, Diagonal2(g));
    NearbyUnits(c, q, p, Diagonal2(g));
  }

  /**
   The distance stored for a cell, whichever sample stored it and although the centre's is set
   to 0, is at most one off the distance of any point of the cell, in grid diagonals.
   */
  lemma DistanceIsStable(g: Grid, a: Area, before: Distances, after: Distances, p: Point)
    requires a.Positive() && GetChannelId(g, a.center).Ok? && Answers(g, a, before, after)
    requires GetChannelId(g, p).Ok? && Found(g, a, GetChannelId(g, p).value)
    ensures GetChannelId(g, p).value in after
    ensures -1 <= after[GetChannelId(g, p).value] - Units(Distance2(a.center, p), Diagonal2(g)) <= 1
  {
    var id := GetChannelId(g, p).value;
    hide GetChannelId, Units, Diagonal2, Square, InRange;
    if Ok(id) == GetChannelId(g, a.center) {
      CloseUnits(g, a.center, a.center, p);
      assert Distance2(a.center, a.center) == 0.0 by { ZeroSquare(); }
      ZeroUnits(Diagonal2(g));
    } else {
      assert Painted(g, a, id, before, after);
      var j: nat, i: nat :| LastToName(g, a, id, j, i) && after[id] == UnitsAt(g, a, j, i);
      CloseUnits(g, a.center, SampleAt(g, a, j, i), p);
    }
  }

  lemma ZeroSquare()
    ensures Square(0.0) == 0.0
  {
  }

  /** In a box of two cells to each side, the outermost cell gets the distance of its farthest sample. */
  lemma LastSampleDecides(before: Distances, after: Distances)
    requires var g := FOUR_BY_FOUR; GetChannelId(g, Point(0.0, 0.0)).Ok?
    requires Answers(FOUR_BY_FOUR, Box(Point(0.0, 0.0), Point(2.0, 2.0)), before, after)
    ensures var id := CellId(FOUR_BY_FOUR, 3, 3); id in after && after[id] == 2
  {
    var g, a := FOUR_BY_FOUR, Box(Point(0.0, 0.0), Point(2.0, 2.0));
    var id := CellId(g, 3, 3);
    hide GetChannelId, Interval, CellId;
    CornerSamples();
    SampleCells(7, 7);
    assert Names(g, a, id, 7, 7);
    assert Painted(g, a, id, before, after);
    var j: nat, i: nat :| LastToName(g, a, id, j, i) && after[id] == UnitsAt(g, a, j, i);
    SampleCells(j, i);
    assert !Earlier(j, i, 7, 7);
    FarthestUnits();
    hide UnitsAt;
  }

  /** The samples of that box are half a cell apart, and nine in each row and column. */
  lemma CornerSamples()
    ensures forall i: nat :: Sample(0.0, 2.0, 1.0, i) == 0.5 * i as real - 2.0
    ensures Last(0.0, 2.0, 1.0) == 8
    ensures GetChannelId(FOUR_BY_FOUR, Point(0.0, 0.0)) != Ok(CellId(FOUR_BY_FOUR, 3, 3))
  {
    assert Sample(0.0, 2.0, 1.0, 8) == 2.0 && Sample(0.0, 2.0, 1.0, 9) == 2.5;
  }

  /** Those in the outermost cell. */
  lemma SampleCells(j: nat, i: nat)
    requires j <= 8 && i <= 8
    ensures CellAt(FOUR_BY_FOUR, Box(Point(0.0, 0.0), Point(2.0, 2.0)), j, i) == Ok(CellId(FOUR_BY_FOUR, 3, 3)) <==>
            6 <= j <= 7 && 6 <= i <= 7
  {
    CornerSamples();
  }

  lemma FarthestUnits()
    ensures UnitsAt(FOUR_BY_FOUR, Box(Point(0.0, 0.0), Point(2.0, 2.0)), 7, 7) == 2
  {
    CornerSamples();
  }

  // ---- whole queries ----

  /** Spots, a box and a sphere, in the order in which a query handles them. */
  datatype Query = Query(spots: seq<Point>, dists: seq<nat>, box: Option<Area>, sphere: Option<Area>)

  /** Spot `i` is the last one in this cell. */
  predicate LastSpot(g: Grid, spots: seq<Point>, id: ChannelId, i: nat) {
    && i < |spots| && GetChannelId(g, spots[i]) == Ok(id)
    && forall j :: i < j < |spots| ==> GetChannelId(g, spots[j]) != Ok(id)
  }

  predicate SpotIn(g: Grid, spots: seq<Point>, id: ChannelId) {
    exists i :: 0 <= i < |spots| && GetChannelId(g, spots[i]) == Ok(id)
  }

  /** A spot without a distance counts as the nearest; one outside the world is passed over. */
  method QuerySpots(g: Grid, spots: seq<Point>, dists: seq<nat>) returns (result: Distances)
    ensures forall id: ChannelId :: id in result <==> SpotIn(g, spots, id)
    ensures forall id: ChannelId, i: nat :: LastSpot(g, spots, id, i) ==>
              id in result && result[id] == (if i < |dists| then dists[i] else 0)
    ensures spots == [] ==> result == map[]
  {
    hide GetChannelId;
    result := map[];
    for k := 0 to |spots|
      invariant forall id: ChannelId :: id in result <==> exists i :: 0 <= i < k && GetChannelId(g, spots[i]) == Ok(id)
      invariant k == 0 ==> result == map[]
      invariant forall id: ChannelId, i: nat :: i < k && GetChannelId(g, spots[i]) == Ok(id)
                  && (forall j :: i < j < k ==> GetChannelId(g, spots[j]) != Ok(id))
                  ==> id in result && result[id] == (if i < |dists| then dists[i] else 0)
    {
      var chId := GetChannelId(g, spots[k]);
      if chId.Err? {
        continue;
      }
      result := result[chId.value := if k < |dists| then dists[k] else 0];
    }
  }

  /** The cells a box or sphere adds. */
  ghost predicate Adds(g: Grid, a: Option<Area>, id: ChannelId) {
    a.Some? && a.value.Positive() && Found(g, a.value, id)
  }

  predicate Answerable(g: Grid, a: Option<Area>) {
    a.Some? ==> a.value.Positive() && InWorld(g, a.value.center)
  }

  /** What a box or sphere adds to an answer, or changes in it, if there is one. */
  ghost predicate Extends(g: Grid, a: Option<Area>, before: Distances, after: Distances) {
    if a.None? then after == before
    else a.value.Positive() && GetChannelId(g, a.value.center).Ok? && Answers(g, a.value, before, after)
  }

  /** What the spots name, each cell with the distance of its last spot. */
  ghost predicate SpotsAnswer(g: Grid, spots: seq<Point>, dists: seq<nat>, result: Distances) {
    && (forall id: ChannelId :: id in result <==> SpotIn(g, spots, id))
    && (forall id: ChannelId, i: nat :: LastSpot(g, spots, id, i) ==>
          id in result && result[id] == (if i < |dists| then dists[i] else 0))
  }

  /** The answer of a query: first its spots, then its box, then its sphere. */
  ghost predicate AnswersQuery(g: Grid, q: Query, answer: Distances) {
    exists spotted: Distances, boxed: Distances ::
      && SpotsAnswer(g, q.spots, q.dists, spotted)
      && Extends(g, q.box, spotted, boxed) && Extends(g, q.sphere, boxed, answer)
  }

  /** The answer to a query that has at most this box or sphere. */
  ghost predicate AnswersAlone(g: Grid, a: Option<Area>, answer: Distances) {
    if a.None? then answer == map[]
    else a.value.Positive() && GetChannelId(g, a.value.center).Ok? && Answers(g, a.value, map[], answer)
  }

  method QueryChannelIds(g: Grid, query: Option<Query>) returns (r: Result<Distances>)
    ensures r.Ok? <==> query.Some? && Answerable(g, query.value.box) && Answerable(g, query.value.sphere)
    ensures r.Ok? ==> forall id: ChannelId :: id in r.value <==>
              SpotIn(g, query.value.spots, id) || Adds(g, query.value.box, id) || Adds(g, query.value.sphere, id)
    ensures r.Ok? ==> AnswersQuery(g, query.value, r.value)
    ensures r.Ok? && query.value.spots == [] && query.value.sphere.None? ==>
              AnswersAlone(g, query.value.box, r.value)
    ensures r.Ok? && query.value.spots == [] && query.value.box.None? ==>
              AnswersAlone(g, query.value.sphere, r.value)
  {
    hide Answers, SpotIn, Adds, InWorld, GetChannelId, LastSpot;
    if query.None? {
      return Err;
    }
    var spotted := QuerySpots(g, query.value.spots, query.value.dists);
    var boxed := QueryOptional(g, query.value.box, spotted);
    if boxed.Err? {
      return Err;
    }
    r := QueryOptional(g, query.value.sphere, boxed.value);
    assert SpotsAnswer(g, query.value.spots, query.value.dists, spotted);
    assert Extends(g, query.value.box, spotted, boxed.value);
    assert r.Ok? ==> Extends(g, query.value.sphere, boxed.value, r.value);
    hide SpotsAnswer, Extends;
  }

  /**
   The distance of a cell is the sphere's if the sphere finds the cell, or else the box's, or else that of the last
   spot in the cell. A sphere's or box's is at most one off that of any point of the cell.
   */
  lemma LastPartDecides(g: Grid, q: Query, answer: Distances, p: Point)
    requires AnswersQuery(g, q, answer) && GetChannelId(g, p).Ok?
    ensures var (id, unit2) := (GetChannelId(g, p).value, Diagonal2(g));
            if Adds(g, q.sphere, id) then
              && id in answer && -1 <= answer[id] - Units(Distance2(q.sphere.value.center, p), unit2) <= 1
              && (p == q.sphere.value.center ==> answer[id] == 0)
            else if Adds(g, q.box, id) then
              && id in answer && -1 <= answer[id] - Units(Distance2(q.box.value.center, p), unit2) <= 1
              && (p == q.box.value.center ==> answer[id] == 0)
            else forall i: nat :: LastSpot(g, q.spots, id, i) ==>
                   id in answer && answer[id] == (if i < |q.dists| then q.dists[i] else 0)
  {
    var id := GetChannelId(g, p).value;
    var spotted: Distances, boxed: Distances :|
      && SpotsAnswer(g, q.spots, q.dists, spotted)
      && Extends(g, q.box, spotted, boxed) && Extends(g, q.sphere, boxed, answer);
    hide GetChannelId, Units, Diagonal2, Distance2, Answers, Found, LastSpot, SpotIn;
    if Adds(g, q.sphere, id) {
      DistanceIsStable(g, q.sphere.value, boxed, answer, p);
      CenterIsNear(g, q.sphere.value, boxed, answer);
    } else {
      NotAdded(g, q.sphere, boxed, answer, id);
      if Adds(g, q.box, id) {
        DistanceIsStable(g, q.box.value, spotted, boxed, p);
        CenterIsNear(g, q.box.value, spotted, boxed);
      } else {
        NotAdded(g, q.box, spotted, boxed, id);
      }
    }
  }

  lemma CenterIsNear(g: Grid, a: Area, before: Distances, after: Distances)
    requires a.Positive() && GetChannelId(g, a.center).Ok? && Answers(g, a, before, after)
    ensures var id := GetChannelId(g, a.center).value; id in after && after[id] == 0
  {
    hide GetChannelId;
  }

  lemma NotAdded(g: Grid, a: Option<Area>, before: Distances, after: Distances, id: ChannelId)
    requires Extends(g, a, before, after) && !Adds(g, a, id)
    ensures SameAt(before, after, id)
  {
    hide GetChannelId, Sampled;
  }

  method QueryOptional(g: Grid, a: Option<Area>, before: Distances) returns (r: Result<Distances>)
    ensures r.Ok? <==> Answerable(g, a)
    ensures r.Ok? && a.None? ==> r.value == before
    ensures r.Ok? && a.Some? ==>
              a.value.Positive() && GetChannelId(g, a.value.center).Ok? && Answers(g, a.value, before, r.value)
    ensures r.Ok? ==> forall id: ChannelId :: id in r.value <==> id in before || Adds(g, a, id)
  {
    hide GetChannelId, Answers, InWorld, Sampled;
    if a.None? {
      return Ok(before);
    }
    r := QueryArea(g, a.value, before);
    if r.Ok? {
      forall id: ChannelId ensures id in r.value <==> id in before || Adds(g, a, id) {
        AnswerKeys(g, a.value, before, r.value, id);
      }
    }
  }
}
