/** Samples along one axis: which intervals of the grid they hit. */
module AxisSampling {
  import opened SpatialGrid
  import opened GridDistance

  function Min(a: real, b: real): real {
    if a < b then a else b
  }

  function Step(reach: real, size: real): real {
    Min(reach, size) * 0.5
  }

  /** The i-th sample of the stretch that reaches `reach` to both sides of `c`. */
  function Sample(c: real, reach: real, size: real, i: int): real {
    Edge(c - reach, Step(reach, size), i)
  }

  /** The number of the last sample. */
  function Last(c: real, reach: real, size: real): (n: nat)
    requires reach > 0.0 && size > 0.0
    ensures forall i: int :: i <= n <==> Sample(c, reach, size, i) <= c + reach
  {
    var n := Interval(c + reach, c - reach, Step(reach, size));
    LastSample(c, reach, size);
    n
  }

  lemma LastSample(c: real, reach: real, size: real)
    requires reach > 0.0 && size > 0.0
    ensures var n := Interval(c + reach, c - reach, Step(reach, size));
            n >= 0 && forall i: int :: i <= n <==> Sample(c, reach, size, i) <= c + reach
  {
    var low, high, step := c - reach, c + reach, Step(reach, size);
    var n := Interval(high, low, step);
    assert Edge(low, step, 0) == low;
    hide Interval, Edge;
    IntervalBounds(high, low, step, n);
    EdgesAscend(low, step, n + 1, 0);
    forall i: int ensures i <= n <==> Edge(low, step, i) <= high {
      EdgesAscend(low, step, i, n);
      EdgesAscend(low, step, n + 1, i);
    }
  }

  /** Some sample is in the k-th interval of the grid's axis. */
  ghost predicate Hit(c: real, reach: real, size: real, offset: real, k: int)
    requires reach > 0.0 && size > 0.0
  {
    exists i: nat :: i <= Last(c, reach, size) && Interval(Sample(c, reach, size, i), offset, size) == k
  }

  /** The far edge of the stretch is in the same cell as the last sample. */
  predicate FarEdgeSampled(c: real, reach: real, size: real, offset: real)
    requires reach > 0.0 && size > 0.0
  {
    Interval(Sample(c, reach, size, Last(c, reach, size)), offset, size) == Interval(c + reach, offset, size)
  }

  lemma IntervalAscends(v: real, w: real, offset: real, size: real)
    requires size > 0.0 && v <= w
    ensures Interval(v, offset, size) <= Interval(w, offset, size)
  {
    var j, k := Interval(v, offset, size), Interval(w, offset, size);
    hide Interval, Edge;
    IntervalBounds(v, offset, size, j);
    IntervalBounds(w, offset, size, k);
    EdgesAscend(offset, size, k + 1, j);
  }

  /** A sample falls into every half-open stretch of one step or more. */
  lemma StretchIsHit(c: real, reach: real, size: real, a: real, b: real) returns (i: nat)
    requires reach > 0.0 && size > 0.0
    requires c - reach <= a && b <= c + reach && b - a >= Step(reach, size)
    ensures i <= Last(c, reach, size)
    ensures a <= Sample(c, reach, size, i) < b
  {
    var low, step := c - reach, Step(reach, size);
    assert Edge(low, step, 0) == low;
    var j := Interval(a, low, step);
    hide Interval, Edge, Last;
    IntervalBounds(a, low, step, j);
    EdgesAscend(low, step, j + 1, 0);
    EdgeStep(low, step, j);
    i := if a == Edge(low, step, j) then j else j + 1;
    assert Sample(c, reach, size, i) <= c + reach;
  }

  lemma EarlierCellsAreHit(c: real, reach: real, size: real, offset: real, k: int)
    requires reach > 0.0 && size > 0.0
    requires Interval(c - reach, offset, size) <= k < Interval(c + reach, offset, size)
    ensures Hit(c, reach, size, offset, k)
  {
    var low, high := c - reach, c + reach;
    var first, far := Interval(low, offset, size), Interval(high, offset, size);
    hide Interval, Edge, Last;
    if k == first {
      FirstSample(c, reach, size);
    } else {
      IntervalBounds(low, offset, size, first);
      IntervalBounds(high, offset, size, far);
      EdgesAscend(offset, size, first + 1, k);
      EdgesAscend(offset, size, k + 1, far);
      EdgeStep(offset, size, k);
      var i := StretchIsHit(c, reach, size, Edge(offset, size, k), Edge(offset, size, k + 1));
      IntervalBounds(Sample(c, reach, size, i), offset, size, k);
    }
  }

  lemma FirstSample(c: real, reach: real, size: real)
    requires reach > 0.0 && size > 0.0
    ensures Sample(c, reach, size, 0) == c - reach
  {
  }

  /** The cells that are hit are those from the near edge's to the last sample's. */
  lemma HitCells(c: real, reach: real, size: real, offset: real, k: int)
    requires reach > 0.0 && size > 0.0
    ensures Hit(c, reach, size, offset, k) <==>
            Interval(c - reach, offset, size) <= k
              <= Interval(Sample(c, reach, size, Last(c, reach, size)), offset, size)
  {
    var n := Last(c, reach, size);
    var near, last := Interval(c - reach, offset, size), Interval(Sample(c, reach, size, n), offset, size);
    FirstSample(c, reach, size);
    if Hit(c, reach, size, offset, k) {
      var i: nat :| i <= n && Interval(Sample(c, reach, size, i), offset, size) == k;
      SamplesAscend(c, reach, size, 0, i);
      SamplesAscend(c, reach, size, i, n);
      hide Interval, Sample;
      IntervalAscends(c - reach, Sample(c, reach, size, i), offset, size);
      IntervalAscends(Sample(c, reach, size, i), Sample(c, reach, size, n), offset, size);
    } else if near <= k <= last {
      hide Interval, Sample;
      IntervalAscends(Sample(c, reach, size, n), c + reach, offset, size);
      if k < last {
        EarlierCellsAreHit(c, reach, size, offset, k);
      }
    }
  }

  lemma SamplesAscend(c: real, reach: real, size: real, i: int, j: int)
    requires reach > 0.0 && size > 0.0 && i <= j
    ensures Sample(c, reach, size, i) <= Sample(c, reach, size, j)
  {
    EdgesAscend(c - reach, Step(reach, size), i, j);
  }

  /** Sampling finds every cell that a stretch of at most one cell to each side touches. */
  lemma ShortReachSamplesFarEdge(c: real, reach: real, size: real, offset: real)
    requires 0.0 < reach <= size
    ensures FarEdgeSampled(c, reach, size, offset)
  {
    assert Sample(c, reach, size, 4) == c + reach;
    SamplesAscend(c, reach, size, 4, Last(c, reach, size));
    hide Interval;
  }
}
