/** Distances in grid diagonals, without square roots. */
module GridDistance {
  import opened SpatialGrid

  function Times(a: real, b: real): real {
    a * b
  }

  lemma PositiveProduct(a: real, b: real)
    requires a > 0.0 && b > 0.0
    ensures Times(a, b) > 0.0
  {
  }

  function Square(v: real): (s: real)
    ensures s >= 0.0 && (v > 0.0 ==> s > 0.0)
  {
    assert v > 0.0 ==> Times(v, v) > 0.0 by {
      if v > 0.0 { PositiveProduct(v, v); }
    }
    Times(v, v)
  }

  function Distance2(p: Point, q: Point): (d: real)
    ensures d >= 0.0
  {
    Square(p.x - q.x) + Square(p.z - q.z)
  }

  /** The square of a cell's diagonal, which the program calls the grid size. */
  function Diagonal2(g: Grid): (d: real)
    ensures d > 0.0
  {
    Square(g.width) + Square(g.height)
  }

  predicate Within(d2: real, unit2: real, k: nat) {
    d2 <= Square(k as real) * unit2
  }

  lemma GrowsPast(d2: real, unit2: real, k: nat)
    requires unit2 > 0.0 && !Within(d2, unit2, k)
    ensures d2 / unit2 > k as real
  {
    var q := d2 / unit2;
    assert q * unit2 == d2;
    Scaled(q, Square(k as real), unit2);
    assert k >= 1 ==> (k as real - 1.0) * k as real >= 0.0;
  }

  /** Counts up from `k` to the first number of units that is at least the distance. */
  function UnitsFrom(d2: real, unit2: real, k: nat): (n: nat)
    requires unit2 > 0.0
    ensures n >= k && Within(d2, unit2, n)
    ensures n > k ==> !Within(d2, unit2, n - 1)
    decreases (d2 / unit2).Floor - k
  {
    if Within(d2, unit2, k) then k
    else
      GrowsPast(d2, unit2, k);
      UnitsFrom(d2, unit2, k + 1)
  }

  /** A distance in whole units, rounded up: ceil(sqrt(d2) / sqrt(unit2)). */
  function Units(d2: real, unit2: real): (n: nat)
    requires unit2 > 0.0
    ensures Within(d2, unit2, n) && (n > 0 ==> !Within(d2, unit2, n - 1))
  {
    UnitsFrom(d2, unit2, 0)
  }

  lemma WithinAscends(d2: real, unit2: real, j: nat, k: nat)
    requires unit2 > 0.0 && j <= k && Within(d2, unit2, j)
    ensures Within(d2, unit2, k)
  {
    if j < k {
      SquaresStrictlyAscend(j as real, k as real);
    }
    Scaled(Square(j as real), Square(k as real), unit2);
  }

  lemma LeastUnits(d2: real, unit2: real, n: nat)
    requires unit2 > 0.0
    ensures Within(d2, unit2, n) <==> Units(d2, unit2) <= n
  {
    var m := Units(d2, unit2);
    if m <= n {
      WithinAscends(d2, unit2, m, n);
    } else if Within(d2, unit2, n) {
      WithinAscends(d2, unit2, n, m - 1);
    }
  }

  lemma SquaresAscend(a: real, b: real)
    requires b >= 0.0 && Square(a) <= Square(b)
    ensures a <= b
  {
    if a > b {
      SquaresStrictlyAscend(b, a);
    }
  }

  lemma SquaresStrictlyAscend(a: real, b: real)
    requires 0.0 <= a < b
    ensures Square(a) < Square(b)
  {
    var d := b - a;
    assert Square(a + d) == Square(a) + 2.0 * (a * d) + Square(d);
    assert a * d >= 0.0;
  }

  lemma Cauchy(ux: real, uz: real, vx: real, vz: real)
    ensures Square(ux * vx + uz * vz) <= (Square(ux) + Square(uz)) * (Square(vx) + Square(vz))
  {
    calc {
      (Square(ux) + Square(uz)) * (Square(vx) + Square(vz)) - Square(ux * vx + uz * vz);
      (ux * ux) * (vz * vz) + (uz * uz) * (vx * vx) - 2.0 * (ux * vx) * (uz * vz);
      Square(ux * vz - uz * vx);
    }
  }

  lemma ProductsAscend(a: real, b: real, c: real, d: real)
    requires 0.0 <= a <= b && 0.0 <= c <= d
    ensures a * c <= b * d
  {
    assert (b - a) * c >= 0.0;
    assert b * (d - c) >= 0.0;
  }

  lemma NextSquare(k: nat, unit2: real)
    ensures Square((k + 1) as real) * unit2 == Square(k as real) * unit2 + 2.0 * (k as real * unit2) + unit2
  {
    assert Square((k + 1) as real) == Square(k as real) + 2.0 * k as real + 1.0;
  }

  lemma SquareOfProduct(a: real, b: real)
    ensures Square(a * b) == Square(a) * b * b
  {
  }

  /** Moving by at most one unit changes a distance by at most one unit. */
  lemma OneUnitAway(c: Point, p: Point, q: Point, unit2: real, k: nat)
    requires unit2 > 0.0 && Within(Distance2(c, p), unit2, k) && Distance2(p, q) <= unit2
    ensures Within(Distance2(c, q), unit2, k + 1)
  {
    var ux, uz, vx, vz := c.x - p.x, c.z - p.z, p.x - q.x, p.z - q.z;
    Expand(ux, uz, vx, vz);
    Cauchy(ux, uz, vx, vz);
    hide Square;
    var dot := ux * vx + uz * vz;
    assert c.x - q.x == ux + vx && c.z - q.z == uz + vz;
    DotBound(Distance2(c, p), Distance2(p, q), dot, unit2, k);
    NextSquare(k, unit2);
  }

  lemma Expand(ux: real, uz: real, vx: real, vz: real)
    ensures Square(ux + vx) + Square(uz + vz)
            == Square(ux) + Square(uz) + 2.0 * (ux * vx + uz * vz) + Square(vx) + Square(vz)
  {
  }

  lemma DotBound(a2: real, b2: real, dot: real, unit2: real, k: nat)
    requires unit2 > 0.0 && 0.0 <= a2 <= Square(k as real) * unit2 && 0.0 <= b2 <= unit2
    requires Square(dot) <= a2 * b2
    ensures dot <= k as real * unit2
  {
    ProductsAscend(a2, Square(k as real) * unit2, b2, unit2);
    SquareOfProduct(k as real, unit2);
    assert k as real * unit2 >= 0.0;
    hide Square;
    SquaresAscend(dot, k as real * unit2);
  }

  lemma NearbyUnits(c: Point, p: Point, q: Point, unit2: real)
    requires unit2 > 0.0 && Distance2(p, q) <= unit2
    ensures Units(Distance2(c, q), unit2) <= Units(Distance2(c, p), unit2) + 1
  {
    OneUnitAway(c, p, q, unit2, Units(Distance2(c, p), unit2));
    LeastUnits(Distance2(c, q), unit2, Units(Distance2(c, p), unit2) + 1);
  }

  lemma SquareBelow(v: real, size: real)
    requires -size <= v <= size
    ensures Square(v) <= Square(size)
  {
    assert (size - v) * (size + v) >= 0.0;
  }

  /** Two points of one cell are at most a diagonal apart. */
  lemma CellDiameter(g: Grid, p: Point, q: Point)
    requires GetChannelId(g, p).Ok? && GetChannelId(g, p) == GetChannelId(g, q)
    ensures Distance2(p, q) <= Diagonal2(g)
  {
    var id := GetChannelId(g, p).value;
    ChannelsCoverTheWorld(g, p);
    CellOnAxes(g, p, id);
    CellOnAxes(g, q, id);
    hide Square, Interval, GetChannelId, Column, Row;
    NearOnAxis(p.x, q.x, g.offset.x, g.width);
    NearOnAxis(p.z, q.z, g.offset.z, g.height);
  }

  lemma NearOnAxis(v: real, w: real, offset: real, size: real)
    requires size > 0.0 && Interval(v, offset, size) == Interval(w, offset, size)
    ensures Square(v - w) <= Square(size)
  {
    var k := Interval(v, offset, size);
    hide Interval, Square;
    IntervalBounds(v, offset, size, k);
    IntervalBounds(w, offset, size, k);
    EdgeStep(offset, size, k);
    SquareBelow(v - w, size);
  }

  lemma EdgeStep(offset: real, size: real, k: int)
    ensures Edge(offset, size, k + 1) == Edge(offset, size, k) + size
  {
  }

  /** And opposite corners of a cell are a diagonal apart. */
  lemma DiagonalIsReached(g: Grid, p: Point)
    ensures Distance2(p, Point(p.x + g.width, p.z + g.height)) == Diagonal2(g)
  {
    assert Square(p.x - (p.x + g.width)) == Square(g.width) && Square(p.z - (p.z + g.height)) == Square(g.height);
  }
}
