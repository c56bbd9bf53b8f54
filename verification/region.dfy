/**
 * The map-region query answering `get_map`: the square window of radius
 * `radius` around a centre, clipped to the grid, read column by column
 * (x-major, then y).
 */
module Region {
  import opened World

  datatype RegionEntry = RegionEntry(x: int, y: int, tile: Tile)

  /** Number of integers in the closed range [lo, hi]. */
  function Extent(lo: int, hi: int): nat {
    if hi < lo then 0 else hi - lo + 1
  }

  /** First and last coordinate the query loops visit on one axis. */
  function Lo(c: int, radius: int): int { Max(0, c - radius) }
  function Hi(c: int, radius: int): int { Min(MapSize - 1, c + radius) }

  /** A range of coordinates that is empty or lies inside the grid. */
  predicate ValidSpan(lo: int, hi: int) {
    0 <= lo && (lo <= hi ==> hi < MapSize)
  }

  /** Strict x-major order on region entries. */
  predicate Before(a: RegionEntry, b: RegionEntry) {
    a.x < b.x || (a.x == b.x && a.y < b.y)
  }

  predicate XMajor(r: seq<RegionEntry>) {
    forall i, j :: 0 <= i < j < |r| ==> Before(r[i], r[j])
  }

  predicate Covers(r: seq<RegionEntry>, x: int, y: int) {
    exists k :: 0 <= k < |r| && r[k].x == x && r[k].y == y
  }

  /** Reference definition: the entries (x, ylo) .. (x, yhi) of one column. */
  function Column(g: Grid, x: int, ylo: int, yhi: int): seq<RegionEntry>
    requires ValidGrid(g) && 0 <= x < MapSize && ValidSpan(ylo, yhi)
    decreases yhi - ylo
  {
    if yhi < ylo then [] else Column(g, x, ylo, yhi - 1) + [RegionEntry(x, yhi, TileAt(g, x, yhi))]
  }

  /** Reference definition: columns xlo .. xhi, each restricted to ylo .. yhi. */
  function Rows(g: Grid, xlo: int, xhi: int, ylo: int, yhi: int): seq<RegionEntry>
    requires ValidGrid(g) && ValidSpan(xlo, xhi) && ValidSpan(ylo, yhi)
    decreases xhi - xlo
  {
    if xhi < xlo then [] else Rows(g, xlo, xhi - 1, ylo, yhi) + Column(g, xhi, ylo, yhi)
  }

  lemma {:induction false} ColumnShape(g: Grid, x: int, ylo: int, yhi: int)
    requires ValidGrid(g) && 0 <= x < MapSize && ValidSpan(ylo, yhi)
    ensures |Column(g, x, ylo, yhi)| == Extent(ylo, yhi)
    ensures forall k :: 0 <= k < |Column(g, x, ylo, yhi)| ==>
      Column(g, x, ylo, yhi)[k] == RegionEntry(x, ylo + k, TileAt(g, x, ylo + k))
    decreases yhi - ylo
  {
    if ylo <= yhi {
      var front := Column(g, x, ylo, yhi - 1);
      var c := Column(g, x, ylo, yhi);
      ColumnShape(g, x, ylo, yhi - 1);
      assert c == front + [RegionEntry(x, yhi, TileAt(g, x, yhi))];
      forall k | 0 <= k < |c|
        ensures c[k] == RegionEntry(x, ylo + k, TileAt(g, x, ylo + k))
      {
        if k < |front| {
          assert c[k] == front[k];
        }
      }
    }
  }

  /**
   * Everything the region query promises, for the reference definition:
   * size is the product of the extents, every entry lies in the window and
   * carries its grid tile, the order is x-major, and every cell of the
   * window is listed.
   */
  lemma {:induction false} RowsShape(g: Grid, xlo: int, xhi: int, ylo: int, yhi: int)
    requires ValidGrid(g) && ValidSpan(xlo, xhi) && ValidSpan(ylo, yhi)
    ensures |Rows(g, xlo, xhi, ylo, yhi)| == Extent(xlo, xhi) * Extent(ylo, yhi)
    ensures forall k :: 0 <= k < |Rows(g, xlo, xhi, ylo, yhi)| ==>
      var e := Rows(g, xlo, xhi, ylo, yhi)[k];
      xlo <= e.x <= xhi && ylo <= e.y <= yhi && InBounds(e.x, e.y) && e.tile == TileAt(g, e.x, e.y)
    ensures XMajor(Rows(g, xlo, xhi, ylo, yhi))
    ensures forall x, y :: xlo <= x <= xhi && ylo <= y <= yhi ==> Covers(Rows(g, xlo, xhi, ylo, yhi), x, y)
    decreases xhi - xlo
  {
    if xlo <= xhi {
      var front := Rows(g, xlo, xhi - 1, ylo, yhi);
      var col := Column(g, xhi, ylo, yhi);
      var r := Rows(g, xlo, xhi, ylo, yhi);
      RowsShape(g, xlo, xhi - 1, ylo, yhi);
      ColumnShape(g, xhi, ylo, yhi);
      assert r == front + col;
      calc {
        |r|;
        |front| + |col|;
        Extent(xlo, xhi - 1) * Extent(ylo, yhi) + Extent(ylo, yhi);
        (Extent(xlo, xhi - 1) + 1) * Extent(ylo, yhi);
      }
      forall i, j | 0 <= i < j < |r|
        ensures Before(r[i], r[j])
      {
        if j < |front| {
          assert r[i] == front[i] && r[j] == front[j];
        } else if i < |front| {
          assert r[i] == front[i] && r[j] == col[j - |front|];
        } else {
          assert r[i] == col[i - |front|] && r[j] == col[j - |front|];
        }
      }
      forall x, y | xlo <= x <= xhi && ylo <= y <= yhi
        ensures Covers(r, x, y)
      {
        if x == xhi {
          var k := |front| + (y - ylo);
          assert r[k] == col[y - ylo];
        } else {
          assert Covers(front, x, y);
          var k :| 0 <= k < |front| && front[k].x == x && front[k].y == y;
          assert r[k] == front[k];
        }
      }
    }
  }

  /** The answer to `get_map` at centre (cx, cy) with the given radius. */
  function RegionAround(g: Grid, cx: int, cy: int, radius: int): (r: seq<RegionEntry>)
    requires ValidGrid(g)
    ensures |r| == Extent(Lo(cx, radius), Hi(cx, radius)) * Extent(Lo(cy, radius), Hi(cy, radius))
    ensures forall k :: 0 <= k < |r| ==>
      InBounds(r[k].x, r[k].y) && r[k].tile == TileAt(g, r[k].x, r[k].y)
      && cx - radius <= r[k].x <= cx + radius && cy - radius <= r[k].y <= cy + radius
    ensures XMajor(r)
    ensures forall x, y ::
              InBounds(x, y) && cx - radius <= x <= cx + radius && cy - radius <= y <= cy + radius ==> Covers(r, x, y)
  {
    RowsShape(g, Lo(cx, radius), Hi(cx, radius), Lo(cy, radius), Hi(cy, radius));
    Rows(g, Lo(cx, radius), Hi(cx, radius), Lo(cy, radius), Hi(cy, radius))
  }

  /** Radius 0 around a cell of the grid yields exactly that cell. */
  lemma RadiusZeroIsCentre(g: Grid, cx: int, cy: int)
    requires ValidGrid(g) && InBounds(cx, cy)
    ensures RegionAround(g, cx, cy, 0) == [RegionEntry(cx, cy, TileAt(g, cx, cy))]
  {
  }

  /** A centre and radius whose window misses the grid yield no entries. */
  lemma EmptyOutsideGrid(g: Grid, cx: int, cy: int, radius: int)
    requires ValidGrid(g)
    requires radius < 0 || cx - radius >= MapSize || cx + radius < 0
    ensures RegionAround(g, cx, cy, radius) == []
  {
  }

  /** The server's inner loop: appends column x, rows ylo .. yhi, to the region built so far. */
  method ReadColumn(g: Grid, x: int, ylo: int, yhi: int, prefix: seq<RegionEntry>) returns (region: seq<RegionEntry>)
    requires ValidGrid(g) && 0 <= x < MapSize && ValidSpan(ylo, yhi)
    ensures region == prefix + Column(g, x, ylo, yhi)
  {
    region := prefix;
    var y := ylo;
    while y <= yhi
      invariant ylo <= y && (y <= yhi + 1 || y == ylo)
      invariant region == prefix + Column(g, x, ylo, y - 1)
      decreases yhi - y
    {
      region := region + [RegionEntry(x, y, TileAt(g, x, y))];
      y := y + 1;
    }
  }

  /** The server's nested loops, building the region one entry at a time. */
  method MapRegion(g: Grid, cx: int, cy: int, radius: int) returns (region: seq<RegionEntry>)
    requires ValidGrid(g)
    ensures region == RegionAround(g, cx, cy, radius)
  {
    var xlo, xhi := Lo(cx, radius), Hi(cx, radius);
    var ylo, yhi := Lo(cy, radius), Hi(cy, radius);
    region := [];
    var x := xlo;
    while x <= xhi
      invariant xlo <= x && (x <= xhi + 1 || x == xlo)
      invariant region == Rows(g, xlo, x - 1, ylo, yhi)
      decreases xhi - x
    {
      region := ReadColumn(g, x, ylo, yhi, region);
      x := x + 1;
    }
  }
}
