/**
 * Settlement placement, the second half of world initialisation: twelve
 * named settlements, the i-th offset from the centre of island
 * `i mod |islands|`, clamped to the grid and skipped when it lands on water.
 * Island centres and sizes and the random offsets are inputs.
 */
module Settlements {
  import opened Wrappers
  import opened World

  const SettlementCount: int := 12

  const SettlementNames: seq<string> := [
    "Port Royal", "Tortuga", "Nassau", "Shipwreck Bay",
    "Skull Island", "Treasure Cove", "Blackbeard's Harbor", "Rum Bay",
    "Cannonball Reef", "Cutlass Point", "Parrot's Perch", "Jolly Roger Port"
  ]

  datatype Island = Island(centerX: int, centerY: int, size: int)

  /** The already-floored random offset drawn for one settlement. */
  datatype Offset = Offset(dx: int, dy: int)

  datatype Settlement = Settlement(id: int, name: string, x: int, y: int, islandId: Option<int>)

  /** `Math.max(0, Math.min(MapSize - 1, v))`. */
  function Clamp(v: int): (r: int)
    ensures 0 <= r < MapSize
    ensures 0 <= v < MapSize ==> r == v
    ensures v < 0 ==> r == 0
    ensures v >= MapSize ==> r == MapSize - 1
  {
    Max(0, Min(MapSize - 1, v))
  }

  predicate PlacementInputs(grid: Grid, islands: seq<Island>, offsets: seq<Offset>) {
    ValidGrid(grid) && |islands| > 0 && |offsets| == SettlementCount
  }

  function SiteX(islands: seq<Island>, offsets: seq<Offset>, i: int): int
    requires |islands| > 0 && 0 <= i < |offsets|
  {
    Clamp(islands[i % |islands|].centerX + offsets[i].dx)
  }

  function SiteY(islands: seq<Island>, offsets: seq<Offset>, i: int): int
    requires |islands| > 0 && 0 <= i < |offsets|
  {
    Clamp(islands[i % |islands|].centerY + offsets[i].dy)
  }

  /** Whether the i-th candidate site is on land in the generated terrain. */
  predicate SiteOnLand(grid: Grid, islands: seq<Island>, offsets: seq<Offset>, i: int)
    requires PlacementInputs(grid, islands, offsets) && 0 <= i < SettlementCount
  {
    Walkable(TileAt(grid, SiteX(islands, offsets, i), SiteY(islands, offsets, i)))
  }

  /** The settlement record the i-th iteration creates when its site is on land. */
  function Candidate(grid: Grid, islands: seq<Island>, offsets: seq<Offset>, i: int): Settlement
    requires PlacementInputs(grid, islands, offsets) && 0 <= i < SettlementCount
  {
    var x := SiteX(islands, offsets, i);
    var y := SiteY(islands, offsets, i);
    Settlement(i, SettlementNames[i], x, y, TileAt(grid, x, y).islandId)
  }

  predicate HasId(ss: seq<Settlement>, i: int) {
    exists k :: 0 <= k < |ss| && ss[k].id == i
  }

  predicate HostsSettlement(ss: seq<Settlement>, x: int, y: int) {
    exists k :: 0 <= k < |ss| && ss[k].x == x && ss[k].y == y
  }

  /** No later settlement in the list shares the tile of settlement k. */
  predicate LastOnTile(ss: seq<Settlement>, k: int)
    requires 0 <= k < |ss|
  {
    forall j :: k < j < |ss| ==> ss[j].x != ss[k].x || ss[j].y != ss[k].y
  }

  predicate IdsIncreasing(ss: seq<Settlement>) {
    forall i, j :: 0 <= i < j < |ss| ==> ss[i].id < ss[j].id
  }

  /** Same terrain and island as before: only the settlement annotation may differ. */
  predicate SameGround(a: Tile, b: Tile) {
    a.terrain == b.terrain && a.islandId == b.islandId
  }

  /** Every settlement lies on a land tile of the grid. */
  predicate SettlementsOnLand(grid: Grid, ss: seq<Settlement>)
    requires ValidGrid(grid)
  {
    forall k :: 0 <= k < |ss| ==> InBounds(ss[k].x, ss[k].y) && Walkable(TileAt(grid, ss[k].x, ss[k].y))
  }

  /** Terrain and islands everywhere are those of the generated grid. */
  ghost predicate GroundKept(world: Grid, grid: Grid)
    requires ValidGrid(world) && ValidGrid(grid)
  {
    forall x, y :: InBounds(x, y) ==> SameGround(TileAt(world, x, y), TileAt(grid, x, y))
  }

  /** Tiles hosting no settlement are exactly as generated. */
  ghost predicate UntouchedKept(world: Grid, grid: Grid, ss: seq<Settlement>)
    requires ValidGrid(world) && ValidGrid(grid)
  {
    forall x, y :: InBounds(x, y) && !HostsSettlement(ss, x, y) ==> TileAt(world, x, y) == TileAt(grid, x, y)
  }

  /** Each settlement's tile carries its name unless a later settlement took the tile. */
  predicate Annotated(world: Grid, ss: seq<Settlement>)
    requires ValidGrid(world)
  {
    forall k :: 0 <= k < |ss| && LastOnTile(ss, k) ==>
      InBounds(ss[k].x, ss[k].y) && TileAt(world, ss[k].x, ss[k].y).settlement == Some(ss[k].name)
  }

  /** The settlements are the land candidates among iterations 0 .. n-1, in order. */
  predicate ChosenUpTo(grid: Grid, islands: seq<Island>, offsets: seq<Offset>, ss: seq<Settlement>, n: int)
    requires PlacementInputs(grid, islands, offsets) && 0 <= n <= SettlementCount
  {
    && |ss| <= n
    && IdsIncreasing(ss)
    && (forall k :: 0 <= k < |ss| ==> 0 <= ss[k].id < n && ss[k] == Candidate(grid, islands, offsets, ss[k].id))
    && (forall j :: 0 <= j < n ==> (HasId(ss, j) <==> SiteOnLand(grid, islands, offsets, j)))
  }

  /** The state of placement after n iterations of the loop. */
  ghost predicate PlacedUpTo(grid: Grid, islands: seq<Island>, offsets: seq<Offset>, world: Grid, ss: seq<Settlement>, n: int)
    requires PlacementInputs(grid, islands, offsets) && 0 <= n <= SettlementCount
  {
    && ValidGrid(world)
    && ChosenUpTo(grid, islands, offsets, ss, n)
    && GroundKept(world, grid)
    && UntouchedKept(world, grid, ss)
    && Annotated(world, ss)
  }

  /** One iteration of the placement loop. */
  function PlaceOne(grid: Grid, islands: seq<Island>, offsets: seq<Offset>, world: Grid, ss: seq<Settlement>, i: int)
    : (Grid, seq<Settlement>)
    requires PlacementInputs(grid, islands, offsets) && ValidGrid(world) && 0 <= i < SettlementCount
  {
    var x := SiteX(islands, offsets, i);
    var y := SiteY(islands, offsets, i);
    var t := TileAt(world, x, y);
    if Walkable(t) then
      (SetTile(world, x, y, t.(settlement := Some(SettlementNames[i]))),
       ss + [Settlement(i, SettlementNames[i], x, y, t.islandId)])
    else
      (world, ss)
  }

  lemma ChosenStep(grid: Grid, islands: seq<Island>, offsets: seq<Offset>, world: Grid, ss: seq<Settlement>, i: int)
    requires PlacementInputs(grid, islands, offsets) && ValidGrid(world) && 0 <= i < SettlementCount
    requires ChosenUpTo(grid, islands, offsets, ss, i)
    requires SameGround(TileAt(world, SiteX(islands, offsets, i), SiteY(islands, offsets, i)),
                        TileAt(grid, SiteX(islands, offsets, i), SiteY(islands, offsets, i)))
    ensures ChosenUpTo(grid, islands, offsets, PlaceOne(grid, islands, offsets, world, ss, i).1, i + 1)
  {
    var ss' := PlaceOne(grid, islands, offsets, world, ss, i).1;
    if SiteOnLand(grid, islands, offsets, i) {
      assert ss' == ss + [Candidate(grid, islands, offsets, i)];
      assert HasId(ss', i) by { assert ss'[|ss|].id == i; }
      forall j | 0 <= j < i
        ensures HasId(ss', j) <==> HasId(ss, j)
      {
        if HasId(ss', j) {
          var k :| 0 <= k < |ss'| && ss'[k].id == j;
          assert k < |ss|;
        }
        if HasId(ss, j) {
          var k :| 0 <= k < |ss| && ss[k].id == j;
          assert ss'[k].id == j;
        }
      }
    } else {
      assert ss' == ss;
      assert !HasId(ss, i);
    }
  }

  lemma TilesStep(grid: Grid, islands: seq<Island>, offsets: seq<Offset>, world: Grid, ss: seq<Settlement>, i: int)
    requires PlacementInputs(grid, islands, offsets) && ValidGrid(world) && 0 <= i < SettlementCount
    requires GroundKept(world, grid) && UntouchedKept(world, grid, ss) && Annotated(world, ss)
    ensures ValidGrid(PlaceOne(grid, islands, offsets, world, ss, i).0)
    ensures GroundKept(PlaceOne(grid, islands, offsets, world, ss, i).0, grid)
    ensures UntouchedKept(PlaceOne(grid, islands, offsets, world, ss, i).0, grid, PlaceOne(grid, islands, offsets, world, ss, i).1)
    ensures Annotated(PlaceOne(grid, islands, offsets, world, ss, i).0, PlaceOne(grid, islands, offsets, world, ss, i).1)
  {
    var x := SiteX(islands, offsets, i);
    var y := SiteY(islands, offsets, i);
    var t := TileAt(world, x, y);
    if Walkable(t) {
      var s := Settlement(i, SettlementNames[i], x, y, t.islandId);
      var world' := SetTile(world, x, y, t.(settlement := Some(SettlementNames[i])));
      var ss' := ss + [s];
      assert PlaceOne(grid, islands, offsets, world, ss, i) == (world', ss');
      forall x', y' | InBounds(x', y') && !HostsSettlement(ss', x', y')
        ensures TileAt(world', x', y') == TileAt(grid, x', y')
      {
        assert x' != x || y' != y by { assert ss'[|ss|] == s; }
        assert forall k :: 0 <= k < |ss| ==> ss'[k] == ss[k];
        assert !HostsSettlement(ss, x', y');
        assert TileAt(world', x', y') == TileAt(world, x', y');
      }
      forall k | 0 <= k < |ss'| && LastOnTile(ss', k)
        ensures InBounds(ss'[k].x, ss'[k].y) && TileAt(world', ss'[k].x, ss'[k].y).settlement == Some(ss'[k].name)
      {
        if k < |ss| {
          assert ss'[k] == ss[k];
          assert ss[k].x != x || ss[k].y != y by { assert ss'[|ss|] == s; }
          assert LastOnTile(ss, k) by {
            forall j | k < j < |ss|
              ensures ss[j].x != ss[k].x || ss[j].y != ss[k].y
            {
              assert ss'[j] == ss[j];
            }
          }
          assert TileAt(world', ss[k].x, ss[k].y) == TileAt(world, ss[k].x, ss[k].y);
        } else {
          assert ss'[k] == s;
        }
      }
    }
  }

  method PlaceSettlements(grid: Grid, islands: seq<Island>, offsets: seq<Offset>)
    returns (world: Grid, settlements: seq<Settlement>)
    requires PlacementInputs(grid, islands, offsets)
    ensures ValidGrid(world)
    ensures |settlements| <= SettlementCount
    ensures IdsIncreasing(settlements)
    ensures forall k :: 0 <= k < |settlements| ==>
      0 <= settlements[k].id < SettlementCount
      && settlements[k] == Candidate(grid, islands, offsets, settlements[k].id)
    ensures forall i :: 0 <= i < SettlementCount ==>
      (HasId(settlements, i) <==> SiteOnLand(grid, islands, offsets, i))
    ensures SettlementsOnLand(world, settlements)
    ensures forall k :: 0 <= k < |settlements| && LastOnTile(settlements, k) ==>
      TileAt(world, settlements[k].x, settlements[k].y).settlement == Some(settlements[k].name)
    ensures GroundKept(world, grid)
    ensures UntouchedKept(world, grid, settlements)
  {
    world := grid;
    settlements := [];
    var i := 0;
    while i < SettlementCount
      invariant 0 <= i <= SettlementCount
      invariant PlacedUpTo(grid, islands, offsets, world, settlements, i)
    {
      var island := islands[i % |islands|];
      var x := Clamp(island.centerX + offsets[i].dx);
      var y := Clamp(island.centerY + offsets[i].dy);
      ChosenStep(grid, islands, offsets, world, settlements, i);
      TilesStep(grid, islands, offsets, world, settlements, i);
      if TileAt(world, x, y).terrain != Water {
        settlements := settlements + [Settlement(i, SettlementNames[i], x, y, TileAt(world, x, y).islandId)];
        world := SetTile(world, x, y, TileAt(world, x, y).(settlement := Some(SettlementNames[i])));
      }
      i := i + 1;
    }
    forall k | 0 <= k < |settlements|
      ensures InBounds(settlements[k].x, settlements[k].y) && Walkable(TileAt(world, settlements[k].x, settlements[k].y))
    {
      assert SiteOnLand(grid, islands, offsets, settlements[k].id) by {
        assert HasId(settlements, settlements[k].id);
      }
    }
  }
}
