/**
 * The shared tile world: a fixed 150 x 150 grid of tiles, indexed
 * `grid[x][y]` as the server's map array is.
 */
module World {
  import opened Wrappers

  /** Side length of the square world grid. */
  const MapSize: int := 150

  datatype Terrain = Water | Grass | Forest | Mountain | Beach

  /**
   * One tile. `islandId` is written by terrain generation, `settlement`
   * by settlement placement (the only annotation added after generation).
   */
  datatype Tile = Tile(terrain: Terrain, islandId: Option<int>, settlement: Option<string>)

  type Grid = seq<seq<Tile>>

  predicate ValidGrid(g: Grid) {
    |g| == MapSize && forall x :: 0 <= x < |g| ==> |g[x]| == MapSize
  }

  predicate InBounds(x: int, y: int) {
    0 <= x < MapSize && 0 <= y < MapSize
  }

  function TileAt(g: Grid, x: int, y: int): Tile
    requires ValidGrid(g) && InBounds(x, y)
  {
    g[x][y]
  }

  /** A tile a player may stand on or a settlement may be built on. */
  predicate Walkable(t: Tile) {
    t.terrain != Water
  }

  /** `Math.max` and `Math.min` on integers. */
  function Max(a: int, b: int): int { if a < b then b else a }
  function Min(a: int, b: int): int { if a < b then a else b }

  /** Replaces one tile; every other tile is left as it was. */
  function SetTile(g: Grid, x: int, y: int, t: Tile): (g': Grid)
    requires ValidGrid(g) && InBounds(x, y)
    ensures ValidGrid(g')
    ensures TileAt(g', x, y) == t
    ensures forall i, j :: InBounds(i, j) && (i != x || j != y) ==> TileAt(g', i, j) == TileAt(g, i, j)
  {
    g[x := g[x][y := t]]
  }
}
