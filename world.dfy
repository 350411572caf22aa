/**
 * The tile grid of js/world.js: terrain generation, the pixel-to-cell lookup
 * and block removal.
 *
 * The grid is column-major: `columns[x][y]` is the tile in column `x`, row `y`
 * (row 0 at the top). Tiles are the one-character ids '0' sky, '1' grass,
 * '2' dirt and '3' stone. Pixel coordinates are integers.
 */
module World {
  import opened Common

  /** Rows of terrain below the surface line before the per-column bump. */
  const TerrainHeight: int := 15

  /** The drawing style of a tile id (the `BLOCKS` table). */
  datatype TileStyle = TileStyle(color: string, name: string)

  const TileStyles: map<char, TileStyle> := map[
    '1' := TileStyle("#00AA00", "Grass"),
    '2' := TileStyle("#8B4513", "Dirt"),
    '3' := TileStyle("#778899", "Stone"),
    '0' := TileStyle("#87CEEB", "Sky")
  ]

  /** What `getBlockAt` reports for an existing cell. */
  datatype BlockHit = BlockHit(id: char, properties: TileStyle, x: int, y: int)

  /** `Math.ceil(a / b)` for a positive divisor. */
  function CeilDiv(a: int, b: int): (q: int)
    requires b > 0
    ensures (q - 1) * b < a <= q * b
  {
    var f := a / b;
    assert a == f * b + a % b;
    if a % b == 0 then f else f + 1
  }

  function Max(a: int, b: int): int {
    if a < b then b else a
  }

  /** The row just below the grass line of column `x`: one lower in every fifth column. */
  function SurfaceY(x: nat, rows: int): int {
    rows - TerrainHeight + (if x % 5 == 0 then 1 else 0)
  }

  /** The tile generation places at row `y` of a column whose surface is `surfaceY`. */
  function TileAt(y: int, surfaceY: int): char {
    if y < surfaceY - 1 then '0'
    else if y == surfaceY - 1 then '1'
    else if y < surfaceY + 4 then '2'
    else '3'
  }

  /** Column `x` of a freshly generated map with `rows` rows. */
  function GeneratedColumn(x: nat, rows: int): seq<char> {
    seq(Max(rows, 0), y => TileAt(y, SurfaceY(x, rows)))
  }

  /**
   * The map after `generateWorld(seed, width, height, tileSize)` on map `g`:
   * the first `ceil(width/tileSize)` columns are regenerated, and columns of
   * `g` beyond them are kept as they were. The seed plays no part.
   */
  function Generated(g: seq<seq<char>>, width: int, height: int, tileSize: int): (r: seq<seq<char>>)
    requires tileSize > 0
  {
    var cols := Max(CeilDiv(width, tileSize), 0);
    var rows := CeilDiv(height, tileSize);
    seq(Max(|g|, cols), x requires 0 <= x < Max(|g|, cols) => if x < cols then GeneratedColumn(x, rows) else g[x])
  }

  /** Every cell holds a tile id of the `BLOCKS` table. */
  ghost predicate AllTilesKnown(g: seq<seq<char>>) {
    forall x, y :: 0 <= x < |g| && 0 <= y < |g[x]| ==> g[x][y] in TileStyles
  }

  /** `worldMap[col] && worldMap[col][row]`: the cell exists (every tile id is a non-empty, truthy string). */
  predicate HasCell(g: seq<seq<char>>, col: int, row: int) {
    0 <= col < |g| && 0 <= row < |g[col]|
  }

  /** The map after `removeBlock(col, row)`: an existing non-sky cell becomes sky. */
  function Removed(g: seq<seq<char>>, col: int, row: int): (r: seq<seq<char>>)
    ensures AllTilesKnown(g) ==> AllTilesKnown(r)
  {
    if HasCell(g, col, row) && g[col][row] != '0' then g[col := g[col][row := '0']] else g
  }

  /** `getBlockAt(worldX, worldY)` on map `g` with tile size `tileSize`. */
  function BlockAtIn(g: seq<seq<char>>, tileSize: int, worldX: int, worldY: int): (r: Option<BlockHit>)
    requires tileSize > 0
    requires AllTilesKnown(g)
    ensures r.Some? ==> HasCell(g, r.value.x, r.value.y) && r.value.id == g[r.value.x][r.value.y]
    ensures r.Some? ==> r.value.properties == TileStyles[r.value.id]
    ensures r.Some? ==> r.value.x * tileSize <= worldX < (r.value.x + 1) * tileSize
    ensures r.Some? ==> r.value.y * tileSize <= worldY < (r.value.y + 1) * tileSize
    ensures r.None? <==> !HasCell(g, worldX / tileSize, worldY / tileSize)
  {
    var col := worldX / tileSize;
    var row := worldY / tileSize;
    FloorDivBounds(worldX, tileSize);
    FloorDivBounds(worldY, tileSize);
    if HasCell(g, col, row) then
      Some(BlockHit(g[col][row], TileStyles[g[col][row]], col, row))
    else
      None
  }

  /** `a / b` is the floor of the quotient: the tile that contains pixel `a`. */
  lemma FloorDivBounds(a: int, b: int)
    requires b > 0
    ensures (a / b) * b <= a < (a / b + 1) * b
  {
  }

  /** The pixel at the top-left corner of a tile lies in that tile. */
  lemma CornerPixel(c: int, b: int)
    requires b > 0
    ensures (c * b) / b == c
  {
    var q, r := (c * b) / b, (c * b) % b;
    assert c * b == q * b + r && 0 <= r < b;
    var d := c - q;
    assert d * b == r;
    if d > 0 {
      MulAtLeast(d, b);
    } else if d < 0 {
      MulAtLeast(-d, b);
    }
  }

  lemma MulAtLeast(d: int, b: int)
    requires d >= 1 && b > 0
    ensures d * b >= b
  {
  }

  /** One band of `n` equal tiles. */
  function Band(t: char, n: nat): seq<char> {
    seq(n, _ => t)
  }

  /** `v` clamped into `0..n`. */
  function Clamp(v: int, n: nat): nat {
    if v < 0 then 0 else if v > n then n else v
  }

  /**
   * A generated column reads, top to bottom: sky above the grass line, one
   * grass tile, four dirt tiles, then stone to the bottom (each band cut
   * where it leaves the map).
   */
  lemma ColumnLayout(x: nat, rows: int)
    ensures var n := Max(rows, 0);
            var s := SurfaceY(x, rows);
            var sky, grass, dirt := Clamp(s - 1, n), Clamp(s, n), Clamp(s + 4, n);
            GeneratedColumn(x, rows) ==
              Band('0', sky) + Band('1', grass - sky) + Band('2', dirt - grass) + Band('3', n - dirt)
  {
  }

  /** Tile ids never decrease down a generated column: sky, then grass, then dirt, then stone. */
  lemma ColumnOrdered(x: nat, rows: int, i: int, j: int)
    requires 0 <= i <= j < |GeneratedColumn(x, rows)|
    ensures GeneratedColumn(x, rows)[i] <= GeneratedColumn(x, rows)[j]
  {
  }

  /**
   * Shape of a generated map: `max(|g|, cols)` columns; every regenerated
   * column has `rows` cells and is the generated column; every other
   * column is left untouched.
   */
  lemma GeneratedShape(g: seq<seq<char>>, width: int, height: int, tileSize: int)
    requires tileSize > 0
    ensures var cols, rows := CeilDiv(width, tileSize), CeilDiv(height, tileSize);
            var r := Generated(g, width, height, tileSize);
            |r| == Max(|g|, cols) &&
            (forall x :: 0 <= x < cols && x < |r| ==> |r[x]| == Max(rows, 0) && r[x] == GeneratedColumn(x, rows)) &&
            (forall x :: cols <= x < |g| && 0 <= x ==> r[x] == g[x])
  {
  }

  /** Generation only writes known tile ids, and keeps untouched columns' ids. */
  lemma GeneratedTilesKnown(g: seq<seq<char>>, width: int, height: int, tileSize: int)
    requires tileSize > 0
    requires AllTilesKnown(g)
    ensures AllTilesKnown(Generated(g, width, height, tileSize))
  {
  }

  /** Generating twice with the same sizes gives the same map as generating once. */
  lemma GenerateIdempotent(g: seq<seq<char>>, width: int, height: int, tileSize: int)
    requires tileSize > 0
    ensures Generated(Generated(g, width, height, tileSize), width, height, tileSize) ==
            Generated(g, width, height, tileSize)
  {
  }

  /** The regenerated columns do not depend on what the map held before. */
  lemma GeneratedIgnoresPreviousMap(g1: seq<seq<char>>, g2: seq<seq<char>>, width: int, height: int, tileSize: int, x: int)
    requires tileSize > 0
    requires 0 <= x < CeilDiv(width, tileSize)
    ensures Generated(g1, width, height, tileSize)[x] == Generated(g2, width, height, tileSize)[x]
  {
  }

  /** After `removeBlock` the cell is sky, every other cell and every column length is unchanged. */
  lemma RemovedCells(g: seq<seq<char>>, col: int, row: int)
    ensures var r := Removed(g, col, row);
            |r| == |g| &&
            (forall x :: 0 <= x < |g| ==> |r[x]| == |g[x]|) &&
            (HasCell(g, col, row) ==> r[col][row] == '0') &&
            (forall x, y :: HasCell(g, x, y) && (x != col || y != row) ==> r[x][y] == g[x][y])
  {
  }

  /** Removing the same cell twice is the same as removing it once. */
  lemma RemoveIdempotent(g: seq<seq<char>>, col: int, row: int)
    ensures Removed(Removed(g, col, row), col, row) == Removed(g, col, row)
  {
  }

  /**
   * Looking up any pixel inside a cell found by `getBlockAt`, after
   * `removeBlock` on that cell's coordinates, reports sky at the same cell.
   */
  lemma LookupAfterRemove(g: seq<seq<char>>, tileSize: int, worldX: int, worldY: int)
    requires tileSize > 0
    requires AllTilesKnown(g)
    requires BlockAtIn(g, tileSize, worldX, worldY).Some?
    ensures var hit := BlockAtIn(g, tileSize, worldX, worldY).value;
            BlockAtIn(Removed(g, hit.x, hit.y), tileSize, worldX, worldY) ==
              Some(BlockHit('0', TileStyles['0'], hit.x, hit.y))
  {
  }

  /** The top-left pixel of an existing cell is found at that cell; of a missing cell, nothing. */
  lemma LookupCellCorner(g: seq<seq<char>>, tileSize: int, col: int, row: int)
    requires tileSize > 0
    requires AllTilesKnown(g)
    ensures HasCell(g, col, row) ==>
      BlockAtIn(g, tileSize, col * tileSize, row * tileSize) == Some(BlockHit(g[col][row], TileStyles[g[col][row]], col, row))
    ensures !HasCell(g, col, row) ==> BlockAtIn(g, tileSize, col * tileSize, row * tileSize).None?
  {
    CornerPixel(col, tileSize);
    CornerPixel(row, tileSize);
  }

  /** A negative pixel coordinate never finds a cell. */
  lemma NegativePixelMisses(g: seq<seq<char>>, tileSize: int, worldX: int, worldY: int)
    requires tileSize > 0
    requires AllTilesKnown(g)
    requires worldX < 0 || worldY < 0
    ensures BlockAtIn(g, tileSize, worldX, worldY).None?
  {
  }

  /** The module state of js/world.js: `worldMap` and `TILE_SIZE`. */
  class WorldMap {
    var columns: seq<seq<char>>
    var tileSize: int

    ghost predicate Valid()
      reads this
    {
      tileSize > 0 && AllTilesKnown(columns)
    }

    /** The module's initial state: an empty map and a tile size of 32. */
    constructor ()
      ensures Valid()
      ensures columns == [] && tileSize == 32
    {
      columns := [];
      tileSize := 32;
    }

    /** `generateWorld(seed, width, height, tileSize)`. */
    method GenerateWorld(seed: int, width: int, height: int, newTileSize: int)
      requires Valid()
      requires newTileSize > 0
      modifies this
      ensures Valid()
      ensures tileSize == newTileSize
      ensures columns == Generated(old(columns), width, height, newTileSize)
    {
      tileSize := newTileSize;
      var cols := CeilDiv(width, tileSize);
      var rows := CeilDiv(height, tileSize);
      ghost var before := columns;
      var x := 0;
      while x < cols
        invariant 0 <= x <= Max(cols, 0)
        invariant tileSize == newTileSize
        invariant |columns| == Max(|before|, x)
        invariant forall i :: 0 <= i < x ==> columns[i] == GeneratedColumn(i, rows)
        invariant forall i :: x <= i < |columns| ==> columns[i] == before[i]
      {
        var surfaceY := rows - TerrainHeight + (if x % 5 == 0 then 1 else 0);
        var column: seq<char> := [];
        var y := 0;
        while y < rows
          invariant 0 <= y <= Max(rows, 0)
          invariant |column| == y
          invariant forall j :: 0 <= j < y ==> column[j] == TileAt(j, surfaceY)
        {
          var tile;
          if y < surfaceY - 1 {
            tile := '0';
          } else if y == surfaceY - 1 {
            tile := '1';
          } else if y < surfaceY + 4 {
            tile := '2';
          } else {
            tile := '3';
          }
          column := column + [tile];
          y := y + 1;
        }
        assert column == GeneratedColumn(x, rows);
        if x < |columns| {
          columns := columns[x := column];
        } else {
          columns := columns + [column];
        }
        x := x + 1;
      }
      assert columns == Generated(before, width, height, newTileSize);
      GeneratedTilesKnown(before, width, height, newTileSize);
    }

    /** `getBlockAt(worldX, worldY)`. */
    function GetBlockAt(worldX: int, worldY: int): (r: Option<BlockHit>)
      reads this
      requires Valid()
      ensures r.Some? ==> HasCell(columns, r.value.x, r.value.y) && r.value.id == columns[r.value.x][r.value.y]
      ensures r.Some? ==> r.value.properties == TileStyles[r.value.id]
      ensures r.Some? ==> r.value.x * tileSize <= worldX < (r.value.x + 1) * tileSize
      ensures r.Some? ==> r.value.y * tileSize <= worldY < (r.value.y + 1) * tileSize
      ensures r.None? <==> !HasCell(columns, worldX / tileSize, worldY / tileSize)
      ensures worldX < 0 || worldY < 0 ==> r.None?
    {
      BlockAtIn(columns, tileSize, worldX, worldY)
    }

    /** `removeBlock(col, row)`. */
    method RemoveBlock(col: int, row: int)
      requires Valid()
      modifies this
      ensures Valid()
      ensures tileSize == old(tileSize)
      ensures columns == Removed(old(columns), col, row)
    {
      if 0 <= col < |columns| && 0 <= row < |columns[col]| && columns[col][row] != '0' {
        columns := columns[col := columns[col][row := '0']];
      }
    }
  }
}
