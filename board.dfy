// The tile board (Board.cpp, Tile.cpp, Tile.h): a row-major grid of
// optional tiles and a cache of shared tile textures. Loading a texture
// from disk is replaced by `disk`, the image files that load, with their
// pixel sizes.

module Boards {
  import opened Wrappers
  import opened Geometry
  import opened SpriteSheets

  /** WALL is solid for collisions; CORRIDOR is not. */
  datatype TileType = CORRIDOR | WALL

  /** A texture loaded once and shared by every tile that uses its file. */
  class TileTexture {
    const file: string
    const size: IntVec

    constructor (f: string, s: IntVec)
      ensures file == f && size == s
    {
      file, size := f, s;
    }
  }

  /** Where a tile's sprite goes: cell (x, y) scaled by the texture size and the scale. */
  function TileSpritePosition(x: int, y: int, texSize: IntVec, scale: real): (p: Vec2)
    ensures p.x == x as real * (texSize.x as real * scale)
    ensures p.y == y as real * (texSize.y as real * scale)
  {
    Vec2(x as real * (texSize.x as real * scale), y as real * (texSize.y as real * scale))
  }

  class Tile {
    const tileType: TileType
    var position: IntVec
    var texture: TileTexture?
    var spriteScale: Vec2
    var spritePosition: Vec2

    constructor (t: TileType)
      ensures tileType == t && texture == null
    {
      tileType := t;
      position, texture := IntVec(0, 0), null;
      spriteScale, spritePosition := Vec2(1.0, 1.0), Origin;
    }

    function GetType(): (t: TileType)
      ensures t == tileType
    {
      tileType
    }

    predicate IsSolid()
    {
      tileType == WALL
    }

    /**
     * `loadTile`: records the cell and the texture, then throws when there is
     * no texture; otherwise scales the sprite and places it.
     */
    method LoadTile(x: int, y: int, scale: real, tex: TileTexture?) returns (status: Status)
      modifies this
      ensures position == IntVec(x, y) && texture == tex
      ensures status.Failure? <==> tex == null
      ensures status.Failure? ==> status.error.RuntimeError?
      ensures tex == null ==> spriteScale == old(spriteScale) && spritePosition == old(spritePosition)
      ensures tex != null ==> spriteScale == Vec2(scale, scale)
      ensures tex != null ==> spritePosition == TileSpritePosition(x, y, tex.size, scale)
    {
      position := IntVec(x, y);
      texture := tex;
      if texture == null {
        return Failure(RuntimeError("Tile::loadTile: texture not provided"));
      }
      spriteScale := Vec2(scale, scale);
      var px := x as real * (texture.size.x as real * scale);
      var py := y as real * (texture.size.y as real * scale);
      spritePosition := Vec2(px, py);
      status := Success;
    }
  }

  /** A wall is solid and a corridor is not. */
  lemma SolidIffWall(t: Tile)
    ensures t.IsSolid() <==> t.GetType() == WALL
  {
  }

  /** The tiles of the cells in order, empty cells skipped. */
  function Occupied(cells: seq<Tile?>): (r: seq<Tile>)
    ensures |r| <= |cells|
    ensures forall i :: 0 <= i < |r| ==> r[i] in cells
    ensures forall i :: 0 <= i < |cells| && cells[i] != null ==> cells[i] in r
  {
    if cells == [] then []
    else (if cells[|cells| - 1] != null then Occupied(cells[..|cells| - 1]) + [cells[|cells| - 1]]
          else Occupied(cells[..|cells| - 1]))
  }

  /** Row-major cell index. */
  function CellIndex(x: int, y: int, width: nat): int
  {
    y * width + x
  }

  /** The cells of a width-wide grid in row-major order are its indices in increasing order. */
  lemma CellIndexInRange(x: int, y: int, width: nat, height: nat)
    requires 0 <= x < width && 0 <= y < height
    ensures 0 <= CellIndex(x, y, width) < width * height
  {
    MulMonotone(y, height - 1, width);
    assert (height - 1) * width + width == height * width;
  }

  lemma {:induction false} MulMonotone(a: nat, b: nat, w: nat)
    requires a <= b
    ensures a * w <= b * w
    decreases b - a
  {
    if a < b {
      MulMonotone(a + 1, b, w);
      assert (a + 1) * w == a * w + w;
    }
  }

  /** Distinct in-bounds cells have distinct indices, so writing one cell touches no other. */
  lemma CellIndexInjective(x1: int, y1: int, x2: int, y2: int, width: nat)
    requires 0 <= x1 < width && 0 <= x2 < width && 0 <= y1 && 0 <= y2
    requires CellIndex(x1, y1, width) == CellIndex(x2, y2, width)
    ensures x1 == x2 && y1 == y2
  {
    if y1 < y2 {
      assert (y1 + 1) * width == y1 * width + width;
      MulMonotone(y1 + 1, y2, width);
    } else if y2 < y1 {
      assert (y2 + 1) * width == y2 * width + width;
      MulMonotone(y2 + 1, y1, width);
    }
  }

  class Board {
    const width: nat
    const height: nat
    const grid: array<Tile?>
    /** The flyweight texture cache, by file name. */
    var textureMap: map<string, TileTexture>

    ghost predicate Valid()
      reads this
    {
      grid.Length == width * height &&
      forall f :: f in textureMap ==> textureMap[f].file == f
    }

    /** `Board(w, h)`: w * h empty cells and no textures. */
    constructor (w: nat, h: nat)
      ensures width == w && height == h && Valid()
      ensures fresh(grid) && forall i :: 0 <= i < grid.Length ==> grid[i] == null
      ensures textureMap == map[]
    {
      width, height := w, h;
      grid := new Tile?[w * h](_ => null);
      textureMap := map[];
    }

    predicate InBounds(x: int, y: int)
    {
      0 <= x < width && 0 <= y < height
    }

    /**
     * `addTile`: out of bounds it throws and changes nothing. Otherwise the
     * cell y * width + x is cleared, the texture is taken from the cache or
     * loaded once (a failed load throws, leaving the cell empty and the cache
     * as it was), and a new tile of the given type is placed in the cell.
     */
    method AddTile(x: int, y: int, scale: real, tileType: TileType, textureFile: string, disk: map<string, IntVec>)
      returns (status: Status)
      requires Valid()
      modifies grid, this`textureMap
      ensures Valid()
      ensures status.Failure? <==> !InBounds(x, y) || (textureFile !in old(textureMap) && textureFile !in disk)
      ensures status.Failure? ==> status.error.RuntimeError?
      ensures !InBounds(x, y) ==> grid[..] == old(grid[..]) && textureMap == old(textureMap)
      ensures InBounds(x, y) ==> CellIndex(x, y, width) < grid.Length
      ensures InBounds(x, y) ==>
        forall i :: 0 <= i < grid.Length && i != CellIndex(x, y, width) ==> grid[i] == old(grid[i])
      ensures InBounds(x, y) && status.Failure? ==> grid[CellIndex(x, y, width)] == null && textureMap == old(textureMap)
      ensures textureFile in old(textureMap) ==> textureMap == old(textureMap)
      ensures InBounds(x, y) && textureFile !in old(textureMap) && textureFile in disk ==>
        textureFile in textureMap && fresh(textureMap[textureFile]) &&
        textureMap[textureFile].size == disk[textureFile] &&
        textureMap == old(textureMap)[textureFile := textureMap[textureFile]]
      ensures status.Success? ==> var t := grid[CellIndex(x, y, width)];
        t != null && fresh(t) && t.tileType == tileType && t.position == IntVec(x, y) &&
        textureFile in textureMap && t.texture == textureMap[textureFile] &&
        t.spritePosition == TileSpritePosition(x, y, t.texture.size, scale)
    {
      if !InBounds(x, y) {
        return Failure(RuntimeError("addTile: out of bounds"));
      }
      CellIndexInRange(x, y, width, height);
      var idx := y * width + x;
      if grid[idx] != null {
        grid[idx] := null;
      }
      var tex: TileTexture;
      if textureFile in textureMap {
        tex := textureMap[textureFile];
      } else {
        if textureFile !in disk {
          return Failure(RuntimeError("Texture load failed: " + textureFile));
        }
        tex := new TileTexture(textureFile, disk[textureFile]);
        textureMap := textureMap[textureFile := tex];
      }
      var newTile := new Tile(tileType);
      var _ := newTile.LoadTile(x, y, scale, tex);
      grid[idx] := newTile;
      status := Success;
    }

    /** `draw`: the tiles drawn, which are the non-empty cells in row-major order. */
    method Draw() returns (drawn: seq<Tile>)
      requires Valid()
      ensures drawn == Occupied(grid[..])
    {
      drawn := [];
      var y := 0;
      ghost var row := 0;
      while y < height
        invariant 0 <= y <= height && row == y * width && row <= grid.Length
        invariant drawn == Occupied(grid[..row])
      {
        MulMonotone(y + 1, height, width);
        assert (y + 1) * width == row + width;
        var x := 0;
        while x < width
          invariant 0 <= x <= width && row + width <= grid.Length
          invariant drawn == Occupied(grid[..row + x])
        {
          var tile := grid[y * width + x];
          assert grid[..row + x + 1][..row + x] == grid[..row + x];
          if tile != null {
            drawn := drawn + [tile];
          }
          x := x + 1;
        }
        y, row := y + 1, row + width;
      }
      assert grid[..row] == grid[..];
    }
  }
}
