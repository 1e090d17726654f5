/**
 * The one level the game ships: a 28 by 4 grid, stored row by row.
 */
module WorldData {
  import opened CppInt
  import opened TileTypes
  import opened TileMaps

  const Map0Width: nat := 28
  const Map0Height: nat := 4

  /** The authored rows, top row first. */
  const Map0Data: seq<seq<TileType>> :=
    [
      [None, None, None, None, None, None, None,
       None, None, None, None, None, None, None,
       None, None, None, None, None, None, None,
       None, None, None, None, None, None, None],
      [None, None, None, None, None, Grass, None,
       None, None, None, None, None, None, None,
       None, None, None, None, None, None, None,
       None, None, None, None, None, None, None],
      [None, None, None, None, Grass, Dirt, None,
       None, Grass, None, None, None, None, None,
       None, None, None, None, None, None, None,
       None, None, None, None, None, None, None],
      [Grass, Grass, Grass, Grass, Dirt, Dirt, Grass,
       Grass, Dirt, Grass, Grass, Grass, Grass, Grass,
       Grass, Grass, Grass, Grass, Grass, Grass, Grass,
       Grass, Grass, Grass, Grass, Grass, Grass, Grass]
    ]

  /**
   * The level as the game loads it; `memory` is what the program memory
   * holds after the array.
   */
  function Map0(memory: nat -> TileType): (m: Map)
    ensures m.Valid() && m.GetWidth() == Map0Width && m.GetHeight() == Map0Height
    ensures m.pastData == memory
  {
    FromGrid(Map0Data, memory)
  }

  /**
   * The level's last row accepts column 28, one past its right edge, and
   * that read is the first byte after the array.
   */
  lemma Map0ReadsPastItsLastCell(memory: nat -> TileType)
    ensures Map0(memory).GetTile(28, 3) == memory(0)
  {
    EdgeReadsPastData(Map0(memory), 28, 3);
  }

  /**
   * The level also accepts row 4, one below its last row. Its cells index
   * from 112 to 140 and read the memory after the array from its start.
   */
  lemma Map0AcceptsRowBelow(memory: nat -> TileType)
    ensures Map0(memory).GetIndex(0, 4) == 112 && Map0(memory).GetIndex(28, 4) == 140
    ensures Map0(memory).GetTile(0, 4) == memory(0)
    ensures Map0(memory).GetTile(28, 4) == memory(28)
  {
    EdgeReadsPastData(Map0(memory), 0, 4);
    EdgeReadsPastData(Map0(memory), 28, 4);
  }

  /** The ground row is solid all the way across. */
  lemma Map0GroundIsSolid(memory: nat -> TileType, x: int16)
    requires 0 <= x < Map0Width
    ensures IsSolid(Map0(memory).GetTile(x, 3))
  {
  }
}
