/**
 * The level as a row-major grid of tiles that is fixed once built, and the
 * bounds-checked tile lookup the collision code uses.
 *
 * The map keeps a pointer into program memory, not a copy of the cells, so
 * a read at an index past the cells reads whatever bytes the program memory
 * holds after them. The model carries those bytes as `pastData`. The lookup
 * keeps the bounds check exactly as the game has it: a column equal to the
 * width or a row equal to the height is accepted. Such a read lands on the
 * first cell of the next row, or in `pastData`.
 */
module TileMaps {
  import opened CppInt
  import opened TileTypes

  /**
   * A map: its size in tiles, its cells row after row, and the tiles the
   * program memory holds after the last cell (`pastData(k)` is the one `k`
   * cells past the end).
   */
  datatype Map = Map(width: uint8, height: uint8, data: seq<TileType>, pastData: nat -> TileType) {

    /** The data holds exactly one cell per coordinate. */
    predicate Valid() {
      |data| == width * height
    }

    /** The width in tiles: in a well-formed map, a row of the data. */
    function GetWidth(): (w: uint8)
      ensures Valid() ==> |data| == w * height
    {
      width
    }

    /** The height in tiles: in a well-formed map, the number of rows of the data. */
    function GetHeight(): (h: uint8)
      ensures Valid() ==> |data| == width * h
    {
      height
    }

    /**
     * The position of cell (x, y) in the row-major data: inside the data
     * for an in-bounds cell.
     */
    function GetIndex(x: uint8, y: uint8): (index: nat)
      ensures x < width && y < height ==> index < width * height
    {
      RowMajorBoundIf(x, y, width, height);
      y * width + x
    }

    /** The tile read at an index from the start of the data. */
    function ReadCell(index: nat): (t: TileType)
      ensures index < |data| ==> t == data[index]
      ensures index >= |data| ==> t == pastData(index - |data|)
    {
      if index < |data| then data[index] else pastData(index - |data|)
    }

    /** The lookup taking unsigned coordinates. */
    function GetTileUnsigned(x: uint8, y: uint8): (t: TileType)
      ensures x > width || y > height ==> t == Void
    {
      if x > width || y > height then Void
      else ReadCell(GetIndex(x, y))
    }

    /** The lookup taking signed coordinates, the one the game calls. */
    function GetTile(x: int16, y: int16): (t: TileType)
      ensures x < 0 || y < 0 ==> t == Void
      ensures x > width || y > height ==> t == Void
    {
      if x < 0 || y < 0 || x > width || y > height then Void
      else ReadCell(GetIndex(x, y))
    }
  }

  /** `RowMajorBound` for the coordinates that meet its bounds. */
  lemma RowMajorBoundIf(x: nat, y: nat, w: nat, h: nat)
    ensures x < w && y < h ==> y * w + x < w * h
  {
    if x < w && y < h {
      RowMajorBound(x, y, w, h);
    }
  }

  /** Row-major layout: (y, x) with x < w and y < h comes before w * h. */
  lemma RowMajorBound(x: int, y: int, w: int, h: int)
    requires 0 <= x < w && 0 <= y < h
    ensures y * w + x < w * h
  {
    MulMonotone(y + 1, h, w);
    assert (y + 1) * w == y * w + w;
  }

  /**
   * The map built by the default constructor: no size and a null data
   * pointer, so every read lands in the memory from address zero on.
   */
  function EmptyMap(memory: nat -> TileType): (m: Map)
    ensures m.Valid() && m.GetWidth() == 0 && m.GetHeight() == 0
    ensures m.pastData == memory
  {
    Map(0, 0, [], memory)
  }

  /** The default map accepts (0, 0) and so reads the byte at address zero. */
  lemma EmptyMapReadsAddressZero(memory: nat -> TileType)
    ensures EmptyMap(memory).GetTile(0, 0) == memory(0)
    ensures forall x: int16, y: int16 :: (x, y) != (0, 0) ==> EmptyMap(memory).GetTile(x, y) == Void
  {
  }

  // ----- Lookup properties -----

  /** Inside the map both lookups return the authored cell. */
  lemma InBoundsRead(m: Map, x: int16, y: int16)
    requires m.Valid()
    requires 0 <= x < m.width && 0 <= y < m.height
    ensures y * m.width + x < m.width * m.height
    ensures m.GetTile(x, y) == m.data[y * m.width + x]
    ensures m.GetTileUnsigned(x, y) == m.GetTile(x, y)
  {
    RowMajorBound(x, y, m.width, m.height);
  }

  /** Distinct cells inside the map have distinct indices. */
  lemma {:induction false} IndexInjective(m: Map, x1: uint8, y1: uint8, x2: uint8, y2: uint8)
    requires x1 < m.width && y1 < m.height && x2 < m.width && y2 < m.height
    requires m.GetIndex(x1, y1) == m.GetIndex(x2, y2)
    ensures x1 == x2 && y1 == y2
  {
    RowMajorInjective(x1, y1, x2, y2, m.width);
  }

  lemma {:induction false} RowMajorInjective(x1: int, y1: int, x2: int, y2: int, w: int)
    requires 0 <= x1 < w && 0 <= x2 < w && 0 <= y1 && 0 <= y2
    requires y1 * w + x1 == y2 * w + x2
    ensures x1 == x2 && y1 == y2
    decreases y1
  {
    if y1 > 0 && y2 > 0 {
      assert (y1 - 1) * w + x1 == (y2 - 1) * w + x2;
      RowMajorInjective(x1, y1 - 1, x2, y2 - 1, w);
    } else {
      // A row other than the first starts at least one full row in.
      MulMonotone(1, y1, w);
      MulMonotone(1, y2, w);
    }
  }

  /** The two lookups agree wherever both accept the coordinates. */
  lemma UnsignedAgreesWithSigned(m: Map, x: uint8, y: uint8)
    ensures m.GetTileUnsigned(x, y) == m.GetTile(x, y)
  {
  }

  /**
   * The bounds check accepts column `width`, and that read is the first
   * cell of the next row.
   */
  lemma WidthColumnIsNextRow(m: Map, y: int16)
    requires m.Valid()
    requires 0 <= y && y + 1 < m.height
    ensures m.GetIndex(m.width, y) == m.GetIndex(0, y + 1)
    ensures m.GetTile(m.width, y) == m.GetTile(0, y + 1)
    ensures 0 < m.width ==> (y + 1) * m.width < |m.data| && m.GetTile(m.width, y) == m.data[(y + 1) * m.width]
  {
    if 0 < m.width {
      RowMajorBound(0, y + 1, m.width, m.height);
    }
  }

  /**
   * Column `width` of the last row, and any accepted column of row
   * `height`, index past the end of the data and read the memory after it.
   */
  lemma EdgeReadsPastData(m: Map, x: int16, y: int16)
    requires m.Valid()
    requires (x == m.width && 0 <= y && y + 1 == m.height) || (0 <= x <= m.width && y == m.height)
    ensures m.GetIndex(x, y) >= m.width * m.height
    ensures m.GetTile(x, y) == m.pastData(m.GetIndex(x, y) - m.width * m.height)
  {
    if y == m.height {
      assert m.GetIndex(x, y) == m.height * m.width + x;
    } else {
      assert m.GetIndex(x, y) == (m.height - 1) * m.width + m.width;
    }
  }

  /**
   * A lookup comes back non-solid only for coordinates the bounds check
   * accepts, from a `None` read at their index.
   */
  lemma NonSolidIsNoneCell(m: Map, x: int16, y: int16)
    requires !IsSolid(m.GetTile(x, y))
    ensures 0 <= x <= m.width && 0 <= y <= m.height
    ensures m.ReadCell(m.GetIndex(x, y)) == None
  {
  }

  // ----- Building a map from an authored grid -----

  /** A rectangular grid of rows, as a C++ `TileType[height][width]` array. */
  predicate IsGrid(grid: seq<seq<TileType>>) {
    && 0 < |grid| < 0x100
    && 0 < |grid[0]| < 0x100
    && forall row :: 0 <= row < |grid| ==> |grid[row]| == |grid[0]|
  }

  /** The rows laid end to end, as the array sits in memory. */
  function Flatten(grid: seq<seq<TileType>>): seq<TileType> {
    if grid == [] then [] else grid[0] + Flatten(grid[1..])
  }

  lemma {:induction false} FlattenCell(grid: seq<seq<TileType>>, w: nat, x: nat, y: nat)
    requires forall row :: 0 <= row < |grid| ==> |grid[row]| == w
    requires x < w && y < |grid|
    ensures |Flatten(grid)| == |grid| * w
    ensures y * w + x < |Flatten(grid)|
    ensures Flatten(grid)[y * w + x] == grid[y][x]
  {
    FlattenLength(grid, w);
    RowMajorBound(x, y, w, |grid|);
    if y > 0 {
      FlattenCell(grid[1..], w, x, y - 1);
      assert y * w + x == w + ((y - 1) * w + x);
    }
  }

  lemma {:induction false} FlattenLength(grid: seq<seq<TileType>>, w: nat)
    requires forall row :: 0 <= row < |grid| ==> |grid[row]| == w
    ensures |Flatten(grid)| == |grid| * w
  {
    if grid != [] {
      FlattenLength(grid[1..], w);
    }
  }

  /**
   * The map over an authored array followed by `memory` in program memory:
   * its size is the array's, and each in-bounds lookup returns the authored
   * cell.
   */
  function FromGrid(grid: seq<seq<TileType>>, memory: nat -> TileType): (m: Map)
    requires IsGrid(grid)
    ensures m.Valid() && m.pastData == memory
    ensures m.GetWidth() == |grid[0]| && m.GetHeight() == |grid|
    ensures forall y: int16, x: int16 :: 0 <= y < |grid| && 0 <= x < |grid[0]| ==>
      m.GetTile(x, y) == grid[y][x]
  {
    FromGridCells(grid, memory);
    Map(|grid[0]|, |grid|, Flatten(grid), memory)
  }

  lemma FromGridCells(grid: seq<seq<TileType>>, memory: nat -> TileType)
    requires IsGrid(grid)
    ensures Map(|grid[0]|, |grid|, Flatten(grid), memory).Valid()
    ensures forall y: int16, x: int16 :: 0 <= y < |grid| && 0 <= x < |grid[0]| ==>
      Map(|grid[0]|, |grid|, Flatten(grid), memory).GetTile(x, y) == grid[y][x]
  {
    var m := Map(|grid[0]|, |grid|, Flatten(grid), memory);
    FlattenLength(grid, |grid[0]|);
    forall y: int16, x: int16 | 0 <= y < |grid| && 0 <= x < |grid[0]|
      ensures m.GetTile(x, y) == grid[y][x]
    {
      FlattenCell(grid, |grid[0]|, x, y);
      InBoundsRead(m, x, y);
    }
  }
}
