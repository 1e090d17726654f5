/**
 * The four kinds of tile, which of them block movement, and the conversion
 * between a tile and the byte that stores it.
 */
module TileTypes {
  import opened CppInt

  /**
   * The enumerators in declaration order. `Void` is never authored: the map
   * hands it out for coordinates it rejects.
   */
  datatype TileType = None | Grass | Dirt | Void

  /** The number of enumerators, i.e. the bytes that name a tile. */
  const TileTypeCount: nat := 4

  /** Every tile except `None` blocks movement, `Void` included: exactly the tiles with a non-zero byte. */
  predicate IsSolid(tileType: TileType)
    ensures IsSolid(tileType) <==> GetTileIndex(tileType) != 0
  {
    tileType != None
  }

  /** The enumerator's underlying byte, used to index the tile sprite sheet. */
  function GetTileIndex(tileType: TileType): (index: uint8)
    ensures index < TileTypeCount
  {
    match tileType
    case None => 0
    case Grass => 1
    case Dirt => 2
    case Void => 3
  }

  /**
   * A stored byte read back as a tile (`static_cast<TileType>`). Only the
   * bytes that name an enumerator are modelled.
   */
  function ReadTileType(byte: uint8): (tileType: TileType)
    requires byte < TileTypeCount
    ensures GetTileIndex(tileType) == byte
  {
    if byte == 0 then None
    else if byte == 1 then Grass
    else if byte == 2 then Dirt
    else Void
  }

  /** The bytes follow the declaration order of the enumerators. */
  lemma TileIndexOrdinals()
    ensures GetTileIndex(None) == 0 && GetTileIndex(Grass) == 1
    ensures GetTileIndex(Dirt) == 2 && GetTileIndex(Void) == 3
  {
  }

  /** Reading back the byte of a tile gives that tile. */
  lemma ReadTileIndex(tileType: TileType)
    ensures ReadTileType(GetTileIndex(tileType)) == tileType
  {
  }

  /** Distinct tiles have distinct bytes. */
  lemma GetTileIndexInjective(s: TileType, t: TileType)
    ensures GetTileIndex(s) == GetTileIndex(t) ==> s == t
  {
  }

  /** `None` is the only tile that does not block. */
  lemma SolidTiles(tileType: TileType)
    ensures IsSolid(tileType) <==> tileType in {Grass, Dirt, Void}
    ensures !IsSolid(tileType) <==> tileType == None
  {
  }
}
