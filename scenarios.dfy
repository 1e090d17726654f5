/**
 * Frames of the shipped level worked out in full: where the player is after
 * the first frame, and a player standing on the ground.
 */
module Scenarios {
  import opened CppInt
  import opened TileTypes
  import opened TileMaps
  import opened WorldData
  import opened Motion
  import opened Collision

  /** The level's top row is open sky. */
  lemma Map0TopRowIsOpen(memory: nat -> TileType, x: int16)
    requires 0 <= x < Map0Width
    ensures Map0(memory).GetTile(x, 0) == None
  {
  }

  /** From (64, 0) falling one pixel, nothing solid is near: x stays at 64. */
  lemma FirstFrameX(memory: nat -> TileType)
    ensures SettleX(Map0(memory), 64, 1) == 64
  {
    TruncDivByEuclidean(1, TileHeight);
    FirstFrameRight(memory);
    FirstFrameLeft(memory);
    SettleXFromChecks(Map0(memory), 64, 1, 64, 64);
  }

  /** The right probe of x = 64 on row 0 is the open column 8. */
  lemma FirstFrameRight(memory: nat -> TileType)
    ensures RightCheck(Map0(memory), 64, 0) == 64
  {
    TruncDivByEuclidean(68, TileWidth);
    Map0TopRowIsOpen(memory, 8);
  }

  /** The left probe of x = 64 on row 0 is the open column 7. */
  lemma FirstFrameLeft(memory: nat -> TileType)
    ensures LeftCheck(Map0(memory), 64, 0) == 64
  {
    TruncDivByEuclidean(59, TileWidth);
    Map0TopRowIsOpen(memory, 7);
  }

  /** From (64, 0) falling one pixel the box is clear, but y = 1 is inside the margin. */
  lemma FirstFrameY(memory: nat -> TileType)
    ensures SettleY(Map0(memory), 64, 1) == HalfTileHeight
  {
    var m := Map0(memory);
    TruncDivByEuclidean(64, TileWidth);
    TruncDivByEuclidean(5, TileHeight);
    TruncDivByEuclidean(-4, TileHeight);
    Map0TopRowIsOpen(memory, 8);
    assert BottomCheck(m, 8, 1) == 1;
    assert TopCheck(m, 8, 1) == 1;
    SettleYFromChecks(m, 64, 1, 1, 1);
  }

  /**
   * With no button pressed, the first frame drops the player from its start
   * (64, 0) by one pixel; the margin clamp then lifts it to y = 4.
   */
  lemma FirstPlayerFrame(memory: nat -> TileType)
    ensures var intent := PlayerIntent(Body(CentreScreenX, 0, 0, 0), Buttons(false, false, false));
      CanResolve(intent) && Resolve(Map0(memory), intent) == Body(64, 4, 0, 1)
  {
    var intent := PlayerIntent(Body(CentreScreenX, 0, 0, 0), Buttons(false, false, false));
    assert intent == Body(64, 0, 0, 1);
    FirstFrameX(memory);
    FirstFrameY(memory);
    ResolveBySettling(Map0(memory), intent, 64, 1);
  }

  /**
   * A player at rest on the ground row at x = 100 (falling at the gravity
   * constant, box bottom on the top of row 3) is left where it is.
   */
  lemma StandingOnGroundStaysPut(memory: nat -> TileType)
    ensures Resolve(Map0(memory), Body(100, 20, 0, 1)) == Body(100, 20, 0, 1)
  {
    var m, b := Map0(memory), Body(100, 20, 0, 1);
    TruncDivByEuclidean(100, TileWidth);
    assert m.GetTile(12, 3) == Map0Data[3][12] == Grass;
    RestingStaysPut(m, b, 3);
    StandingOnGroundX(memory);
    ResolveBySettling(m, b, 100, 21);
  }

  /** At x = 100 on row 2 both side probes find open tiles. */
  lemma StandingOnGroundX(memory: nat -> TileType)
    ensures SettleX(Map0(memory), 100, 21) == 100
  {
    TruncDivByEuclidean(21, TileHeight);
    StandingOnGroundRight(memory);
    StandingOnGroundLeft(memory);
    SettleXFromChecks(Map0(memory), 100, 21, 100, 100);
  }

  /** The right probe of x = 100 on row 2 is the open column 13. */
  lemma StandingOnGroundRight(memory: nat -> TileType)
    ensures RightCheck(Map0(memory), 100, 2) == 100
  {
    var m := Map0(memory);
    TruncDivByEuclidean(104, TileWidth);
    assert m.GetTile(13, 2) == Map0Data[2][13] == None;
  }

  /** The left probe of x = 100 on row 2 is the open column 11. */
  lemma StandingOnGroundLeft(memory: nat -> TileType)
    ensures LeftCheck(Map0(memory), 100, 2) == 100
  {
    var m := Map0(memory);
    TruncDivByEuclidean(95, TileWidth);
    assert m.GetTile(11, 2) == Map0Data[2][11] == None;
  }

  /**
   * On row 1 with its own cell solid, an entity resting on a solid row 1 is
   * not left in place: the top probe truncates to its own row and the top
   * test pushes it down to y = 12.
   */
  lemma SolidOwnCellPushesDown(memory: nat -> TileType)
    ensures Resolve(Map(1, 2, [Grass, Grass], memory), Body(4, 4, 0, 1)).y == 12
  {
    var m := Map(1, 2, [Grass, Grass], memory);
    TruncDivByEuclidean(4, TileWidth);
    TruncDivByEuclidean(9, TileHeight);
    TruncDivByEuclidean(-1, TileHeight);
    assert m.GetTile(0, 1) == Grass && m.GetTile(0, 0) == Grass;
    assert BottomCheck(m, 0, 5) == 4;
    assert TopCheck(m, 0, 4) == 12;
  }

  /**
   * An entity centred in tile 0 of the row [None, Grass, Grass], moving
   * right, is stopped by tile 1 and stays at x = 4.
   */
  lemma BlockedByTileOne(memory: nat -> TileType)
    ensures Resolve(Map(3, 1, [None, Grass, Grass], memory), Body(4, 4, 2, 0)).x == 4
  {
    var m := Map(3, 1, [None, Grass, Grass], memory);
    TruncDivByEuclidean(4, TileHeight);
    assert m.GetTile(1, 0) == Grass && m.GetTile(0, 0) == None;
    BlockedAtColumnOneStaysPut(m, Body(4, 4, 2, 0));
  }
}
