/**
 * Where an entity ends up after one frame of movement against the tile map.
 *
 * The entity proposes `x + xVelocity`, `y + yVelocity` and its tile-sized box
 * centred there is tested edge by edge, in the fixed order right, left,
 * bottom, top. A solid tile under an edge puts that edge flush on the
 * tile's boundary. The left test sees the x the right test left behind, the
 * top test the y the bottom test left behind, but both vertical tests probe
 * the column of the proposed x, before any horizontal correction. Tile
 * coordinates come from C++ division, which truncates toward zero. A clamp
 * to a half-tile margin ends the frame.
 */
module Collision {
  import opened CppInt
  import opened TileTypes
  import opened TileMaps
  import opened Motion

  /**
   * How far from the origin a proposed coordinate may lie. Beyond it, the
   * int16 arithmetic of the edge tests could overflow.
   */
  const ProposalLimit: int := 30000

  /** The bound under which a single edge test stays within int16. */
  const CheckLimit: int := 32000

  predicate WithinCheckLimit(v: int) {
    -CheckLimit <= v <= CheckLimit
  }

  /** The map column of a pixel x, by C++ division. */
  function TileColumn(px: int): (c: int)
    ensures px >= 0 ==> 0 <= c <= px
    ensures px < 0 ==> px <= c <= 0
  {
    TruncDivBrackets(px, TileWidth);
    TruncDiv(px, TileWidth)
  }

  /** The map row of a pixel y, by C++ division. */
  function TileRow(py: int): (r: int)
    ensures py >= 0 ==> 0 <= r <= py
    ensures py < 0 ==> py <= r <= 0
  {
    TruncDivBrackets(py, TileHeight);
    TruncDiv(py, TileHeight)
  }

  /** The column under the box's right edge. */
  function RightProbeColumn(newX: int): int {
    TileColumn(newX + HalfTileWidth)
  }

  /** The column under the box's left edge, one pixel outside it. */
  function LeftProbeColumn(newX: int): int {
    TileColumn(newX - HalfTileWidth - 1)
  }

  /** The row under the box's bottom edge. */
  function BottomProbeRow(newY: int): int {
    TileRow(newY + HalfTileHeight)
  }

  /** The row under the box's top edge, one pixel outside it. */
  function TopProbeRow(newY: int): int {
    TileRow(newY - HalfTileHeight - 1)
  }

  /** Whether the tile the lookup returns at (col, row) blocks movement. */
  predicate SolidAt(m: Map, col: int, row: int)
    requires IsInt16(col) && IsInt16(row)
  {
    IsSolid(m.GetTile(col, row))
  }

  // ----- The four edge tests -----

  /**
   * Right edge: against a solid tile the box's right edge ends on the
   * tile's left boundary, which pulls the entity back unless truncation put
   * the probe ahead of it.
   */
  function RightCheck(m: Map, newX: int, tileY: int): (r: int)
    requires WithinCheckLimit(newX) && IsInt16(tileY)
    ensures SolidAt(m, RightProbeColumn(newX), tileY) ==>
      r + HalfTileWidth == RightProbeColumn(newX) * TileWidth
    ensures !SolidAt(m, RightProbeColumn(newX), tileY) ==> r == newX
    ensures newX - TileWidth < r < newX + TileWidth
    ensures newX + HalfTileWidth >= 0 ==> r <= newX
  {
    var rightTileX := RightProbeColumn(newX);
    TruncDivBrackets(newX + HalfTileWidth, TileWidth);
    if SolidAt(m, rightTileX, tileY) then rightTileX * TileWidth - HalfTileWidth else newX
  }

  /**
   * Left edge: against a solid tile the box's left edge ends on the tile's
   * right boundary, so the entity only ever moves right.
   */
  function LeftCheck(m: Map, newX: int, tileY: int): (r: int)
    requires WithinCheckLimit(newX) && IsInt16(tileY)
    ensures SolidAt(m, LeftProbeColumn(newX), tileY) ==>
      r - HalfTileWidth == (LeftProbeColumn(newX) + 1) * TileWidth
    ensures !SolidAt(m, LeftProbeColumn(newX), tileY) ==> r == newX
    ensures newX <= r < newX + 2 * TileWidth
  {
    var leftTileX := LeftProbeColumn(newX);
    TruncDivBrackets(newX - HalfTileWidth - 1, TileWidth);
    if SolidAt(m, leftTileX, tileY) then (leftTileX + 1) * TileWidth + HalfTileWidth else newX
  }

  /**
   * Bottom edge: against a solid tile the box comes to rest on the tile's
   * top boundary.
   */
  function BottomCheck(m: Map, tileX: int, newY: int): (r: int)
    requires IsInt16(tileX) && WithinCheckLimit(newY)
    ensures SolidAt(m, tileX, BottomProbeRow(newY)) ==>
      r + HalfTileHeight == BottomProbeRow(newY) * TileHeight
    ensures !SolidAt(m, tileX, BottomProbeRow(newY)) ==> r == newY
    ensures newY - TileHeight < r < newY + TileHeight
    ensures newY + HalfTileHeight >= 0 ==> r <= newY
  {
    var bottomTileY := BottomProbeRow(newY);
    TruncDivBrackets(newY + HalfTileHeight, TileHeight);
    if SolidAt(m, tileX, bottomTileY) then bottomTileY * TileHeight - HalfTileHeight else newY
  }

  /**
   * Top edge: against a solid tile the box's top edge ends on the tile's
   * bottom boundary, so the entity only ever moves down.
   */
  function TopCheck(m: Map, tileX: int, newY: int): (r: int)
    requires IsInt16(tileX) && WithinCheckLimit(newY)
    ensures SolidAt(m, tileX, TopProbeRow(newY)) ==>
      r - HalfTileHeight == (TopProbeRow(newY) + 1) * TileHeight
    ensures !SolidAt(m, tileX, TopProbeRow(newY)) ==> r == newY
    ensures newY <= r < newY + 2 * TileHeight
  {
    var topTileY := TopProbeRow(newY);
    TruncDivBrackets(newY - HalfTileHeight - 1, TileHeight);
    if SolidAt(m, tileX, topTileY) then (topTileY + 1) * TileHeight + HalfTileHeight else newY
  }

  /**
   * At the left margin, x = half a tile, the left probe starts one pixel
   * left of zero and C++ division sends it to column 0; rounding down would
   * have probed column -1, where the lookup answers `Void`.
   */
  lemma LeftProbeAtMargin()
    ensures LeftProbeColumn(HalfTileWidth) == 0
    ensures (HalfTileWidth - HalfTileWidth - 1) / TileWidth == -1
  {
    TruncDivOfMinusOne(TileWidth);
  }

  // ----- The whole frame -----

  /** A proposed position the edge tests handle without leaving int16. */
  predicate InProposalRange(newX: int, newY: int) {
    -ProposalLimit <= newX <= ProposalLimit && -ProposalLimit <= newY <= ProposalLimit
  }

  /**
   * The x a proposal ends at: the right test, the left test, the clamp. It
   * is at or beyond the margin, and less than a tile left or three tiles
   * right of the proposal unless the clamp chose it.
   */
  function SettleX(m: Map, newX: int, newY: int): (x: int16)
    requires InProposalRange(newX, newY)
    ensures x > HalfTileHeight || x == HalfTileWidth
    ensures x == HalfTileWidth || newX - TileWidth < x < newX + 3 * TileWidth
  {
    var tileY := TileRow(newY);
    var afterLeft := LeftCheck(m, RightCheck(m, newX, tileY), tileY);
    if afterLeft > HalfTileHeight then afterLeft else HalfTileWidth
  }

  /**
   * The y a proposal ends at: the bottom test, the top test, the clamp,
   * with the same bounds as `SettleX`.
   */
  function SettleY(m: Map, newX: int, newY: int): (y: int16)
    requires InProposalRange(newX, newY)
    ensures y > HalfTileHeight || y == HalfTileHeight
    ensures y == HalfTileHeight || newY - TileHeight < y < newY + 3 * TileHeight
  {
    var tileX := TileColumn(newX);
    var afterTop := TopCheck(m, tileX, BottomCheck(m, tileX, newY));
    if afterTop > HalfTileHeight then afterTop else HalfTileHeight
  }

  /** An entity's frame can be resolved: its proposal is in range. */
  predicate CanResolve(b: Body) {
    InProposalRange(b.x + b.xVelocity, b.y + b.yVelocity)
  }

  /**
   * `updateEntityPosition` on values. Velocities are never touched, and the
   * position always ends at or beyond the margin: y strictly above half a
   * tile or exactly half a tile, x strictly above HalfTileHeight or
   * exactly half a tile width (the x test compares against the height).
   */
  function Resolve(m: Map, b: Body): (r: Body)
    requires CanResolve(b)
    ensures r.xVelocity == b.xVelocity && r.yVelocity == b.yVelocity
    ensures r.x > HalfTileHeight || r.x == HalfTileWidth
    ensures r.y > HalfTileHeight || r.y == HalfTileHeight
  {
    Body(SettleX(m, b.x + b.xVelocity, b.y + b.yVelocity), SettleY(m, b.x + b.xVelocity, b.y + b.yVelocity), b.xVelocity, b.yVelocity)
  }

  /** Resolve, spelled out field by field. */
  lemma ResolveBySettling(m: Map, b: Body, newX: int, newY: int)
    requires CanResolve(b)
    requires newX == b.x + b.xVelocity && newY == b.y + b.yVelocity
    ensures InProposalRange(newX, newY)
    ensures Resolve(m, b) == Body(SettleX(m, newX, newY), SettleY(m, newX, newY), b.xVelocity, b.yVelocity)
  {
  }

  /** SettleX, read as the outcome of the right and left tests and the clamp. */
  lemma SettleXFromChecks(m: Map, newX: int, newY: int, afterRight: int, afterLeft: int)
    requires InProposalRange(newX, newY)
    requires afterRight == RightCheck(m, newX, TileRow(newY))
    requires afterLeft == LeftCheck(m, afterRight, TileRow(newY))
    ensures SettleX(m, newX, newY) == if afterLeft > HalfTileHeight then afterLeft else HalfTileWidth
  {
  }

  /** SettleY, read as the outcome of the bottom and top tests and the clamp. */
  lemma SettleYFromChecks(m: Map, newX: int, newY: int, afterBottom: int, afterTop: int)
    requires InProposalRange(newX, newY)
    requires afterBottom == BottomCheck(m, TileColumn(newX), newY)
    requires afterTop == TopCheck(m, TileColumn(newX), afterBottom)
    ensures SettleY(m, newX, newY) == if afterTop > HalfTileHeight then afterTop else HalfTileHeight
  {
  }

  /**
   * The horizontal tests read the proposed y only through its row: two
   * proposals on the same row settle to the same x.
   */
  lemma SettleXSeesOnlyRow(m: Map, x: int, y1: int, y2: int)
    requires InProposalRange(x, y1) && InProposalRange(x, y2)
    requires TileRow(y1) == TileRow(y2)
    ensures SettleX(m, x, y1) == SettleX(m, x, y2)
  {
  }

  /**
   * The vertical tests read the proposed x only through its column, taken
   * before any horizontal correction: two proposals in the same column
   * settle to the same y.
   */
  lemma SettleYSeesOnlyColumn(m: Map, x1: int, x2: int, y: int)
    requires InProposalRange(x1, y) && InProposalRange(x2, y)
    requires TileColumn(x1) == TileColumn(x2)
    ensures SettleY(m, x1, y) == SettleY(m, x2, y)
  {
  }

  /** No probed tile being solid. */
  predicate ProbesClear(m: Map, b: Body)
    requires CanResolve(b)
  {
    var newX := b.x + b.xVelocity;
    var newY := b.y + b.yVelocity;
    && !SolidAt(m, RightProbeColumn(newX), TileRow(newY))
    && !SolidAt(m, LeftProbeColumn(newX), TileRow(newY))
    && !SolidAt(m, TileColumn(newX), BottomProbeRow(newY))
    && !SolidAt(m, TileColumn(newX), TopProbeRow(newY))
  }

  /** With nothing in the way and away from the margin, an entity moves by its velocity. */
  lemma FreeMove(m: Map, b: Body)
    requires CanResolve(b) && ProbesClear(m, b)
    requires b.x + b.xVelocity > HalfTileHeight && b.y + b.yVelocity > HalfTileHeight
    ensures Resolve(m, b).x == b.x + b.xVelocity
    ensures Resolve(m, b).y == b.y + b.yVelocity
  {
  }

  /**
   * An entity standing on a solid tile (its box bottom on the tile's top
   * boundary, falling at the gravity constant) stays at the same height.
   */
  lemma RestingStaysPut(m: Map, b: Body, row: int)
    requires CanResolve(b)
    requires 2 <= row && b.y + HalfTileHeight == row * TileHeight
    requires b.yVelocity == GravitySpeed
    requires IsInt16(row) && SolidAt(m, TileColumn(b.x + b.xVelocity), row)
    ensures Resolve(m, b).y == b.y
  {
    TruncDivBrackets(b.y + b.yVelocity + HalfTileHeight, TileHeight);
    assert BottomProbeRow(b.y + b.yVelocity) == row;
    TruncDivBrackets(b.y - HalfTileHeight - 1, TileHeight);
    assert TopProbeRow(b.y) == row - 2;
  }

  /**
   * An entity pushing right with its box's right edge flush against a solid
   * column is pushed back to the same x: it does not advance on later frames.
   */
  lemma BlockedStaysPut(m: Map, b: Body, col: int)
    requires CanResolve(b)
    requires 2 <= col && b.x + HalfTileWidth == col * TileWidth
    requires b.xVelocity == MovementSpeed
    requires IsInt16(col) && IsInt16(TileRow(b.y + b.yVelocity))
    requires SolidAt(m, col, TileRow(b.y + b.yVelocity))
    ensures Resolve(m, b).x == b.x
  {
    TruncDivBrackets(b.x + b.xVelocity + HalfTileWidth, TileWidth);
    assert RightProbeColumn(b.x + b.xVelocity) == col;
    TruncDivBrackets(b.x - HalfTileWidth - 1, TileWidth);
    assert LeftProbeColumn(b.x) == col - 2;
  }

  /**
   * `RestingStaysPut` on row 1. The top probe starts one pixel above zero
   * and truncates to row 0, the entity's own row, so the entity stays put
   * only while its own cell is open.
   */
  lemma RestingOnRowOneStaysPut(m: Map, b: Body)
    requires CanResolve(b)
    requires b.y + HalfTileHeight == TileHeight && b.yVelocity == GravitySpeed
    requires IsInt16(TileColumn(b.x + b.xVelocity))
    requires SolidAt(m, TileColumn(b.x + b.xVelocity), 1)
    requires !SolidAt(m, TileColumn(b.x + b.xVelocity), 0)
    ensures Resolve(m, b).y == b.y
  {
    TruncDivByEuclidean(b.y + b.yVelocity + HalfTileHeight, TileHeight);
    TruncDivByEuclidean(b.y - HalfTileHeight - 1, TileHeight);
  }

  /**
   * `BlockedStaysPut` against column 1. The left probe starts one pixel left
   * of zero and truncates to column 0, the entity's own column, so the
   * entity stays put only while its own cell is open.
   */
  lemma BlockedAtColumnOneStaysPut(m: Map, b: Body)
    requires CanResolve(b)
    requires b.x + HalfTileWidth == TileWidth && b.xVelocity == MovementSpeed
    requires IsInt16(TileRow(b.y + b.yVelocity))
    requires SolidAt(m, 1, TileRow(b.y + b.yVelocity))
    requires !SolidAt(m, 0, TileRow(b.y + b.yVelocity))
    ensures Resolve(m, b).x == b.x
  {
    TruncDivByEuclidean(b.x + b.xVelocity + HalfTileWidth, TileWidth);
    TruncDivByEuclidean(b.x - HalfTileWidth - 1, TileWidth);
  }
}
