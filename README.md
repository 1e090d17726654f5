# TileWorld: the per-frame simulation, modelled and proved

TileWorld is a small tile-based platformer for the Arduboy handheld. It has
one player, one enemy that chases the player along the x axis, and one
28 by 4 level. This project models the game's simulation: what one frame
does to the two entities and the camera. It leaves out drawing and the
device loop.

- **Tiles** (`tile_type.dfy`, module `TileTypes`).
  - The four tile kinds.
  - Which kinds are solid.
  - The conversion between a tile and its stored byte.
- **The map** (`tile_map.dfy`, module `TileMaps`).
  - A value holding the width, the height and the cells in row-major order.
  - The bounds-checked lookup, in its unsigned and signed versions.
  - The check is modelled as written: column `width` and row `height` are accepted.
  - The map points into program memory and keeps no copy of the cells. So a
    lookup past the last cell reads the memory that follows the array.
  - That memory is part of the map value, as `pastData`. The lemmas say exactly
    which accepted coordinates land in the next row and which land in `pastData`.
- **The level** (`world_data.dfy`, module `WorldData`). The shipped grid,
  transcribed cell by cell.
- **Motion rules** (`motion.dfy`, module `Motion`).
  - The game's constants.
  - As pure functions: the player's steering from the buttons, gravity, the
    enemy's chase and the camera offset.
- **Collision** (`collision.dfy`, module `Collision`).
  - `updateEntityPosition` as functions on values. It runs the four edge
    tests in order (right, left, bottom, top), then the margin clamp.
  - Tile coordinates come from C++ division, which truncates toward zero.
    `CppInt.TruncDiv` models it, since Dafny's `/` rounds a negative
    dividend down.
- **The game object** (`game.dfy`, module `GameLogic`).
  - Classes `Entity`, `Camera` and `Game`. Their methods update fields in place
    as the game does.
  - Each method is proved equal to the functions above.
  - `UpdateGameplay` runs input, player, enemy and camera in that order. It
    proves that the velocity ranges hold from frame to frame.
- **Worked frames** (`scenarios.dfy`, module `Scenarios`).
  - The player's first frame on the shipped level.
  - A player standing on the ground.

Inputs the model takes as parameters:

- **Buttons.** They are a `Buttons` value with left held, right held and A
  just pressed.
- **Program memory after an array.** It is a function `nat -> TileType`.

Two behaviours of the code are kept as written:

- **Enemy level with the player.** The enemy keeps its previous horizontal
  velocity (`TileWorld/Game.h:132-139`); it does not stop.
  `Motion.ChaseVelocity` states this.
- **Bounds check.** The lookup accepts `x == width` and `y == height`
  (`TileWorld/Map.h:63`, `TileWorld/Map.h:82`). The model keeps that check,
  and lemmas state where such reads land.

## Model

| member | source | states |
|---|---|---|
| CppInt.TruncDivBrackets | TileWorld/Game.h:173-174 | the C++ quotient has the dividend's sign, is no larger in magnitude, and brackets the dividend between consecutive multiples of the divisor on the side of zero |
| CppInt.TruncDivByEuclidean | TileWorld/Game.h:196 | C++ division equals Dafny's `/` on a non-negative dividend and is the negated quotient of the magnitude on a negative one |
| CppInt.TruncDivNegate | TileWorld/Game.h:196 | negating the dividend negates the C++ quotient |
| CppInt.TruncDivOfMinusOne | TileWorld/Game.h:193-196 | for -1, C++ division gives 0 where Euclidean division gives -1 |
| CppInt.TruncDiv | TileWorld/Game.h:173-227 | C++ `/` on a positive divisor: the quotient has the sign of the dividend (its bracketing is `CppInt.TruncDivBrackets`) |
| TileTypes.GetTileIndex | TileWorld/TileType.h:36-40 | every tile's byte is below the number of tile kinds |
| TileTypes.ReadTileType | TileWorld/TileType.h:42-46 | a stored byte naming a tile is read back as the tile whose byte it is |
| TileTypes.TileIndexOrdinals | TileWorld/TileType.h:21-40 | the bytes are the declaration order: None 0, Grass 1, Dirt 2, Void 3 |
| TileTypes.ReadTileIndex | TileWorld/TileType.h:36-46 | reading back a tile's byte gives the tile (round trip) |
| TileTypes.GetTileIndexInjective | TileWorld/TileType.h:36-40 | distinct tiles have distinct bytes |
| TileTypes.SolidTiles | TileWorld/TileType.h:30-34 | a tile is solid exactly when it is Grass, Dirt or Void, and non-solid exactly when it is None |
| TileTypes.IsSolid | TileWorld/TileType.h:30-34 | a tile is solid exactly when its byte is not 0, the byte of None |
| TileMaps.Map.GetTileUnsigned | TileWorld/Map.h:60-77 | an x above the width or a y above the height gives Void; other coordinates read the cell at their index, which past the data is the memory after the array |
| TileMaps.Map.GetTile | TileWorld/Map.h:79-96 | a negative coordinate, an x above the width or a y above the height gives Void; other coordinates read the cell at their index, which past the data is the memory after the array |
| TileMaps.Map.GetIndex | TileWorld/Map.h:31-34 | the row-major index of an in-bounds cell lies inside the data |
| TileMaps.Map.GetWidth | TileWorld/Map.h:50-53 | in a well-formed map, the width times the height is the number of cells |
| TileMaps.Map.GetHeight | TileWorld/Map.h:55-58 | in a well-formed map, the width times the height is the number of cells |
| TileMaps.RowMajorBound | TileWorld/Map.h:31-34 | a row-major index of an in-bounds cell is below width times height |
| TileMaps.EmptyMap | TileWorld/Map.h:26-37 | the default map has width and height 0 and reads program memory from address zero |
| TileMaps.EmptyMapReadsAddressZero | TileWorld/Map.h:79-96 | the default map accepts only (0, 0), which reads the byte at address zero; every other coordinate gives Void |
| TileMaps.InBoundsRead | TileWorld/Map.h:88-95 | inside the map the index is below width times height and both lookups return the authored cell `data[y*width + x]` |
| TileMaps.IndexInjective | TileWorld/Map.h:31-34 | distinct in-bounds cells have distinct indices |
| TileMaps.RowMajorInjective | TileWorld/Map.h:33 | the row-major layout with columns below the width is one to one |
| TileMaps.UnsignedAgreesWithSigned | TileWorld/Map.h:60-96 | on non-negative coordinates the two lookups return the same tile |
| TileMaps.WidthColumnIsNextRow | TileWorld/Map.h:82-95 | column `width` of a row that is not the last has the index of, and reads the same tile as, column 0 of the next row |
| TileMaps.EdgeReadsPastData | TileWorld/Map.h:82-95 | column `width` of the last row, and any accepted column of row `height`, index at or past width times height and read the memory after the array |
| TileMaps.NonSolidIsNoneCell | TileWorld/Map.h:79-96 | a non-solid lookup comes only from accepted coordinates whose cell holds None |
| TileMaps.FlattenCell | TileWorld/Map.h:44-48 | the array laid out row after row holds cell (x, y) at `y*width + x` |
| TileMaps.FlattenLength | TileWorld/Map.h:44-48 | the laid-out array has rows times columns cells |
| TileMaps.FromGrid | TileWorld/Map.h:44-58 | the array constructor's map is well formed, reports the array's column and row counts as width and height, and returns each authored cell |
| TileMaps.FromGridCells | TileWorld/Map.h:44-48 | each in-bounds lookup of the map over an array returns the authored cell |
| WorldData.Map0 | TileWorld/WorldData.h:24-44 | the level is a well-formed 28 by 4 map |
| WorldData.Map0ReadsPastItsLastCell | TileWorld/WorldData.h:44 | the level accepts (28, 3), one past its last column, and reads the first byte after its array |
| WorldData.Map0AcceptsRowBelow | TileWorld/WorldData.h:24-44 | the level accepts row 4, below its last row, at indices 112 to 140, which read the memory after the array from its first byte |
| WorldData.Map0GroundIsSolid | TileWorld/WorldData.h:39-41 | every cell of the bottom row is solid |
| Motion.InputXVelocity | TileWorld/Game.h:88-101 | the horizontal velocity is -2, 0 or 2; it is 0 exactly when both or neither of left and right are held, and negative exactly when only left is |
| Motion.JumpInput | TileWorld/Game.h:103-108 | the vertical velocity becomes -8 exactly when A was just pressed while falling, and is unchanged otherwise |
| Motion.ApplyGravity | TileWorld/Game.h:113-123 | a rise slows by one; any other vertical velocity becomes 1 |
| Motion.SteerPlayer | TileWorld/Game.h:86-109 | steering sets both velocities from the buttons and leaves the position alone |
| Motion.Fall | TileWorld/Game.h:113-123 | gravity changes only the vertical velocity |
| Motion.PlayerIntent | TileWorld/Game.h:160-161 | the player about to move has its old position, the buttons' horizontal velocity and gravity applied after the jump input |
| Motion.PlayerIntentInRange | TileWorld/Game.h:104-123 | from a vertical velocity in [-7, 1], steering and gravity give a horizontal velocity in {-2, 0, 2} and a vertical one in [-7, 1] |
| Motion.JumpFrameVelocity | TileWorld/Game.h:104-117 | the frame a jump starts on moves the player with vertical velocity -7 |
| Motion.NoJumpFallsAtGravity | TileWorld/Game.h:119-123 | without a jump, a player that was not rising moves with vertical velocity 1 |
| Motion.ChaseVelocity | TileWorld/Game.h:131-139 | the enemy heads right at 2 when left of the player, left at 2 when right of it, and keeps its velocity when level |
| Motion.EnemyIntent | TileWorld/Game.h:131-142 | the chase sets the horizontal velocity, gravity sets the vertical one to 1, and the position is unchanged |
| Motion.ChaseTowardsPlayer | TileWorld/Game.h:132-139 | when not level, the enemy's velocity is non-zero and points at the player |
| Motion.EnemyIntentInRange | TileWorld/Game.h:131-142 | a horizontal velocity in {-2, 0, 2} stays there, and the vertical one is in [0, 1] |
| Motion.CameraOffset | TileWorld/Game.h:151-155 | the offset is never negative and is the larger of 0 and position minus screen centre |
| Collision.TileColumn | TileWorld/Game.h:173 | the column of a pixel has the pixel's sign and is no larger in magnitude |
| Collision.TileRow | TileWorld/Game.h:174 | the row of a pixel has the pixel's sign and is no larger in magnitude |
| Collision.RightCheck | TileWorld/Game.h:176-190 | against a solid tile the box's right edge is flush with that tile's left boundary; otherwise x is unchanged; the result is within one tile of the proposal and, for a non-negative probe, never to its right |
| Collision.LeftCheck | TileWorld/Game.h:192-206 | against a solid tile the box's left edge is flush with that tile's right boundary; otherwise x is unchanged; the entity only moves right, by less than two tiles |
| Collision.BottomCheck | TileWorld/Game.h:208-221 | against a solid tile the box's bottom edge is flush with that tile's top boundary; otherwise y is unchanged; the result is within one tile of the proposal |
| Collision.TopCheck | TileWorld/Game.h:223-237 | against a solid tile the box's top edge is flush with that tile's bottom boundary; otherwise y is unchanged; the entity only moves down, by less than two tiles |
| Collision.LeftProbeAtMargin | TileWorld/Game.h:193-196 | at x = half a tile the left probe is column 0, where rounding down would give column -1 |
| Collision.SettleX | TileWorld/Game.h:169-241 | the final x is above half a tile height or exactly half a tile width, and unless the clamp chose it, lies less than a tile left or three tiles right of the proposal |
| Collision.SettleY | TileWorld/Game.h:169-242 | the final y is above half a tile height or exactly half a tile height, and unless the clamp chose it, lies less than a tile above or three tiles below the proposal |
| Collision.SettleXSeesOnlyRow | TileWorld/Game.h:174-206 | the horizontal tests read the proposed y only through its row: proposals on the same row settle to the same x |
| Collision.SettleYSeesOnlyColumn | TileWorld/Game.h:173-237 | the vertical tests read the proposed x only through its column before any horizontal correction: proposals in the same column settle to the same y |
| Collision.Resolve | TileWorld/Game.h:166-243 | a frame's move never changes the velocities and always ends at or beyond the margin on both axes |
| Collision.FreeMove | TileWorld/Game.h:169-242 | with no probed tile solid and the proposal beyond the margin, the entity moves by exactly its velocity |
| Collision.RestingStaysPut | TileWorld/Game.h:207-242 | an entity whose box bottom sits on a solid tile of row 2 or below, falling at the gravity constant, keeps its height |
| Collision.RestingOnRowOneStaysPut | TileWorld/Game.h:207-242 | on a solid tile of row 1 the entity keeps its height only while its own cell in row 0 is open, since the top probe truncates to that row |
| Collision.BlockedStaysPut | TileWorld/Game.h:177-241 | an entity moving right with its box's right edge flush against a solid tile of column 2 or beyond is pushed back to the same x, so it does not advance on later frames |
| Collision.BlockedAtColumnOneStaysPut | TileWorld/Game.h:177-241 | against a solid tile of column 1 the entity keeps its x only while its own cell in column 0 is open, since the left probe truncates to that column |
| GameLogic.Entity.constructor | TileWorld/Game.h:58-59 | a new entity holds the given position and velocities |
| GameLogic.Camera.constructor | TileWorld/Game.h:57 | the camera starts at (0, 0) |
| GameLogic.CanStepWithinLimits | TileWorld/Game.h:169-170 | with positions within 29992 of the origin and velocities in range, a frame stays clear of int16 overflow |
| GameLogic.FrameKeepsVelocityRanges | TileWorld/Game.h:158-164 | a whole frame keeps the player's and the enemy's velocities in their ranges |
| GameLogic.Game.constructor | TileWorld/Game.h:54-59 | before setup the map is the default map, the camera is at (0, 0), the player rests at (64, 0) and the enemy at (128, 0) |
| GameLogic.Game.LoadMapFromProgmem | TileWorld/Game.h:290-294 | the game's map becomes the stored map |
| GameLogic.Game.Setup | TileWorld/Game.h:62-68 | after setup the game's map is the shipped level |
| GameLogic.Game.HandleInput | TileWorld/Game.h:86-109 | the player's velocities become the steered ones and its position is unchanged |
| GameLogic.Game.UpdatePlayer | TileWorld/Game.h:111-127 | the player ends where the collision rules put it after gravity |
| GameLogic.Game.UpdateEnemy | TileWorld/Game.h:129-146 | the enemy ends where the collision rules put it after the chase toward the player's current x and gravity |
| GameLogic.Game.UpdateCamera | TileWorld/Game.h:148-156 | each camera axis is the clamped offset of the player from the screen centre |
| GameLogic.Game.UpdateGameplay | TileWorld/Game.h:158-164 | one frame moves the player by its steered intent, then the enemy toward where the player now stands, then centres the camera, which is non-negative; velocity ranges are kept |
| GameLogic.Game.UpdateEntityPosition | TileWorld/Game.h:166-243 | only the entity's position is written, and it becomes the resolved position of its proposal |
| GameLogic.Game.RightEdge | TileWorld/Game.h:176-190 | the in-place right-edge test computes the right test |
| GameLogic.Game.LeftEdge | TileWorld/Game.h:192-206 | the in-place left-edge test computes the left test |
| GameLogic.Game.BottomEdge | TileWorld/Game.h:208-221 | the in-place bottom-edge test computes the bottom test |
| GameLogic.Game.TopEdge | TileWorld/Game.h:223-237 | the in-place top-edge test computes the top test |
| Scenarios.Map0TopRowIsOpen | TileWorld/WorldData.h:30-32 | every cell of the level's top row is None |
| Scenarios.FirstFrameRight | TileWorld/Game.h:176-190 | proposing x = 64 on row 0, the right probe finds open column 8 |
| Scenarios.FirstFrameLeft | TileWorld/Game.h:192-206 | proposing x = 64 on row 0, the left probe finds open column 7 |
| Scenarios.FirstFrameX | TileWorld/Game.h:169-241 | the first frame leaves the player's x at 64 |
| Scenarios.FirstFrameY | TileWorld/Game.h:208-242 | the first frame's proposal y = 1 meets nothing and the margin clamp lifts it to 4 |
| Scenarios.FirstPlayerFrame | TileWorld/Game.h:58-127 | with no button held, the player's first frame takes it from (64, 0) at rest to (64, 4) falling at 1 |
| Scenarios.StandingOnGroundRight | TileWorld/Game.h:176-190 | at x = 100 on row 2 the right probe finds open column 13 |
| Scenarios.StandingOnGroundLeft | TileWorld/Game.h:192-206 | at x = 100 on row 2 the left probe finds open column 11 |
| Scenarios.StandingOnGroundX | TileWorld/Game.h:169-241 | at x = 100 on row 2 the side tests leave x alone |
| Scenarios.StandingOnGroundStaysPut | TileWorld/Game.h:166-243 | a player standing on the ground at (100, 20), falling at 1, stays where it is |
| Scenarios.SolidOwnCellPushesDown | TileWorld/Game.h:207-242 | resting on row 1 with its own cell solid, an entity at y = 4 is pushed down to y = 12 |
| Scenarios.BlockedByTileOne | TileWorld/Game.h:176-241 | centred in tile 0 of the row None, Grass, Grass and moving right, an entity is stopped by tile 1 and stays at x = 4 |

## Left out

- The device loop (`loop`, `nextFrame`, `pollButtons`, `clear`, `display`) and `arduboy.begin` in `setup`: these are hardware I/O and frame timing. Button state is a parameter.
- All drawing (`drawPlayer`, `drawEnemy`, `drawMap`, `renderGameplay`, the printed positions): these calls do not affect the simulation.
- `pgm_read_byte` and `memcpy_P`: they are modelled as a plain read and a plain assignment. The bytes program memory holds after an array are an input, since the linker decides them.
- TileTypes.ReadTileType: only bytes below 4 are modelled. A byte of 4 or more, when cast, is no enumerator. The game's solidity test would treat it as solid, as it does `Void`. The memory after an array is therefore given as tiles, not bytes.
- TileMaps.Map.GetIndex: the index arithmetic is unbounded here. In C++ `y * width` is computed in `int`, which is 16 bits on the device, so it would overflow for a map where that product exceeds 32767. On the shipped level the accepted row 4 gives the largest product, 4 × 28 = 112, and the largest index, 140.
- The constants of headers that are not part of this model: `tileWidth` and `tileHeight` are taken as 8, and the screen's `WIDTH` and `HEIGHT` as 128 and 64. `Entity.h` and `Camera.h` are not part of this model either; their fields are taken from their uses.
- `playerWidth`, `playerHeight` and their halves (`TileWorld/Game.h:42-46`) come from the sprite header and are not modelled. `enemyWidth`, `enemyHeight` and their halves (`TileWorld/Game.h:48-52`) are not modelled either: only `drawEnemy` uses them. Collision never uses these sizes: every entity collides as a tile-sized box.
- The camera starts at (0, 0), as a zero-initialised object in static storage would. The `Camera` type is not part of this model.
- Collision.Resolve: requires that the proposal lies within 30000 of the origin on both axes. Further out the int16 arithmetic of the edge tests could overflow, and the model does not capture wrap-around. The same bound is required by Collision.SettleX and Collision.SettleY.
- Collision.RightCheck, Collision.LeftCheck, Collision.BottomCheck and Collision.TopCheck: require their coordinate within 32000 of the origin, under which the tests stay within int16.
- GameLogic.Game.UpdateEntityPosition: requires the same proposal bound as Collision.Resolve.
- GameLogic.Game.UpdatePlayer: requires the same proposal bound for the player after gravity.
- GameLogic.Game.UpdateEnemy: requires the same proposal bound for the enemy after the chase.
- GameLogic.Game.UpdateGameplay: requires both moves to be in range. GameLogic.CanStepWithinLimits shows this holds whenever positions are within 29992 of the origin and velocities are in range.
- GameLogic.Game.UpdateCamera: requires that the player's offset from the screen centre fits int16. The model does not capture the wrap-around otherwise.
