/**
 * The game's tuning constants and the per-frame rules that set velocities
 * and the camera, each as a function of the values it reads.
 */
module Motion {
  import opened CppInt

  // Sizes that come from outside the game logic: the screen of the device
  // and the tile sprites. The game uses them only through the constants below.
  const ScreenWidth: int16 := 128
  const ScreenHeight: int16 := 64
  const TileWidth: int16 := 8
  const TileHeight: int16 := 8

  const MovementSpeed: int16 := 2
  const GravitySpeed: int16 := 1
  /** The vertical velocity a jump starts with. */
  const JumpSpeed: int16 := -8

  const CentreScreenX: int16 := ScreenWidth / 2
  const CentreScreenY: int16 := ScreenHeight / 2

  /** Half the collision box: every entity collides as a tile-sized square. */
  const HalfTileWidth: int16 := TileWidth / 2
  const HalfTileHeight: int16 := TileHeight / 2

  /** An entity's position and velocity, in pixels and pixels per frame. */
  datatype Body = Body(x: int16, y: int16, xVelocity: int16, yVelocity: int16)

  /** The buttons a frame reads: left and right held, A newly pressed. */
  datatype Buttons = Buttons(leftHeld: bool, rightHeld: bool, aJustPressed: bool)

  // ----- Player -----

  /** Horizontal velocity from the direction buttons; opposite presses cancel. */
  function InputXVelocity(leftHeld: bool, rightHeld: bool): (v: int16)
    ensures v == -MovementSpeed || v == 0 || v == MovementSpeed
    ensures v == 0 <==> leftHeld == rightHeld
    ensures v < 0 <==> leftHeld && !rightHeld
  {
    (if leftHeld then -MovementSpeed else 0) + (if rightHeld then MovementSpeed else 0)
  }

  /** A fresh press of A starts a jump, but only while falling. */
  function JumpInput(yVelocity: int16, aJustPressed: bool): (v: int16)
    ensures v == JumpSpeed || v == yVelocity
    ensures v != yVelocity <==> aJustPressed && yVelocity > 0
  {
    if aJustPressed && yVelocity > 0 then JumpSpeed else yVelocity
  }

  /**
   * Gravity: a rise slows by one step per frame; otherwise the fall speed is
   * reset to the gravity constant rather than accumulated.
   */
  function ApplyGravity(yVelocity: int16): (v: int16)
    ensures v <= GravitySpeed
    ensures yVelocity < 0 ==> v == yVelocity + GravitySpeed
    ensures yVelocity >= 0 ==> v == GravitySpeed
  {
    if yVelocity < 0 then yVelocity + GravitySpeed else GravitySpeed
  }

  /** `handleInput`: velocities from the buttons; position untouched. */
  function SteerPlayer(player: Body, buttons: Buttons): (r: Body)
    ensures r.x == player.x && r.y == player.y
    ensures r.xVelocity == InputXVelocity(buttons.leftHeld, buttons.rightHeld)
    ensures r.yVelocity == JumpInput(player.yVelocity, buttons.aJustPressed)
  {
    player.(xVelocity := InputXVelocity(buttons.leftHeld, buttons.rightHeld),
            yVelocity := JumpInput(player.yVelocity, buttons.aJustPressed))
  }

  /** `updatePlayer` before it moves: gravity on the vertical velocity only. */
  function Fall(b: Body): (r: Body)
    ensures r.x == b.x && r.y == b.y && r.xVelocity == b.xVelocity
    ensures r.yVelocity == ApplyGravity(b.yVelocity)
  {
    b.(yVelocity := ApplyGravity(b.yVelocity))
  }

  /** The player as it is about to move: steered, then pulled by gravity. */
  function PlayerIntent(player: Body, buttons: Buttons): (r: Body)
    ensures r.x == player.x && r.y == player.y
    ensures r.xVelocity == InputXVelocity(buttons.leftHeld, buttons.rightHeld)
    ensures r.yVelocity == ApplyGravity(JumpInput(player.yVelocity, buttons.aJustPressed))
  {
    Fall(SteerPlayer(player, buttons))
  }

  /** The velocities a player can have between frames. */
  predicate PlayerVelocityInRange(player: Body) {
    && player.xVelocity in {-MovementSpeed, 0, MovementSpeed}
    && JumpSpeed + GravitySpeed <= player.yVelocity <= GravitySpeed
  }

  /** One frame's steering and gravity keep the player's velocities in range. */
  lemma PlayerIntentInRange(player: Body, buttons: Buttons)
    requires JumpSpeed + GravitySpeed <= player.yVelocity <= GravitySpeed
    ensures PlayerVelocityInRange(PlayerIntent(player, buttons))
  {
  }

  /** The frame a jump starts on moves the player up at seven pixels. */
  lemma JumpFrameVelocity(player: Body, buttons: Buttons)
    requires buttons.aJustPressed && player.yVelocity > 0
    ensures PlayerIntent(player, buttons).yVelocity == JumpSpeed + GravitySpeed == -7
  {
  }

  /** Without a jump, a player that was not rising falls at the gravity constant. */
  lemma NoJumpFallsAtGravity(player: Body, buttons: Buttons)
    requires !buttons.aJustPressed && player.yVelocity >= 0
    ensures PlayerIntent(player, buttons).yVelocity == GravitySpeed
  {
  }

  // ----- Enemy -----

  /** Head for the player's column; keep the old speed once level with it. */
  function ChaseVelocity(enemyX: int16, playerX: int16, xVelocity: int16): (v: int16)
    ensures enemyX < playerX ==> v == MovementSpeed
    ensures enemyX > playerX ==> v == -MovementSpeed
    ensures enemyX == playerX ==> v == xVelocity
  {
    if enemyX < playerX then MovementSpeed
    else if enemyX > playerX then -MovementSpeed
    else xVelocity
  }

  /** `updateEnemy` before it moves: chase, and gravity every frame. */
  function EnemyIntent(enemy: Body, playerX: int16): (r: Body)
    ensures r.x == enemy.x && r.y == enemy.y
    ensures r.xVelocity == ChaseVelocity(enemy.x, playerX, enemy.xVelocity)
    ensures r.yVelocity == GravitySpeed
  {
    enemy.(xVelocity := ChaseVelocity(enemy.x, playerX, enemy.xVelocity), yVelocity := GravitySpeed)
  }

  /** The velocities an enemy can have between frames. */
  predicate EnemyVelocityInRange(enemy: Body) {
    && enemy.xVelocity in {-MovementSpeed, 0, MovementSpeed}
    && 0 <= enemy.yVelocity <= GravitySpeed
  }

  /** The chase moves toward the player whenever the two are not level. */
  lemma ChaseTowardsPlayer(enemy: Body, playerX: int16)
    requires enemy.x != playerX
    ensures var v := EnemyIntent(enemy, playerX).xVelocity;
      v != 0 && (v > 0 <==> playerX > enemy.x)
  {
  }

  /** One frame's chase keeps the enemy's velocities in range. */
  lemma EnemyIntentInRange(enemy: Body, playerX: int16)
    requires enemy.xVelocity in {-MovementSpeed, 0, MovementSpeed}
    ensures EnemyVelocityInRange(EnemyIntent(enemy, playerX))
  {
  }

  // ----- Camera -----

  /** Keep the player at the screen centre, never scrolling before the origin. */
  function CameraOffset(position: int16, centre: int16): (offset: int16)
    requires IsInt16(position - centre)
    ensures offset >= 0 && offset >= position - centre
    ensures offset == 0 || offset == position - centre
  {
    var newMapOffset: int16 := position - centre;
    if newMapOffset < 0 then 0 else newMapOffset
  }
}
