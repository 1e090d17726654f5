/**
 * The game object: the tile map, the camera, the player and the enemy, and the
 * per-frame update that changes them in place. Drawing and the device loop
 * are not part of this model; the buttons are taken as a parameter.
 */
module GameLogic {
  import opened CppInt
  import opened TileTypes
  import opened TileMaps
  import WorldData
  import opened Motion
  import opened Collision

  /** A moving thing, updated in place through a reference. */
  class Entity {
    var x: int16
    var y: int16
    var xVelocity: int16
    var yVelocity: int16

    constructor (x: int16, y: int16, xVelocity: int16, yVelocity: int16)
      ensures Snapshot() == Body(x, y, xVelocity, yVelocity)
    {
      this.x, this.y := x, y;
      this.xVelocity, this.yVelocity := xVelocity, yVelocity;
    }

    /** The entity's fields as a value. */
    function Snapshot(): Body
      reads this
    {
      Body(x, y, xVelocity, yVelocity)
    }
  }

  /** The scroll offset used when drawing. */
  class Camera {
    var x: int16
    var y: int16

    constructor ()
      ensures x == 0 && y == 0
    {
      x, y := 0, 0;
    }
  }

  /**
   * The frame can be simulated: the player's move after steering and
   * gravity resolves, and so does the enemy's chase of where the player
   * then stands.
   */
  predicate CanStep(m: Map, player: Body, enemy: Body, buttons: Buttons) {
    var intent := PlayerIntent(player, buttons);
    && CanResolve(intent)
    && CanResolve(EnemyIntent(enemy, Resolve(m, intent).x))
  }

  /**
   * Away from the int16 limits, with velocities in their ranges, every frame
   * can be simulated: no proposal strays far enough to overflow.
   */
  lemma CanStepWithinLimits(m: Map, player: Body, enemy: Body, buttons: Buttons)
    requires -ProposalLimit - JumpSpeed <= player.x <= ProposalLimit + JumpSpeed
    requires -ProposalLimit - JumpSpeed <= player.y <= ProposalLimit + JumpSpeed
    requires -ProposalLimit - JumpSpeed <= enemy.x <= ProposalLimit + JumpSpeed
    requires -ProposalLimit - JumpSpeed <= enemy.y <= ProposalLimit + JumpSpeed
    requires PlayerVelocityInRange(player) && EnemyVelocityInRange(enemy)
    ensures CanStep(m, player, enemy, buttons)
  {
    var intent := PlayerIntent(player, buttons);
    PlayerIntentInRange(player, buttons);
    EnemyIntentInRange(enemy, Resolve(m, intent).x);
  }

  /** A whole frame keeps both entities' velocities in their ranges. */
  lemma FrameKeepsVelocityRanges(m: Map, player: Body, enemy: Body, buttons: Buttons)
    requires CanStep(m, player, enemy, buttons)
    requires PlayerVelocityInRange(player) && EnemyVelocityInRange(enemy)
    ensures var player' := Resolve(m, PlayerIntent(player, buttons));
      && PlayerVelocityInRange(player')
      && EnemyVelocityInRange(Resolve(m, EnemyIntent(enemy, player'.x)))
  {
    PlayerIntentInRange(player, buttons);
    EnemyIntentInRange(enemy, Resolve(m, PlayerIntent(player, buttons)).x);
  }

  class Game {
    var tileMap: Map
    const camera: Camera
    const playerEntity: Entity
    const enemy: Entity

    /** The player and the enemy are two separate objects. */
    ghost predicate Valid()
      reads this
    {
      playerEntity != enemy
    }

    /** The velocity ranges every frame keeps. */
    ghost predicate VelocitiesInRange()
      reads playerEntity, enemy
    {
      PlayerVelocityInRange(playerEntity.Snapshot()) && EnemyVelocityInRange(enemy.Snapshot())
    }

    /**
     * The state before `setup`: an empty map over a null pointer, both
     * entities at rest. `memory` is the program memory from address zero.
     */
    constructor (memory: nat -> TileType)
      ensures Valid() && VelocitiesInRange()
      ensures tileMap == EmptyMap(memory)
      ensures camera.x == 0 && camera.y == 0
      ensures playerEntity.Snapshot() == Body(CentreScreenX, 0, 0, 0)
      ensures enemy.Snapshot() == Body(CentreScreenX + TileWidth * 8, 0, 0, 0)
    {
      tileMap := EmptyMap(memory);
      camera := new Camera();
      playerEntity := new Entity(CentreScreenX, 0, 0, 0);
      enemy := new Entity(CentreScreenX + TileWidth * 8, 0, 0, 0);
    }

    /** Copy a stored map into the game. */
    method LoadMapFromProgmem(progmemMap: Map)
      modifies this`tileMap
      ensures tileMap == progmemMap
    {
      tileMap := progmemMap;
    }

    /** Load the game's one level; `memory` is what follows its array. */
    method Setup(memory: nat -> TileType)
      modifies this`tileMap
      ensures tileMap == WorldData.Map0(memory) && tileMap.Valid()
    {
      LoadMapFromProgmem(WorldData.Map0(memory));
    }

    /** Set the player's velocities from the buttons. */
    method HandleInput(buttons: Buttons)
      modifies playerEntity`xVelocity, playerEntity`yVelocity
      ensures playerEntity.Snapshot() == SteerPlayer(old(playerEntity.Snapshot()), buttons)
    {
      var xVelocity: int16 := 0;
      if buttons.leftHeld {
        xVelocity := xVelocity - MovementSpeed;
      }
      if buttons.rightHeld {
        xVelocity := xVelocity + MovementSpeed;
      }
      playerEntity.xVelocity := xVelocity;
      if buttons.aJustPressed {
        if playerEntity.yVelocity > 0 {
          playerEntity.yVelocity := JumpSpeed;
        }
      }
    }

    /** Apply gravity to the player, then move it. */
    method UpdatePlayer()
      requires CanResolve(Fall(playerEntity.Snapshot()))
      modifies playerEntity
      ensures playerEntity.Snapshot() == Resolve(tileMap, Fall(old(playerEntity.Snapshot())))
    {
      ghost var intent := Fall(playerEntity.Snapshot());
      if playerEntity.yVelocity < 0 {
        playerEntity.yVelocity := playerEntity.yVelocity + GravitySpeed;
      } else {
        playerEntity.yVelocity := GravitySpeed;
      }
      assert playerEntity.Snapshot() == intent;
      UpdateEntityPosition(playerEntity);
    }

    /** Turn the enemy toward the player, apply gravity, then move it. */
    method UpdateEnemy()
      requires Valid()
      requires CanResolve(EnemyIntent(enemy.Snapshot(), playerEntity.x))
      modifies enemy
      ensures enemy.Snapshot() == Resolve(tileMap, EnemyIntent(old(enemy.Snapshot()), playerEntity.x))
    {
      ghost var intent := EnemyIntent(enemy.Snapshot(), playerEntity.x);
      if enemy.x < playerEntity.x {
        enemy.xVelocity := MovementSpeed;
      } else if enemy.x > playerEntity.x {
        enemy.xVelocity := -MovementSpeed;
      }
      enemy.yVelocity := GravitySpeed;
      assert enemy.Snapshot() == intent;
      UpdateEntityPosition(enemy);
    }

    /** Centre the view on the player, clamped at the map's top-left corner. */
    method UpdateCamera()
      requires IsInt16(playerEntity.x - CentreScreenX) && IsInt16(playerEntity.y - CentreScreenY)
      modifies camera
      ensures camera.x == CameraOffset(playerEntity.x, CentreScreenX)
      ensures camera.y == CameraOffset(playerEntity.y, CentreScreenY)
    {
      var newMapX: int16 := playerEntity.x - CentreScreenX;
      var newMapY: int16 := playerEntity.y - CentreScreenY;
      camera.x := if newMapX < 0 then 0 else newMapX;
      camera.y := if newMapY < 0 then 0 else newMapY;
    }

    /**
     * One frame: input, player, enemy, camera, in that order. The player's
     * and the enemy's velocities stay in range from frame to frame.
     */
    method UpdateGameplay(buttons: Buttons)
      requires Valid()
      requires CanStep(tileMap, playerEntity.Snapshot(), enemy.Snapshot(), buttons)
      modifies playerEntity, enemy, camera
      ensures playerEntity.Snapshot() == Resolve(tileMap, PlayerIntent(old(playerEntity.Snapshot()), buttons))
      ensures enemy.Snapshot() == Resolve(tileMap, EnemyIntent(old(enemy.Snapshot()), playerEntity.x))
      ensures camera.x == CameraOffset(playerEntity.x, CentreScreenX) && camera.x >= 0
      ensures camera.y == CameraOffset(playerEntity.y, CentreScreenY) && camera.y >= 0
      ensures old(VelocitiesInRange()) ==> VelocitiesInRange()
    {
      ghost var player0, enemy0 := playerEntity.Snapshot(), enemy.Snapshot();
      HandleInput(buttons);
      UpdatePlayer();
      ghost var player1 := playerEntity.Snapshot();
      UpdateEnemy();
      ghost var enemy1 := enemy.Snapshot();
      UpdateCamera();
      assert playerEntity.Snapshot() == player1 && enemy.Snapshot() == enemy1;
      if PlayerVelocityInRange(player0) && EnemyVelocityInRange(enemy0) {
        FrameKeepsVelocityRanges(tileMap, player0, enemy0, buttons);
      }
    }

    /**
     * Move an entity by its velocity and resolve collisions with the map:
     * the four edge tests in the order right, left, bottom, top, then the
     * margin clamp. Only the entity's position is written.
     */
    method UpdateEntityPosition(entity: Entity)
      requires CanResolve(entity.Snapshot())
      modifies entity`x, entity`y
      ensures entity.Snapshot() == Resolve(tileMap, old(entity.Snapshot()))
    {
      var newX: int16 := entity.x + entity.xVelocity;
      var newY: int16 := entity.y + entity.yVelocity;
      ghost var proposedX, proposedY := newX, newY;
      ResolveBySettling(tileMap, entity.Snapshot(), newX, newY);

      var tileX: int16 := TileColumn(newX);
      var tileY: int16 := TileRow(newY);
      assert tileX == TileColumn(proposedX) && tileY == TileRow(proposedY);

      newX := RightEdge(newX, tileY);
      ghost var afterRight := newX;
      newX := LeftEdge(newX, tileY);
      newY := BottomEdge(tileX, newY);
      ghost var afterBottom := newY;
      newY := TopEdge(tileX, newY);

      SettleXFromChecks(tileMap, proposedX, proposedY, afterRight, newX);
      SettleYFromChecks(tileMap, proposedX, proposedY, afterBottom, newY);
      entity.x := if newX > HalfTileHeight then newX else HalfTileWidth;
      entity.y := if newY > HalfTileHeight then newY else HalfTileHeight;
    }

    /** The right-edge test of `UpdateEntityPosition`. */
    method RightEdge(newX: int16, tileY: int16) returns (r: int16)
      requires WithinCheckLimit(newX)
      ensures r == RightCheck(tileMap, newX, tileY)
    {
      r := newX;
      var rightX: int16 := newX + HalfTileWidth;
      var rightTileX: int16 := TileColumn(rightX);
      TruncDivBrackets(rightX, TileWidth);
      var rightTile := tileMap.GetTile(rightTileX, tileY);
      if IsSolid(rightTile) {
        r := rightTileX * TileWidth - HalfTileWidth;
      }
    }

    /** The left-edge test of `UpdateEntityPosition`. */
    method LeftEdge(newX: int16, tileY: int16) returns (r: int16)
      requires WithinCheckLimit(newX)
      ensures r == LeftCheck(tileMap, newX, tileY)
    {
      r := newX;
      var leftX: int16 := newX - HalfTileWidth - 1;
      var leftTileX: int16 := TileColumn(leftX);
      TruncDivBrackets(leftX, TileWidth);
      var leftTile := tileMap.GetTile(leftTileX, tileY);
      if IsSolid(leftTile) {
        r := (leftTileX + 1) * TileWidth + HalfTileWidth;
      }
    }

    /** The bottom-edge test of `UpdateEntityPosition`. */
    method BottomEdge(tileX: int16, newY: int16) returns (r: int16)
      requires WithinCheckLimit(newY)
      ensures r == BottomCheck(tileMap, tileX, newY)
    {
      r := newY;
      var bottomY: int16 := newY + HalfTileHeight;
      var bottomTileY: int16 := TileRow(bottomY);
      TruncDivBrackets(bottomY, TileHeight);
      var bottomTile := tileMap.GetTile(tileX, bottomTileY);
      if IsSolid(bottomTile) {
        r := bottomTileY * TileHeight - HalfTileHeight;
      }
    }

    /** The top-edge test of `UpdateEntityPosition`. */
    method TopEdge(tileX: int16, newY: int16) returns (r: int16)
      requires WithinCheckLimit(newY)
      ensures r == TopCheck(tileMap, tileX, newY)
    {
      r := newY;
      var topY: int16 := newY - HalfTileHeight - 1;
      var topTileY: int16 := TileRow(topY);
      TruncDivBrackets(topY, TileHeight);
      var topTile := tileMap.GetTile(tileX, topTileY);
      if IsSolid(topTile) {
        r := (topTileY + 1) * TileHeight + HalfTileHeight;
      }
    }
  }
}
