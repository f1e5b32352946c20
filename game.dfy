/**
 * The game's mutable state and the operations that change it in place:
 * the key handlers, starting and ending a session, the movement update,
 * the collision scan and one tick of the game loop (src/main.js:15-33,
 * 86-165, 172-245, 279-288).
 */
module Game {
  import opened Config
  import opened Sprite
  import opened Movement
  import opened Powerups

  /** The player record, updated in place by every tick. */
  class Player {
    var x: real
    var y: real
    var speed: real
    var direction: Direction
    var frameX: nat
    var frameY: nat
    var moving: bool

    constructor ()
      ensures x == StartX && y == StartY && speed == PlayerSpeed
      ensures direction == Down && frameX == 0 && frameY == Row(Down) && !moving
    {
      x, y := StartX, StartY;
      speed := PlayerSpeed;
      direction := Down;
      frameX, frameY := 0, Row(Down);
      moving := false;
    }
  }

  /** The three phases of a session as the flags gameActive and gameOver encode them. */
  datatype Phase = Idle | Playing | Over

  /** The test a key-down event passes to start or restart a session: a space character or the Space key. */
  predicate IsSpace(key: string, code: string) {
    key == " " || code == "Space"
  }

  /**
   * The whole game state: the source's `gameState` object together with the
   * module-level animation counter `frameCount`.
   */
  class GameState {
    const player: Player
    var powerups: array<Powerup>
    var score: nat
    var gameActive: bool
    var gameOver: bool
    var keys: map<string, bool>
    var frameCount: nat

    /**
     * What holds between any two events: the player is on the canvas with a
     * valid sprite cell, every powerup lies on the canvas, score and speed
     * record exactly the powerups collected, and the flags encode a phase
     * consistent with the powerups: none before the first session, some left
     * while playing, all collected once over.
     */
    ghost predicate Valid()
      reads this, player, powerups
    {
      PlayerValid() && SessionValid()
    }

    /** The player is on the canvas and shows a cell of the sprite atlas. */
    ghost predicate PlayerValid()
      reads player`x, player`y, player`frameX, player`frameY
    {
      && 0.0 <= player.x <= MaxPlayerX
      && 0.0 <= player.y <= MaxPlayerY
      && player.frameX < SpriteGridSize
      && player.frameY < SpriteGridSize
    }

    ghost predicate SessionValid()
      reads this`powerups, this`score, this`gameActive, this`gameOver, powerups, player`speed
    {
      && (forall i :: 0 <= i < powerups.Length ==> InField(powerups[i]))
      && score == PointsPerPowerup * CollectedCount(powerups[..])
      && player.speed == PlayerSpeed + SpeedBoost * CollectedCount(powerups[..]) as real
      && !(gameActive && gameOver)
      && powerups.Length == (if gameActive || gameOver then PowerupCount else 0)
      && (gameActive ==> !AllCollected(powerups[..]))
      && (gameOver ==> AllCollected(powerups[..]))
    }

    function Phase(): Phase
      reads this
    {
      if gameActive then Playing else if gameOver then Over else Idle
    }

    /** The state when the page loads: no session yet, no powerups, no key held. */
    constructor ()
      ensures Valid() && Phase() == Idle
      ensures fresh(player) && fresh(powerups)
      ensures player.x == StartX && player.y == StartY && player.speed == PlayerSpeed
      ensures player.direction == Down && player.frameX == 0 && player.frameY == Row(Down)
      ensures !player.moving
      ensures powerups.Length == 0 && score == 0 && keys == map[] && frameCount == 0
    {
      player := new Player();
      powerups := new Powerup[0];
      score := 0;
      gameActive, gameOver := false, false;
      keys := map[];
      frameCount := 0;
    }

    /** Replaces the powerups by PowerupCount fresh ones placed by the random draws. */
    method GeneratePowerups(rolls: seq<Roll>)
      requires |rolls| == PowerupCount && ValidRolls(rolls)
      modifies this`powerups
      ensures fresh(powerups) && powerups.Length == PowerupCount
      ensures forall i :: 0 <= i < PowerupCount ==> powerups[i] == Place(rolls[i])
      ensures forall i :: 0 <= i < PowerupCount ==> InField(powerups[i]) && !powerups[i].collected
    {
      var placed := new Powerup[PowerupCount];
      for i := 0 to PowerupCount
        invariant forall j :: 0 <= j < i ==> placed[j] == Place(rolls[j])
      {
        placed[i] := Place(rolls[i]);
      }
      powerups := placed;
    }

    /**
     * The state reset shared by starting and restarting a session: score,
     * speed, position and sprite cell go back to their defaults and new
     * powerups are placed. The facing direction, the moving flag, the
     * animation counter and the held keys are kept.
     */
    method ResetSession(rolls: seq<Roll>)
      requires |rolls| == PowerupCount && ValidRolls(rolls)
      modifies this, player
      ensures Valid() && Phase() == Playing
      ensures score == 0 && player.speed == PlayerSpeed
      ensures player.x == StartX && player.y == StartY
      ensures player.frameX == 0 && player.frameY == Row(Down)
      ensures player.direction == old(player.direction) && player.moving == old(player.moving)
      ensures frameCount == old(frameCount) && keys == old(keys)
      ensures fresh(powerups) && powerups.Length == PowerupCount
      ensures forall i :: 0 <= i < PowerupCount ==> powerups[i] == Place(rolls[i])
    {
      gameActive := true;
      gameOver := false;
      score := 0;
      player.speed := PlayerSpeed;
      player.x := GameWidth / 2.0 - PlayerSize / 2.0;
      player.y := GameHeight / 2.0 - PlayerSize / 2.0;
      player.frameX := 0;
      player.frameY := Row(Down);
      GeneratePowerups(rolls);
      NoneCollected(powerups[..]);
      assert !powerups[0].collected;
    }

    /** Starts the first session, or a new one after game over (the start screen is hidden). */
    method StartGame(rolls: seq<Roll>)
      requires |rolls| == PowerupCount && ValidRolls(rolls)
      modifies this, player
      ensures Valid() && Phase() == Playing
      ensures score == 0 && player.speed == PlayerSpeed
      ensures player.x == StartX && player.y == StartY
      ensures player.frameX == 0 && player.frameY == Row(Down)
      ensures player.direction == old(player.direction) && player.moving == old(player.moving)
      ensures frameCount == old(frameCount) && keys == old(keys)
      ensures fresh(powerups) && powerups.Length == PowerupCount
      ensures forall i :: 0 <= i < PowerupCount ==> powerups[i] == Place(rolls[i])
    {
      ResetSession(rolls);
    }

    /** Restarts a session after game over (the game-over screen is hidden). */
    method RestartGame(rolls: seq<Roll>)
      requires |rolls| == PowerupCount && ValidRolls(rolls)
      modifies this, player
      ensures Valid() && Phase() == Playing
      ensures score == 0 && player.speed == PlayerSpeed
      ensures player.x == StartX && player.y == StartY
      ensures player.frameX == 0 && player.frameY == Row(Down)
      ensures player.direction == old(player.direction) && player.moving == old(player.moving)
      ensures frameCount == old(frameCount) && keys == old(keys)
      ensures fresh(powerups) && powerups.Length == PowerupCount
      ensures forall i :: 0 <= i < PowerupCount ==> powerups[i] == Place(rolls[i])
    {
      ResetSession(rolls);
    }

    /** Ends the session (the final score is shown on the game-over screen). */
    method EndGame()
      modifies this`gameActive, this`gameOver
      ensures !gameActive && gameOver
    {
      gameActive := false;
      gameOver := true;
    }

    /**
     * A key is pressed: it is recorded as held, and the space key starts a
     * session unless one is being played. After game over `gameActive` is
     * already false, so the start branch is the one taken there too; the
     * restart branch is reached only from a state with both flags set, which
     * Valid() excludes.
     */
    method KeyDown(key: string, code: string, rolls: seq<Roll>)
      requires |rolls| == PowerupCount && ValidRolls(rolls)
      modifies this, player
      ensures keys == old(keys)[key := true]
      ensures Pressed(keys, key)
      ensures IsSpace(key, code) && (!old(gameActive) || old(gameOver)) ==>
        && Valid() && Phase() == Playing
        && score == 0 && player.speed == PlayerSpeed
        && player.x == StartX && player.y == StartY
        && player.frameX == 0 && player.frameY == Row(Down)
        && fresh(powerups) && powerups.Length == PowerupCount
        && (forall i :: 0 <= i < PowerupCount ==> powerups[i] == Place(rolls[i]))
      ensures !(IsSpace(key, code) && (!old(gameActive) || old(gameOver))) ==>
        && unchanged(player)
        && powerups == old(powerups) && score == old(score)
        && gameActive == old(gameActive) && gameOver == old(gameOver)
      ensures player.direction == old(player.direction) && player.moving == old(player.moving)
      ensures frameCount == old(frameCount)
      ensures old(Valid()) ==> Valid()
    {
      keys := keys[key := true];
      if IsSpace(key, code) {
        if !gameActive {
          StartGame(rolls);
        } else if gameOver {
          RestartGame(rolls);
        }
      }
    }

    /** A key is released: it is recorded as not held. */
    method KeyUp(key: string)
      modifies this`keys
      ensures keys == old(keys)[key := false]
      ensures !Pressed(keys, key)
    {
      keys := keys[key := false];
    }

    /**
     * Scans the powerups in order. Every uncollected one whose centre is
     * nearer than Reach to the player's centre is collected, adding
     * PointsPerPowerup to the score and SpeedBoost to the speed; the
     * collection that leaves none uncollected ends the session.
     */
    method CheckCollisions()
      requires Valid()
      modifies this`score, this`gameActive, this`gameOver, player`speed, powerups
      ensures Valid()
      ensures powerups[..] == Scan(old(powerups[..]), player.x, player.y)
      ensures score == old(score) + PointsPerPowerup * NewlyCollected(old(powerups[..]), player.x, player.y)
      ensures player.speed == old(player.speed) + SpeedBoost * NewlyCollected(old(powerups[..]), player.x, player.y) as real
      ensures NewlyCollected(old(powerups[..]), player.x, player.y) > 0 && AllCollected(powerups[..]) ==>
        !gameActive && gameOver
      ensures !(NewlyCollected(old(powerups[..]), player.x, player.y) > 0 && AllCollected(powerups[..])) ==>
        gameActive == old(gameActive) && gameOver == old(gameOver)
    {
      ghost var before := powerups[..];
      var i := 0;
      while i < powerups.Length
        invariant 0 <= i <= powerups.Length
        invariant forall j :: 0 <= j < i ==> powerups[j] == Visit(player.x, player.y, before[j])
        invariant forall j :: i <= j < powerups.Length ==> powerups[j] == before[j]
        invariant SessionValid()
        invariant if CollectedCount(powerups[..]) > CollectedCount(before) && AllCollected(powerups[..])
          then !gameActive && gameOver
          else gameActive == old(gameActive) && gameOver == old(gameOver)
      {
        var p := powerups[i];
        if !p.collected {
          var dx := player.x + PlayerSize / 2.0 - (p.x + PowerupSize / 2.0);
          var dy := player.y + PlayerSize / 2.0 - (p.y + PowerupSize / 2.0);
          CentreOffsets(player.x, player.y, p, dx, dy);
          if dx * dx + dy * dy < Reach * Reach {
            Collect(i);
          }
        }
        i := i + 1;
      }
      assert powerups[..] == Scan(before, player.x, player.y);
      ScanCount(before, player.x, player.y);
    }

    /**
     * Collects the uncollected powerup at index i during a scan: score and
     * speed grow by one powerup's worth, and the session ends when none is
     * left uncollected.
     */
    method Collect(i: nat)
      requires SessionValid() && i < powerups.Length && !powerups[i].collected
      modifies this`score, this`gameActive, this`gameOver, player`speed, powerups
      ensures SessionValid()
      ensures powerups[..] == old(powerups[..])[i := old(powerups[i]).(collected := true)]
      ensures CollectedCount(powerups[..]) == CollectedCount(old(powerups[..])) + 1
      ensures old(gameActive) && !old(gameOver)
      ensures AllCollected(powerups[..]) ==> !gameActive && gameOver
      ensures !AllCollected(powerups[..]) ==> gameActive && !gameOver
    {
      assert gameActive || gameOver;
      assert !AllCollected(powerups[..]);
      ghost var current := powerups[..];
      var p := powerups[i];
      powerups[i] := p.(collected := true);
      assert powerups[..] == current[i := p.(collected := true)];
      CountUpdate(current, i, p.(collected := true));
      score := score + PointsPerPowerup;
      player.speed := player.speed + SpeedBoost;
      var all := EveryCollected(powerups);
      if all {
        EndGame();
      }
    }

    /**
     * One iteration of the game loop: while a session is being played, the
     * player moves and then the powerups are scanned from the new position;
     * in any other phase nothing changes.
     */
    method Tick()
      requires Valid()
      modifies this`score, this`gameActive, this`gameOver, this`frameCount, player, powerups
      ensures Valid()
      ensures old(Phase()) != Playing ==> unchanged(this, player, powerups)
      ensures old(Phase()) == Playing ==>
        && player.x == Clamp(old(player.x) + Offset(old(player.speed), HeldKeys(keys).left, HeldKeys(keys).right), MaxPlayerX)
        && player.y == Clamp(old(player.y) + Offset(old(player.speed), HeldKeys(keys).up, HeldKeys(keys).down), MaxPlayerY)
        && player.moving == AnyHeld(HeldKeys(keys))
        && (Facing(HeldKeys(keys)).Some? ==>
              player.direction == Facing(HeldKeys(keys)).value && player.frameY == Row(player.direction))
        && (Facing(HeldKeys(keys)).None? ==>
              player.direction == old(player.direction) && player.frameY == old(player.frameY))
        && Anim(player.frameX, frameCount) == Animate(Anim(old(player.frameX), old(frameCount)), player.moving)
        && powerups[..] == Scan(old(powerups[..]), player.x, player.y)
        && score == old(score) + PointsPerPowerup * NewlyCollected(old(powerups[..]), player.x, player.y)
        && Phase() != Idle
        && (Phase() == Over <==> AllCollected(powerups[..]))
    {
      if gameActive && !gameOver {
        UpdatePlayer();
        CheckCollisions();
      }
    }

    /**
     * Moves the player by its speed for every held direction key, tested in
     * the order up, down, left, right, then keeps it on the canvas and
     * advances the animation clock.
     */
    method UpdatePlayer()
      requires Valid()
      modifies player`x, player`y, player`direction, player`frameX, player`frameY, player`moving,
        this`frameCount
      ensures Valid()
      ensures player.x == Clamp(old(player.x) + Offset(player.speed, HeldKeys(keys).left, HeldKeys(keys).right), MaxPlayerX)
      ensures player.y == Clamp(old(player.y) + Offset(player.speed, HeldKeys(keys).up, HeldKeys(keys).down), MaxPlayerY)
      ensures player.moving == AnyHeld(HeldKeys(keys))
      ensures Facing(HeldKeys(keys)).Some? ==>
        player.direction == Facing(HeldKeys(keys)).value && player.frameY == Row(player.direction)
      ensures Facing(HeldKeys(keys)).None? ==>
        player.direction == old(player.direction) && player.frameY == old(player.frameY)
      ensures Anim(player.frameX, frameCount) == Animate(Anim(old(player.frameX), old(frameCount)), player.moving)
    {
      ApplyKeys();
      KeepInBounds();
      AdvanceAnimation();
    }

    /** The first part of a movement update: every held direction key moves and turns the player. */
    method ApplyKeys()
      modifies player`x, player`y, player`direction, player`frameY, player`moving
      ensures player.x == old(player.x) + Offset(player.speed, HeldKeys(keys).left, HeldKeys(keys).right)
      ensures player.y == old(player.y) + Offset(player.speed, HeldKeys(keys).up, HeldKeys(keys).down)
      ensures player.moving == AnyHeld(HeldKeys(keys))
      ensures Facing(HeldKeys(keys)).Some? ==>
        player.direction == Facing(HeldKeys(keys)).value && player.frameY == Row(player.direction)
      ensures Facing(HeldKeys(keys)).None? ==>
        player.direction == old(player.direction) && player.frameY == old(player.frameY)
    {
      var h := HeldKeys(keys);
      player.moving := false;

      if h.up {
        player.y := player.y - player.speed;
        player.frameY := Row(Up);
        player.moving := true;
        player.direction := Up;
      }
      if h.down {
        player.y := player.y + player.speed;
        player.frameY := Row(Down);
        player.moving := true;
        player.direction := Down;
      }
      if h.left {
        player.x := player.x - player.speed;
        player.frameY := Row(Left);
        player.moving := true;
        player.direction := Left;
      }
      if h.right {
        player.x := player.x + player.speed;
        player.frameY := Row(Right);
        player.moving := true;
        player.direction := Right;
      }
    }

    /** The second part of a movement update: the player is pushed back onto the canvas. */
    method KeepInBounds()
      modifies player`x, player`y
      ensures player.x == Clamp(old(player.x), MaxPlayerX)
      ensures player.y == Clamp(old(player.y), MaxPlayerY)
    {
      if player.x < 0.0 { player.x := 0.0; }
      if player.x > GameWidth - PlayerSize { player.x := GameWidth - PlayerSize; }
      if player.y < 0.0 { player.y := 0.0; }
      if player.y > GameHeight - PlayerSize { player.y := GameHeight - PlayerSize; }
    }

    /** The last part of a movement update: one tick of the animation clock. */
    method AdvanceAnimation()
      modifies player`frameX, this`frameCount
      ensures Anim(player.frameX, frameCount) == Animate(Anim(old(player.frameX), old(frameCount)), player.moving)
    {
      frameCount := frameCount + 1;
      if player.moving && frameCount >= FrameDelay {
        player.frameX := (player.frameX + 1) % SpriteGridSize;
        frameCount := 0;
      }
    }
  }

  /**
   * An example of a collection, played through the operations: a
   * session starts with one powerup placed at (400, 300) and the others in
   * the top-left corner, and one collision scan from the starting position
   * collects that powerup alone, giving score 10 and speed 3.2.
   */
  method CentredSession() returns (score: nat, speed: real)
    ensures score == 10 && speed == 3.2
  {
    var game := new GameState();
    var rolls := [Roll(400.0 / 770.0, 300.0 / 570.0)] + seq(PowerupCount - 1, _ => Roll(0.0, 0.0));
    game.KeyDown(" ", "Space", rolls);
    ghost var placed := game.powerups[..];
    forall i | 0 <= i < |placed|
      ensures !placed[i].collected && (Touches(StartX, StartY, placed[i]) <==> i == 0)
    {
      assert placed[i] == Place(rolls[i]);
    }
    OnlyOneTouched(placed, StartX, StartY, 0);
    game.CheckCollisions();
    score, speed := game.score, game.player.speed;
  }
}
