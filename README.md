# Walking sprite game: a verified model of the game state

This project models the game-state logic of a small browser arcade game
(`src/main.js`). A player sprite walks around an 800×600 canvas, driven by the
arrow keys or WASD. It collects ten randomly placed powerups. Each one is worth
10 points and makes the player faster. The session ends when every powerup has
been collected. The space key starts a session.

The model follows the source's shape. One mutable state object, `GameState`,
holds the source's `gameState` record and the module-level `frameCount`
counter. The player record is a `Player` object that is updated in place, and
the powerups are an `array` of records whose `collected` flag is set in place.
The operations are methods that change this state: the key handlers, starting,
restarting and ending a session, the movement update, the collision scan and
one iteration of the game loop. Each method is proved against pure
specification functions, and lemmas prove what the source promises about those
functions.

Modules:

- `Config`: the game's constants (canvas, player and powerup sizes, speed,
  boost, points, sprite grid, frame delay).
- `Sprite`: directions, their rows in the sprite atlas, and the animation clock
  (`Animate`, iterated as `Animated`).
- `Movement`: which movement keys are held, the facing after a tick (`Facing`),
  the per-axis displacement (`Offset`) and the clamp to the canvas (`Clamp`).
- `Powerups`: powerup records, their placement from random draws, the squared
  distance test, the collection scan as a function (`Scan`) and the counts of
  collected powerups.
- `Game`: the classes `Player` and `GameState` and the operations.

The class invariant `GameState.Valid()` states what holds between any two
events:

- The player lies within [0, 704] × [0, 504] and shows a valid sprite cell.
- Every powerup lies within [0, 770] × [0, 570].
- `score = 10·k` and `speed = 3 + 0.2·k`, where k is the number of collected
  powerups.
- The two flags encode one of three phases. Idle has no powerups. Playing has
  ten powerups and at least one uncollected. Over has ten powerups, all
  collected.

The model follows the code as written, including two behaviours that a player
of the game might not expect:

- `endGame` clears `gameActive`. The next space press after game over
  therefore takes the `startGame` branch, not `restartGame`. Both perform the
  same reset, modelled once as `ResetSession`.
- `frameCount` and the player's `direction` (and `moving` flag) are not reset
  when a session starts. The lemma `StandingStill` shows that the counter keeps
  running while the player stands still.

## Model

| member | source | states |
|---|---|---|
| `Sprite.Row` | src/main.js:204-227 | every direction maps to a row of the 4-row sprite atlas (up 0, right 1, down 2, left 3) |
| `Sprite.RowsDistinct` | src/main.js:204-227 | no two directions share an atlas row |
| `Sprite.Animate` | src/main.js:239-244 | one animation tick keeps the column below 4; the column changes exactly when moving and the incremented counter reaches 5, then becomes (frameX+1) mod 4 with the counter at 0, otherwise the counter just increments; while moving the counter stays below 5 |
| `Sprite.StandingStill` | src/main.js:239-244 | n ticks without moving leave the column unchanged and add n to the counter, which is never reset while standing still |
| `Sprite.OneFrame` | src/main.js:239-244 | from a reset counter, 5 ticks of movement show the next column |
| `Sprite.WalkingCycle` | src/main.js:239-244 | 5·k ticks of uninterrupted movement from a reset counter advance the column by k modulo 4 |
| `Movement.KeyEvent` | src/main.js:102-117 | recording a key-down or key-up for one key decides whether that key is held and leaves every other key as it was, so a key is held exactly when its last event was a key-down |
| `Movement.OtherKeysIgnored` | src/main.js:204-222 | an event for a key bound to no direction (anything but the four arrow keys and w, s, a, d, for instance space or an upper-case W) never changes which directions are held |
| `Movement.Facing` | src/main.js:204-227 | the direction set by a tick is the held direction tested last in the order up, down, left, right; no direction is set exactly when none is held |
| `Movement.Offset` | src/main.js:204-227 | one axis moves by −speed when only its minus key (up or left) is held, by +speed when only its plus key (down or right) is held, and not at all when both or neither are held |
| `Movement.Clamp` | src/main.js:229-237 | the clamped coordinate lies in [0, hi] and is the point of [0, hi] nearest the unclamped one |
| `Powerups.Place` | src/main.js:89-97 | a powerup placed from two draws in [0, 1) lies within [0, 770] × [0, 570] and is not collected |
| `Powerups.SquaredDistance` | src/main.js:176-180 | the squared distance between the centres of the player and a powerup is never negative, and is 0 when the centres coincide |
| `Powerups.Touches` | src/main.js:176-180 | a player whose centre lies on the powerup's centre touches it; a player that touches a powerup has its centre less than 63 from the powerup's centre along each axis |
| `Powerups.DistanceTest` | src/main.js:176-180 | comparing the squared distance with 63² agrees with comparing the Euclidean distance with 48 + 15 |
| `Powerups.CentredExample` | src/main.js:176-184 | a player at its start (352, 252) collects a powerup at (400, 300) |
| `Powerups.Visit` | src/main.js:175-182 | a visit never moves a powerup; afterwards it is collected exactly when it already was or the player touches it |
| `Powerups.Scan` | src/main.js:173-184 | a scan keeps the number of powerups and visits each of them independently |
| `Powerups.CollectedCount` | src/main.js:188 | the number of collected powerups is at most their number, and equals it exactly when every powerup is collected |
| `Powerups.ScanCount` | src/main.js:174-184 | a scan increases the collected count by exactly the number of uncollected powerups the player touches |
| `Powerups.RescanCollectsNothing` | src/main.js:175 | a second scan from the same position collects nothing, so score and speed change only once per powerup |
| `Powerups.CountUpdate` | src/main.js:182 | setting one powerup changes the collected count by the difference of the old and new flags |
| `Powerups.NoneCollected` | src/main.js:88-97 | freshly placed powerups have a collected count of 0 |
| `Powerups.NoneTouched` | src/main.js:175-180 | a scan in which the player touches no uncollected powerup collects nothing |
| `Powerups.OnlyOneTouched` | src/main.js:175-184 | a scan over uncollected powerups of which the player touches exactly one collects exactly one |
| `Powerups.EveryCollected` | src/main.js:188 | the check over the array answers true exactly when every powerup is collected |
| `Game.Player.constructor` | src/main.js:17-27 | the initial player is at (352, 252) with speed 3, facing down, column 0, row 2, not moving |
| `Game.GameState.constructor` | src/main.js:16-33 | the initial state is valid and idle, with no powerups, score 0, no key held and the counter at 0 (src/main.js:197) |
| `Game.GameState.GeneratePowerups` | src/main.js:87-98 | a new array of exactly 10 uncollected powerups replaces the old one, each placed by its draws within the canvas |
| `Game.GameState.ResetSession` | src/main.js:125-134 | the session becomes Playing with score 0, speed 3, position (352, 252), column 0, row 2 and 10 fresh powerups; direction, moving flag, counter and keys are kept; the invariant holds |
| `Game.GameState.StartGame` | src/main.js:121-136 | starting performs the session reset |
| `Game.GameState.RestartGame` | src/main.js:139-154 | restarting performs the same session reset as starting |
| `Game.GameState.EndGame` | src/main.js:157-159 | ending clears gameActive and sets gameOver |
| `Game.GameState.KeyDown` | src/main.js:102-113 | the key is recorded as held; space resets and starts a session when none is being played, and otherwise nothing but the key map changes; the invariant is preserved |
| `Game.GameState.KeyUp` | src/main.js:115-117 | the key is recorded as not held and nothing else changes |
| `Game.GameState.CheckCollisions` | src/main.js:173-194 | the powerups become the scan of the old ones at the player's position; score and speed grow by 10 and 0.2 per newly collected powerup; the session ends exactly when the scan collected something and none is left; the invariant is preserved |
| `Game.GameState.Collect` | src/main.js:181-190 | collecting an uncollected powerup sets only its flag, raises the collected count by one, keeps score = 10·k and speed = 3 + 0.2·k, and ends the session exactly when none is left uncollected |
| `Game.GameState.UpdatePlayer` | src/main.js:201-245 | the new position is the clamped sum of the held keys' displacements, so it stays on the canvas; moving is set exactly when a direction key is held; facing and row follow `Facing`; the column and counter follow `Animate`; the invariant is preserved |
| `Game.GameState.ApplyKeys` | src/main.js:202-227 | held keys displace the position by `Offset` on each axis and set the moving flag, facing and row |
| `Game.GameState.KeepInBounds` | src/main.js:229-237 | each coordinate is replaced by its clamp to the canvas |
| `Game.GameState.AdvanceAnimation` | src/main.js:239-244 | the column and counter take one `Animate` step |
| `Game.CentredSession` | src/main.js:173-185 | a session started by space with a powerup at (400, 300) and the rest far away, scanned once from the start position, has score 10 and speed 3.2 |
| `Game.GameState.Tick` | src/main.js:280-288 | outside Playing, a tick changes nothing; while Playing, it moves the player by the held keys and clamps it to the canvas, sets the moving flag, facing and row as `UpdatePlayer` does, takes one `Animate` step, then scans from the new position, adding 10 points per newly collected powerup, and the session is Over afterwards exactly when every powerup is collected |

## Left out

- Screens and text (`createScreens`, the `classList` toggles, `updateScore` and the final-score text): DOM output only. Because `endGame` clears `gameActive`, a space press after game over runs `startGame`, which hides the start screen, and not `restartGame`, which is the function that hides the game-over screen.
- `loadAssets` and `draw`: `loadAssets` stores the two sprite images in `gameState`; only `draw` reads them, and neither affects the modelled state.
- `requestAnimationFrame` scheduling and `window.onload`/`init`: one iteration of `gameLoop` is the method `Tick`; the endless rescheduling is not modelled.
- `Math.random`: every draw is an input `Roll` component in [0, 1). A start takes the ten pairs of draws it would make as a parameter.
- `Math.sqrt`: the scan compares squared distances, and `DistanceTest` proves this agrees with comparing distances.
- Floating point: positions and speed are exact reals. IEEE rounding of `y -= speed; y += speed` and of the accumulated `speed += 0.2` is not modelled.
- The `width` and `height` fields of the player and of each powerup are never changed by the source. They are the constants `PlayerSize` and `PowerupSize` rather than fields.
- The `e.key` values of upper-case letters (with Shift or Caps Lock) are distinct keys, as in the source. Nothing beyond exact string keys is modelled.
- `vite.config.js`: build configuration, no game logic.
