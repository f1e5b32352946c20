/** Fixed dimensions and tuning values of the game (src/main.js:4-13 and 198). */
module Config {
  /** Size of the canvas. */
  const GameWidth: real := 800.0
  const GameHeight: real := 600.0

  /** Player speed at the start of every session, in canvas units per tick. */
  const PlayerSpeed: real := 3.0
  /** Number of powerups placed at the start of every session. */
  const PowerupCount: nat := 10
  /** Width and height of a powerup. */
  const PowerupSize: real := 30.0
  /** Speed added to the player for every powerup collected. */
  const SpeedBoost: real := 0.2
  /** Score added for every powerup collected. */
  const PointsPerPowerup: nat := 10
  /** The player sprite atlas is a grid of this many columns (animation phases) and rows (directions). */
  const SpriteGridSize: nat := 4
  /** Width and height at which the player is drawn and tested for collisions. */
  const PlayerSize: real := 96.0
  /** Number of ticks between two animation frames while moving. */
  const FrameDelay: nat := 5

  /** Largest coordinates that keep the player on the canvas. */
  const MaxPlayerX: real := GameWidth - PlayerSize
  const MaxPlayerY: real := GameHeight - PlayerSize
  /** Largest coordinates at which a powerup is placed. */
  const MaxPowerupX: real := GameWidth - PowerupSize
  const MaxPowerupY: real := GameHeight - PowerupSize
  /** Centred starting position of the player. */
  const StartX: real := GameWidth / 2.0 - PlayerSize / 2.0
  const StartY: real := GameHeight / 2.0 - PlayerSize / 2.0
}
