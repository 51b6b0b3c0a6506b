/** The constants of a run (components/game-level.tsx:59, 74-82, 154,
    486, 497-498). A run is configured by its level and by whether the
    device counts as mobile; both are fixed for the run. Lengths are in
    game-area pixels, times in milliseconds. */
module Config {
  import opened Types

  const PLAYER_SIZE: real := 85.0
  const GAME_WIDTH: real := 1000.0
  const GAME_HEIGHT: real := 700.0

  /** The player's fixed horizontal position and its starting height. */
  const PLAYER_X: real := 100.0
  const PLAYER_START_Y: real := 300.0

  /** The largest height the player's top edge may take before falling out. */
  const PLAYER_MAX_Y: real := GAME_HEIGHT - PLAYER_SIZE

  /** How far past the left edge an obstacle may scroll before it is dropped. */
  const PRUNE_MARGIN: real := 100.0

  /** Speed grows by SPEED_GROWTH each time the score total lands on a
      multiple of SCORE_MILESTONE that is at most ESCALATION_CEILING. */
  const SCORE_MILESTONE: int := 5
  const ESCALATION_CEILING: int := 50
  const SPEED_GROWTH: real := 1.05

  function Gravity(level: Level): real
  {
    if level == Easy then 0.3 else 0.5
  }

  function JumpForce(level: Level): real
  {
    if level == Easy then -6.0 else -8.0
  }

  function RiseForce(level: Level): real
  {
    if level == Easy then -0.4 else 0.0
  }

  /** The speed a run starts with. */
  function BaseSpeed(level: Level): real
  {
    if level == Easy then 3.0 else 4.0
  }

  /** The cap on the speed. */
  function MaxSpeed(level: Level, mobile: bool): real
  {
    if mobile then 5.0 else if level == Easy then 6.0 else 8.0
  }

  function TargetFps(mobile: bool): real
  {
    if mobile then 30.0 else 60.0
  }

  /** The nominal frame time: a frame of this length has step multiplier 1. */
  function FixedDelta(mobile: bool): real
  {
    1000.0 / TargetFps(mobile)
  }

  /** Frames that come sooner than this after the previous one are skipped. */
  function FrameThreshold(mobile: bool): real
  {
    if mobile then FixedDelta(mobile) * 1.5 else FixedDelta(mobile) * 0.8
  }

  /** The least time between two spawns. */
  function SpawnInterval(level: Level): int
  {
    if level == Easy then 1800 else 1500
  }

  /** How far each hitbox is inset from its sprite. */
  function PlayerPadding(mobile: bool): real
  {
    if mobile then 12.0 else 8.0
  }

  function ObstaclePadding(mobile: bool): real
  {
    if mobile then 20.0 else 15.0
  }
}
