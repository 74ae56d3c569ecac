/** The game's tuning constants and states (constants.py). Quantities that
    the game keeps as floats are given in thousandths of a pixel. */
module Constants {
  import opened Common
  import opened Geometry

  /** The base resolution: the size of the camera's viewport, in pixels. */
  const BASE_WIDTH: nat := 800
  const BASE_HEIGHT: nat := 600

  /** Physics, per frame: gravity 0.6 px/frame^2, terminal velocity 15,
      walking speed 5, jump impulse -13 (upward). */
  const GRAVITY: int := 600
  const MAX_FALL: int := 15 * SCALE
  const BASE_SPEED: int := 5 * SCALE
  const BASE_JUMP: int := -13 * SCALE

  /** Milliseconds per walk-animation frame. */
  const ANIMATION_SPEED: int := 200

  /** Milliseconds between completing a level and switching to the next. */
  const LEVEL_COMPLETE_DELAY: int := 3000

  /** Milliseconds of invincibility after a respawn. */
  const RESPAWN_INVINCIBLE_TIME: int := 1200

  /** The powerup kinds the player tracks a timer for. */
  const SPEED_BOOST: string := "speed_boost"
  const DOUBLE_JUMP: string := "double_jump"
  const INVINCIBILITY: string := "invincibility"

  /** POWERUP_DURATIONS[ptype], in milliseconds; None where the lookup
      raises KeyError. */
  function PowerupDuration(ptype: string): (d: Option<int>)
    ensures d.Some? <==> ptype in {SPEED_BOOST, DOUBLE_JUMP, INVINCIBILITY}
    ensures d.Some? ==> d.value > 0
  {
    if ptype == DOUBLE_JUMP then Some(15000)
    else if ptype == SPEED_BOOST then Some(8000)
    else if ptype == INVINCIBILITY then Some(6000)
    else None
  }

  datatype GameState = MainMenu | LevelSelect | Options | Playing | Paused
}
