/** Fixed tunables of the platformer scene, as set when the scene is initialised. */
module Tuning {
  /** Base horizontal acceleration; the boosted rate is five times this. */
  const ACCELERATION: int := 400
  /** Multiplier of the boosted rate: left while `vx > 5`, right while `vx < 5` (standing still included). */
  const REVERSAL_FACTOR: int := 5
  /** Velocity (pixels per second) the held direction's boost test compares `vx` with. */
  const REVERSAL_THRESHOLD: real := 5.0
  /** Horizontal drag applied while no direction is held. */
  const DRAG: int := 1100
  /** Magnitude of the world gravity; its sign says which way is down. */
  const GRAVITY: int := 1500
  /** Vertical velocity of a jump off the floor (negative is towards the top of the level). */
  const JUMP_VELOCITY: int := -600
  /** Horizontal speed of the walking dust trail. */
  const PARTICLE_VELOCITY: int := 50
  /** Number of parts that wins the level. */
  const TARGET: int := 10
  /** The player dies above this height (pixels from the top of the level). */
  const TOP_MARGIN: real := 20.0
  /** Particles emitted by one jump burst. */
  const BURST_COUNT: nat := 10
}
