/** Gravity orientation: the world gravity, the player sprite's vertical flip and the scene's upside-down flag. */
module Orientation {
  import opened Tuning

  datatype Orientation = Orientation(gravity: int, flipY: bool, isUpDown: bool)

  /** The orientation every scene (re)start begins in: gravity down, sprite upright. */
  function Initial(): (o: Orientation)
    ensures Consistent(o) && !o.isUpDown && o.gravity > 0
  {
    Orientation(GRAVITY, false, false)
  }

  /**
   * The invariant the scene keeps: the sprite is flipped exactly when the scene is upside
   * down, upside down means gravity points to the top, and gravity is one of its two values.
   */
  predicate Consistent(o: Orientation) {
    && o.flipY == o.isUpDown
    && (o.isUpDown <==> o.gravity < 0)
    && (o.gravity == GRAVITY || o.gravity == -GRAVITY)
  }

  /** The gravity value the G key installs: downward gravity becomes upward and anything else downward. */
  function FlippedGravity(g: int): (r: int)
    ensures r < 0 <==> g > 0
    ensures r == GRAVITY || r == -GRAVITY
  {
    if g > 0 then -GRAVITY else GRAVITY
  }

  /** The G-key handler: new gravity, and both the sprite flip and the scene flag negated. */
  function Toggle(o: Orientation): (r: Orientation)
    ensures r.flipY == !o.flipY && r.isUpDown == !o.isUpDown
    ensures Consistent(o) ==> Consistent(r) && r.gravity == -o.gravity
  {
    Orientation(FlippedGravity(o.gravity), !o.flipY, !o.isUpDown)
  }

  /** `setFlip(_, isUpDown)`: a walking branch re-syncs the sprite's vertical flip with the scene flag. */
  function Face(o: Orientation): (r: Orientation)
    ensures r.flipY == o.isUpDown && r.isUpDown == o.isUpDown && r.gravity == o.gravity
    ensures Consistent(o) ==> r == o
  {
    o.(flipY := o.isUpDown)
  }

  /** Two presses of the G key restore the orientation they started from. */
  lemma ToggleTwice(o: Orientation)
    requires Consistent(o)
    ensures Toggle(Toggle(o)) == o
  {
  }

  /** Whatever sequence of toggles and re-syncs is applied, the invariant holds throughout. */
  lemma {:induction false} ConsistentUnderPresses(o: Orientation, presses: seq<bool>)
    requires Consistent(o)
    ensures Consistent(Presses(o, presses))
    ensures Presses(o, presses).isUpDown == (o.isUpDown != Odd(presses))
  {
    if presses != [] {
      ConsistentUnderPresses(o, presses[..|presses| - 1]);
    }
  }

  /** Applies, in order, a toggle for each `true` and a walking re-sync for each `false`. */
  function Presses(o: Orientation, presses: seq<bool>): Orientation
  {
    if presses == [] then o
    else
      var before := Presses(o, presses[..|presses| - 1]);
      if presses[|presses| - 1] then Toggle(before) else Face(before)
  }

  /** True when the sequence holds an odd number of toggles. */
  function Odd(presses: seq<bool>): bool
  {
    if presses == [] then false
    else Odd(presses[..|presses| - 1]) != presses[|presses| - 1]
  }
}
