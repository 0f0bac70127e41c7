/** Horizontal control, animation selection and the walking dust trail of the player. */
module Movement {
  import opened Tuning
  import opened Signals

  /** The animation the player sprite is told to play; `NoAnim` before the first tick. */
  datatype Anim = NoAnim | Idle | Walk | JumpAnim

  /** What the horizontal branch tells the physics body: an acceleration, and whether drag is (re)set to DRAG. */
  datatype Horizontal = Horizontal(accel: int, setsDrag: bool)

  /**
   * The three-way horizontal branch: left is tested first, then right, otherwise the
   * player coasts on drag. Pressing against the motion beyond the threshold applies
   * five times the base acceleration; for right the test is `vx < 5`, which includes standing still.
   */
  function Steer(left: bool, right: bool, vx: real): (r: Horizontal)
    ensures left ==> r.accel < 0
    ensures !left && right ==> r.accel > 0
    ensures !left && !right <==> r.accel == 0
    ensures r.setsDrag <==> !left && !right
    ensures r.accel == REVERSAL_FACTOR * ACCELERATION || r.accel == -REVERSAL_FACTOR * ACCELERATION
            <==> (left && vx > REVERSAL_THRESHOLD) || (!left && right && vx < REVERSAL_THRESHOLD)
    ensures r.accel == ACCELERATION || r.accel == -ACCELERATION
            <==> (left && vx <= REVERSAL_THRESHOLD) || (!left && right && vx >= REVERSAL_THRESHOLD)
  {
    if left then
      if vx > REVERSAL_THRESHOLD then Horizontal(-ACCELERATION * REVERSAL_FACTOR, false)
      else Horizontal(-ACCELERATION, false)
    else if right then
      if vx < REVERSAL_THRESHOLD then Horizontal(ACCELERATION * REVERSAL_FACTOR, false)
      else Horizontal(ACCELERATION, false)
    else Horizontal(0, true)
  }

  /** Horizontal mirror after the tick: left faces unmirrored, right mirrored, idle leaves it. */
  function FacingX(flipX: bool, left: bool, right: bool): (r: bool)
    ensures left ==> !r
    ensures !left && right ==> r
    ensures !left && !right ==> r == flipX
  {
    if left then false else if right then true else flipX
  }

  /**
   * The animation selected by the end of the movement step: "jump" whenever airborne
   * (it is played after, and so overrides, "walk" or "idle"), else "walk" while a
   * direction is held and "idle" otherwise.
   */
  function SelectAnim(left: bool, right: bool, down: bool, up: bool): (r: Anim)
    ensures r == JumpAnim <==> Airborne(Contact(down, up))
    ensures r == Walk <==> (left || right) && (down || up)
    ensures r == Idle <==> !left && !right && (down || up)
    ensures r != NoAnim
  {
    var walking := if left || right then Walk else Idle;
    if Airborne(Contact(down, up)) then JumpAnim else walking
  }

  /**
   * Whether the walking trail emits after the tick. A walking branch starts it only when a
   * surface is touched and otherwise leaves it as it was; the idle branch stops it.
   */
  function TrailOn(wasOn: bool, left: bool, right: bool, down: bool, up: bool): (r: bool)
    ensures r <==> (left || right) && (wasOn || down || up)
    ensures !left && !right ==> !r
    ensures (left || right) && !Airborne(Contact(down, up)) ==> r
  {
    if left || right then (if down || up then true else wasOn) else false
  }

  /**
   * Offset of the player's feet from the sprite's position (its centre), used to anchor the
   * dust trail and the ceiling-jump burst: x is `displayWidth/2 - 15`, 15 in from the right
   * edge; y is near the bottom edge, or near the top edge when flipped.
   */
  function FootPos(displayWidth: real, displayHeight: real, flipY: bool): (p: Point)
    ensures p.x == displayWidth / 2.0 - 15.0
  {
    var footX := displayWidth / 2.0 - 15.0;
    var footY := if flipY then displayHeight / 2.0 - 25.0 else displayHeight / 2.0 - 5.0;
    Point(footX, footY)
  }

  /** Flipping moves the foot anchor exactly 20 towards the top of the sprite and leaves its x alone. */
  lemma FootPosFlipped(displayWidth: real, displayHeight: real)
    ensures FootPos(displayWidth, displayHeight, true).x == FootPos(displayWidth, displayHeight, false).x
    ensures FootPos(displayWidth, displayHeight, true).y == FootPos(displayWidth, displayHeight, false).y - 20.0
    ensures FootPos(displayWidth, displayHeight, false).y == displayHeight / 2.0 - 5.0
  {
  }

  /**
   * The sprite ends the tick mirrored exactly when it is being pushed right, and keeps its
   * facing while coasting with no direction held.
   */
  lemma FacingFollowsPush(flipX: bool, left: bool, right: bool, vx: real)
    ensures FacingX(flipX, left, right)
            <==> Steer(left, right, vx).accel > 0 || (Steer(left, right, vx).accel == 0 && flipX)
  {
  }

  /** Standing still and pressing right gets the boosted rate, not the base one. */
  lemma RightFromStandstill()
    ensures Steer(false, true, 0.0) == Horizontal(REVERSAL_FACTOR * ACCELERATION, false)
  {
  }
}
