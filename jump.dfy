/** The edge-triggered jump: a vertical velocity away from the touched surface, a sound and a particle burst. */
module Jump {
  import opened Tuning
  import opened Signals
  import Movement
  import O = Orientation

  /**
   * The vertical velocity a jump press commands, if any. Floor contact is tested first, so
   * when both floor and ceiling are touched the jump goes towards the top.
   */
  function JumpVelocity(down: bool, up: bool, justPressed: bool): (r: Option<int>)
    ensures r.Some? <==> justPressed && (down || up)
    ensures r.Some? && down ==> r.value == JUMP_VELOCITY && r.value < 0
    ensures r.Some? && !down ==> r.value == -JUMP_VELOCITY && r.value > 0
  {
    if down && justPressed then Some(JUMP_VELOCITY)
    else if up && justPressed then Some(-JUMP_VELOCITY)
    else None
  }

  /**
   * The follow offset of the jump burst, from the sprite's position (its centre):
   * `(displayWidth/2, displayHeight/2)`, the bottom-right corner, for a floor jump, and the
   * foot offset for a ceiling jump.
   */
  function BurstAnchor(down: bool, displayWidth: real, displayHeight: real, flipY: bool): (p: Point)
    ensures down ==> p == Point(displayWidth / 2.0, displayHeight / 2.0)
    ensures !down ==> p == Movement.FootPos(displayWidth, displayHeight, flipY)
  {
    if down then Point(displayWidth / 2.0, displayHeight / 2.0)
    else Movement.FootPos(displayWidth, displayHeight, flipY)
  }

  /**
   * Where the burst lands on the sprite, measured from its centre, for a consistent
   * orientation: a ceiling-contact jump bursts at the top edge when upside down and at the
   * feet when upright (a head-bump jump); a floor jump bursts 15 right of and 5 below the
   * upright foot anchor, the bottom-right corner.
   */
  lemma BurstAnchorPlacement(o: O.Orientation, displayWidth: real, displayHeight: real)
    requires O.Consistent(o)
    ensures BurstAnchor(false, displayWidth, displayHeight, o.flipY).y
            == if o.isUpDown then displayHeight / 2.0 - 25.0 else displayHeight / 2.0 - 5.0
    ensures BurstAnchor(true, displayWidth, displayHeight, o.flipY)
            == Point(Movement.FootPos(displayWidth, displayHeight, false).x + 15.0,
                     Movement.FootPos(displayWidth, displayHeight, false).y + 5.0)
  {
  }

  /** The events of the jump step: a jump sound followed by one ten-particle burst, or nothing. */
  function JumpEvents(down: bool, up: bool, justPressed: bool, displayWidth: real, displayHeight: real, flipY: bool)
    : (es: seq<Event>)
    ensures es != [] <==> JumpVelocity(down, up, justPressed).Some?
    ensures es != [] ==>
              && |es| == 2
              && es[0] == PlaySound(JumpAudio)
              && es[1] == EmitJumpBurst(BurstAnchor(down, displayWidth, displayHeight, flipY), BURST_COUNT)
  {
    if JumpVelocity(down, up, justPressed).Some? then
      [PlaySound(JumpAudio), EmitJumpBurst(BurstAnchor(down, displayWidth, displayHeight, flipY), BURST_COUNT)]
    else []
  }

  /**
   * A press while touching only the ceiling pushes the player towards the bottom, the
   * opposite of the configured jump velocity; touching both, the floor jump wins.
   */
  lemma CeilingOnlyJumpGoesDown()
    ensures JumpVelocity(false, true, true) == Some(-JUMP_VELOCITY)
    ensures JumpVelocity(true, true, true) == Some(JUMP_VELOCITY)
  {
  }
}
