/** Values the core exchanges with the engine: points, optional commands and emitted events. */
module Signals {
  datatype Option<T> = None | Some(value: T) {
    /** The carried value, or the default when there is none. */
    function GetOr(default: T): T {
      match this
      case Some(v) => v
      case None => default
    }
  }

  /** A particle-follow offset, added to the sprite's position (its centre, the default origin). */
  datatype Point = Point(x: real, y: real)

  /** The sounds the gameplay scene asks the audio system to play. */
  datatype Sound = PartCollect | JumpAudio | LandAudio

  /** The contact flags the physics body reports for one tick. */
  datatype Contact = Contact(down: bool, up: bool)

  /** Neither floor nor ceiling is touched. */
  predicate Airborne(c: Contact) {
    !c.down && !c.up
  }

  /** A request the core issues to the engine within one tick or event. */
  datatype Event =
    | PlaySound(sound: Sound)
    | EmitJumpBurst(anchor: Point, count: nat)
    | StartGameOver(died: bool)
}
