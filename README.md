# Platformer gameplay core in Dafny

A model of the gameplay scene of a small 2D platformer built on an arcade-physics engine: the
per-tick player controller (horizontal acceleration and drag, animation selection, walking dust
trail, an edge-triggered jump that pushes away from whichever surface is touched), the gravity
flip bound to the G key, the part counter fed by coin overlaps, and the end-of-tick checks that
request the game-over scene (fall-off death and the ten-part win) and play the landing sound.

Engine calls become recorded values: the last commanded horizontal acceleration, drag and
vertical velocity are fields of the scene, the selected animation and the trail's state are
fields, and sounds, the jump particle burst and scene-change requests are returned as a
sequence of `Event`s in the order the source issues them.

Layout, one module per concern of `src/Scenes/Platformer.js`:

- `tuning.dfy` (`Tuning`): the constants set in `init` and the literals of the checks.
- `signals.dfy` (`Signals`): `Option`, `Point`, `Sound`, `Event`, and the per-tick `Contact` flags with `Airborne`.
- `orientation.dfy` (`Orientation`): gravity, sprite vertical flip and the upside-down flag; the
  invariant `flipY == isUpDown`, `isUpDown <==> gravity < 0`, gravity is 1500 or -1500.
- `movement.dfy` (`Movement`): the horizontal branch, facing, animation, trail, foot position.
- `jump.dfy` (`Jump`): jump velocity, burst anchor and jump events.
- `progress.dfy` (`Progress`): coins, the collected count and the on-screen counter text.
- `lifecycle.dfy` (`Lifecycle`): death/win requests and the landing detector over tick traces.
- `platformer.dfy` (`Platformer`): the `Scene` class with `Tick` (`update`, calling
  `DoPlayerMovement`), `ToggleGravity` and `CollectCoin`; each method's `ensures` states every field
  it may change in terms of the old state and the inputs (through the functions above, or
  directly for the small steps `CheckLanding` and `SteerHorizontally`), and `Tick`, `ToggleGravity`, `CollectCoin`,
  `DoPlayerMovement` and `SteerHorizontally` also keep `Valid()`.

Inputs the engine supplies each tick (`TickInput`): left/right held, "up just pressed",
`blocked.down`, `blocked.up`, the current horizontal velocity and the player's `y`. Sprite
display size, level height in pixels and the placed coins are constructor parameters.
The inputs (horizontal velocity, `y`) and the sizes and offsets are `real`; the commanded
values (`accelX`, `dragX`, `velocityY`, `trailSpeedX`) are `int`. The constants are integers, except the two
thresholds compared with reals (`REVERSAL_THRESHOLD` 5 and `TOP_MARGIN` 20), which are
integer-valued `real`s. Particle anchors are follow offsets from the sprite's position,
which is its centre (the player's origin is never changed from the default).
The player's `isFalling` is never initialised by the source, so it starts `undefined`, which
the landing test treats as false; the model starts it at `false`, which behaves the same.

Where the code does something one might not expect, the model follows the code:

- Pressing right with `velocity.x < 5`, standing still included, applies five times the base
  acceleration (`Movement.Steer`, `Movement.RightFromStandstill`); only left uses a
  symmetric "moving the other way" test (`velocity.x > 5`).
- The death check and the win check are independent `if`s: one tick can request both, death
  first (`Lifecycle.Requests`, `Lifecycle.DeathAndWinSameTick`). A reader might expect a
  first-reached-wins outcome; the code instead runs two independent checks with no early exit.
- A walking branch without surface contact neither starts nor stops the dust trail; it stays as
  it was (`Movement.TrailOn`).

## Model

| member | source | states |
|---|---|---|
| `Orientation.Initial` | src/Scenes/Platformer.js:6-17 | the scene starts with downward gravity, upright sprite, and the orientation invariant holding |
| `Orientation.FlippedGravity` | src/Scenes/Platformer.js:97 | the new gravity is upward exactly when the old one was downward, and is always 1500 or -1500 |
| `Orientation.Toggle` | src/Scenes/Platformer.js:96-101 | the G key negates `flipY` and `isUpDown`, and on a consistent orientation negates gravity and keeps the invariant |
| `Orientation.Face` | src/Scenes/Platformer.js:207-229 | `setFlip(_, isUpDown)` sets `flipY` to `isUpDown` and is a no-op on a consistent orientation |
| `Orientation.ToggleTwice` | src/Scenes/Platformer.js:96-101 | two G presses restore the original orientation |
| `Orientation.ConsistentUnderPresses` | src/Scenes/Platformer.js:96-101 | any sequence of toggles and walking re-syncs keeps the invariant, and the scene is upside down iff an odd number of toggles happened |
| `Movement.Steer` | src/Scenes/Platformer.js:199-251 | left has priority and accelerates negatively, right positively, neither gives 0 and sets drag; the boosted 5x rate applies exactly for left with `vx > 5` or right with `vx < 5`, the base rate otherwise |
| `Movement.FacingX` | src/Scenes/Platformer.js:207-229 | case table of `setFlip`'s first argument; its meaning is `Movement.FacingFollowsPush` |
| `Movement.FacingFollowsPush` | src/Scenes/Platformer.js:199-251 | the sprite ends the tick mirrored exactly when it is pushed right (positive acceleration), and keeps its facing while coasting |
| `Movement.SelectAnim` | src/Scenes/Platformer.js:208-258 | the final animation is "jump" iff neither side is blocked, "walk" iff a direction is held while touching, "idle" iff none is held while touching |
| `Movement.TrailOn` | src/Scenes/Platformer.js:216-250 | the trail is on after the tick iff a direction is held and it was on or a surface is touched; idle always stops it |
| `Movement.FootPos` | src/Scenes/Platformer.js:272-285 | the foot anchor's x offset from the sprite's position (its centre) is `displayWidth/2 - 15`; its y and the flip relation are in `Movement.FootPosFlipped` |
| `Movement.FootPosFlipped` | src/Scenes/Platformer.js:272-285 | x does not depend on `flipY`; the flipped anchor is exactly 20 higher; unflipped y is `displayHeight/2 - 5` |
| `Movement.RightFromStandstill` | src/Scenes/Platformer.js:222-225 | right from `vx == 0` gets `5*ACCELERATION` |
| `Jump.JumpVelocity` | src/Scenes/Platformer.js:259-265 | a jump happens iff up was just pressed and a surface is touched; floor contact (winning over ceiling) gives -600, ceiling-only contact +600 |
| `Jump.BurstAnchor` | src/Scenes/Platformer.js:262-267 | the floor-jump burst is offset `(displayWidth/2, displayHeight/2)` from the sprite's position, the ceiling-jump burst by the foot offset; where that lands is `Jump.BurstAnchorPlacement` |
| `Jump.BurstAnchorPlacement` | src/Scenes/Platformer.js:262-267 | with a consistent orientation, a ceiling-contact burst sits at the top edge when upside down and at the feet when upright; a floor-jump burst sits 15 right of and 5 below the upright foot anchor (the bottom-right corner) |
| `Jump.JumpEvents` | src/Scenes/Platformer.js:259-269 | a jump emits exactly the jump sound then one ten-particle burst; no jump emits nothing |
| `Jump.CeilingOnlyJumpGoesDown` | src/Scenes/Platformer.js:259-265 | a press touching only the ceiling commands `-JUMP_VELOCITY` (+600); with both contacts the floor jump (-600) wins |
| `Progress.Start` | src/Scenes/Platformer.js:15 | a scene starts with nothing collected, every placed coin in the level, so collected plus remaining equals the placed count |
| `Progress.Collect` | src/Scenes/Platformer.js:73-79 | an overlap removes that coin, raises the count by exactly one and keeps collected plus remaining coins |
| `Progress.CollectAll` | src/Scenes/Platformer.js:73-79 | overlaps with N distinct coins remove exactly those coins and raise the count by N |
| `Progress.CollectAllCounts` | src/Scenes/Platformer.js:73-79 | after N distinct overlaps N fewer coins remain and collected plus remaining is unchanged |
| `Progress.Decimal` | src/Scenes/Platformer.js:78 | the rendered count is a non-empty string of decimal digits with no leading zero |
| `Progress.DecimalRoundTrip` | src/Scenes/Platformer.js:78 | reading the rendered digits back gives the count |
| `Progress.CountText` | src/Scenes/Platformer.js:78 | the counter text has the "Parts Collected: " prefix and " / 10" suffix |
| `Progress.CountTextShowsCollected` | src/Scenes/Platformer.js:78 | the count a reader sees in the counter text equals `collected` |
| `Lifecycle.Requests` | src/Scenes/Platformer.js:161-169 | a death request is issued iff `y > heightInPixels` or `y < 20`, a win request iff `collected == 10`; when both, death comes first |
| `Lifecycle.DeathAndWinSameTick` | src/Scenes/Platformer.js:161-169 | a tick below the level at ten parts requests both outcomes, death first |
| `Lifecycle.LandStep` | src/Scenes/Platformer.js:173-177 | the landing sound fires iff floor contact while falling; afterwards the flag is set iff airborne or still falling without floor contact; ceiling contact never fires or clears it |
| `Lifecycle.FallingAfterIsArmed` | src/Scenes/Platformer.js:173-177 | after k ticks `isFalling` holds iff some tick was airborne with no floor contact since, or it started set with no floor contact at all |
| `Lifecycle.LandsIff` | src/Scenes/Platformer.js:173-177 | tick k plays the landing sound iff it touches the floor and the player has been airborne since the last floor contact |
| `Lifecycle.LandingsSeparated` | src/Scenes/Platformer.js:173-177 | between any two landing sounds there is an airborne tick |
| `Lifecycle.GroundedLandsOnce` | src/Scenes/Platformer.js:173-177 | any number of grounded ticks plays the landing sound at most once, on the first, and leaves `isFalling` clear |
| `Lifecycle.FallThenLand` | src/Scenes/Platformer.js:255-258 | three airborne ticks keep `isFalling` set and the following floor tick lands exactly once |
| `Platformer.Scene.constructor` | src/Scenes/Platformer.js:6-17 | the initial state: gravity 1500, not upside down, nothing collected, counter "Parts Collected: 0 / 10", trail stopped |
| `Platformer.Scene.ToggleGravity` | src/Scenes/Platformer.js:96-101 | gravity, `flipY` and `isUpDown` become the toggled orientation, all else unchanged, invariant kept |
| `Platformer.Scene.CollectCoin` | src/Scenes/Platformer.js:73-79 | the coin leaves the level, the count rises by one, the counter shows the new count, the collect sound plays |
| `Platformer.Scene.Tick` | src/Scenes/Platformer.js:156-177 | every field after a tick is the movement, jump and landing functions of the old state and the inputs; orientation and progress are unchanged; events are jump events, then death/win requests, then the landing sound |
| `Platformer.Scene.CheckOutcome` | src/Scenes/Platformer.js:160-169 | the two independent checks produce exactly `Lifecycle.Requests` |
| `Platformer.Scene.CheckLanding` | src/Scenes/Platformer.js:173-177 | floor contact while falling plays the landing sound and clears the flag; otherwise nothing |
| `Platformer.Scene.DoPlayerMovement` | src/Scenes/Platformer.js:198-270 | the horizontal branch, the airborne override (animation "jump", `isFalling` set) and the jump, as the functions above say |
| `Platformer.Scene.SteerHorizontally` | src/Scenes/Platformer.js:199-251 | acceleration and drag follow `Steer`, `flipY` is re-synced to `isUpDown`, the trail anchor is the foot position |
| `Platformer.Scene.JumpOnPress` | src/Scenes/Platformer.js:259-269 | the vertical velocity follows `JumpVelocity` and the events follow `JumpEvents` |
| `Platformer.FlipThenCeilingJump` | src/Scenes/Platformer.js:96-101 | flipping gravity on the floor, then pressing up against the ceiling, leaves the scene consistent and upside down and commands +600 |

## Left out

- Scene setup in `preload` and `create` (tilemap, tileset and layer loading, creating coin
  objects, world and camera bounds, zoom, animated tiles, background music, backgrounds and text
  objects): engine and asset plumbing. The level's coins, height and the sprite size enter as
  constructor parameters.
- Physics integration and collision resolution: how acceleration, drag and gravity move the
  body and how `blocked.down`/`blocked.up` are computed belong to the engine; they are inputs,
  and the model records the commands it issues.
- `Platformer.Scene.Tick`: "up just pressed" is a plain input. In the engine the key's
  just-down latch is cleared when consulted or when the key is released, and the source consults
  it only while a surface is touched; that latch lives in the input layer and is not modelled.
- Audio, particle and animation rendering: modelled only as emitted events, the selected
  animation name and the trail's on/off state, follow offset and speed. Restarting an animation
  that is already playing is not modelled.
- Camera work: the parallax offsets, the `cameraupdate` listener and `updateTextPosition`
  (presentation only).
- The D-key debug-drawing toggle: a display flag with no game logic.
- What the scene manager does with two scene-change requests in one tick: the model records
  both requests in order.
- `src/Scenes/GameOver.js`: a UI scene that picks one of two messages from `died` and restarts
  on Enter; it is not part of this model.
- Floating point: positions, velocities and sizes are exact `real`s, so IEEE rounding is not
  modelled; every constant and comparison in the source is exact at these magnitudes.
