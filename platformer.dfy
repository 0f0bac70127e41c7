/**
 * The gameplay scene: the state `init` sets up, the per-tick `update` with its movement
 * step, and the two discrete handlers (the G key and a coin overlap).
 */
module Platformer {
  import opened Tuning
  import opened Signals
  import O = Orientation
  import opened Movement
  import Jump
  import P = Progress
  import L = Lifecycle

  /** What the engine and the input layer report at the start of one tick. */
  datatype TickInput = TickInput(
    left: bool,          // left arrow held
    right: bool,         // right arrow held
    upJustPressed: bool, // up arrow went down since it was last consulted
    blockedDown: bool,   // the body touches solid geometry below
    blockedUp: bool,     // the body touches solid geometry above
    velocityX: real,     // current horizontal velocity of the body
    y: real)             // current vertical position of the player

  class Scene {
    /** Sprite display size, level height in pixels and the number of coins the level places. */
    const displayWidth: real
    const displayHeight: real
    const levelHeight: real
    const placedCoins: nat

    // orientation
    var gravity: int
    var isUpDown: bool
    var flipX: bool
    var flipY: bool
    // player body and sprite
    var isFalling: bool
    var accelX: int
    var dragX: int
    var velocityY: int
    var anim: Anim
    // walking dust trail
    var trailOn: bool
    var trailAnchor: Point
    var trailSpeedX: int
    // progress
    var collected: nat
    var coins: set<P.Coin>
    var countText: string

    function OrientState(): O.Orientation
      reads this
    {
      O.Orientation(gravity, flipY, isUpDown)
    }

    function ProgressState(): P.Progress
      reads this
    {
      P.Progress(collected, coins)
    }

    /** The scene invariant: a consistent orientation, every placed coin either collected or still in the level, and an up-to-date counter. */
    predicate Valid()
      reads this
    {
      && O.Consistent(OrientState())
      && collected + |coins| == placedCoins
      && countText == P.CountText(collected)
    }

    /** `init` and the parts of `create` that set gameplay state. */
    constructor (displayWidth: real, displayHeight: real, levelHeight: real, placed: set<P.Coin>)
      ensures Valid()
      ensures this.displayWidth == displayWidth && this.displayHeight == displayHeight
      ensures this.levelHeight == levelHeight && placedCoins == |placed|
      ensures OrientState() == O.Initial() && !flipX
      ensures ProgressState() == P.Start(placed) && countText == "Parts Collected: 0 / 10"
      ensures !isFalling && accelX == 0 && dragX == 0 && velocityY == 0 && anim == NoAnim
      ensures !trailOn && trailAnchor == Point(0.0, 0.0) && trailSpeedX == 0
    {
      this.displayWidth := displayWidth;
      this.displayHeight := displayHeight;
      this.levelHeight := levelHeight;
      placedCoins := |placed|;
      gravity := GRAVITY;
      isUpDown := false;
      flipX, flipY := false, false;
      isFalling := false;
      accelX, dragX, velocityY := 0, 0, 0;
      anim := NoAnim;
      trailOn, trailAnchor, trailSpeedX := false, Point(0.0, 0.0), 0;
      collected := 0;
      coins := placed;
      countText := P.CountText(0);
    }

    /** The G-key handler. */
    method ToggleGravity()
      requires Valid()
      modifies this`gravity, this`flipY, this`isUpDown
      ensures Valid()
      ensures OrientState() == O.Toggle(old(OrientState()))
      ensures gravity == -old(gravity) && isUpDown == !old(isUpDown) && flipY == isUpDown
    {
      gravity := if gravity > 0 then -GRAVITY else GRAVITY;
      flipY := !flipY;
      isUpDown := !isUpDown;
    }

    /** The overlap handler for the player and a coin still in the level. */
    method CollectCoin(c: P.Coin) returns (events: seq<Event>)
      requires Valid() && c in coins
      modifies this`coins, this`collected, this`countText
      ensures Valid()
      ensures ProgressState() == P.Collect(old(ProgressState()), c)
      ensures collected > old(collected) && c !in coins
      ensures P.ShownCount(countText) == Some(collected)
      ensures events == [PlaySound(PartCollect)]
    {
      coins := coins - {c};
      events := [PlaySound(PartCollect)];
      collected := collected + 1;
      countText := P.CountText(collected);
      P.CountTextShowsCollected(collected);
    }

    /** `update`: the movement step, then the death, win and landing checks, in that order. */
    method Tick(inp: TickInput) returns (events: seq<Event>)
      requires Valid()
      modifies this`flipX, this`flipY, this`isFalling, this`accelX, this`dragX, this`velocityY,
               this`anim, this`trailOn, this`trailAnchor, this`trailSpeedX
      ensures Valid() && OrientState() == old(OrientState())
      ensures accelX == Steer(inp.left, inp.right, inp.velocityX).accel
      ensures dragX == if Steer(inp.left, inp.right, inp.velocityX).setsDrag then DRAG else old(dragX)
      ensures flipX == FacingX(old(flipX), inp.left, inp.right)
      ensures anim == SelectAnim(inp.left, inp.right, inp.blockedDown, inp.blockedUp)
      ensures trailOn == TrailOn(old(trailOn), inp.left, inp.right, inp.blockedDown, inp.blockedUp)
      ensures trailAnchor == if inp.left || inp.right then FootPos(displayWidth, displayHeight, isUpDown) else old(trailAnchor)
      ensures trailSpeedX == if inp.left || inp.right then PARTICLE_VELOCITY else old(trailSpeedX)
      ensures velocityY == Jump.JumpVelocity(inp.blockedDown, inp.blockedUp, inp.upJustPressed).GetOr(old(velocityY))
      ensures isFalling == L.LandStep(old(isFalling), Contact(inp.blockedDown, inp.blockedUp)).falling
      ensures events ==
                Jump.JumpEvents(inp.blockedDown, inp.blockedUp, inp.upJustPressed, displayWidth, displayHeight, flipY)
                + L.Requests(inp.y, levelHeight, collected)
                + (if L.LandStep(old(isFalling), Contact(inp.blockedDown, inp.blockedUp)).fires
                   then [PlaySound(LandAudio)] else [])
    {
      events := DoPlayerMovement(inp);
      var requests := CheckOutcome(inp.y);
      events := events + requests;
      var landing := CheckLanding(inp.blockedDown);
      events := events + landing;
    }

    /** The fall-off death check, then the win check; both run, with no early exit. */
    method CheckOutcome(y: real) returns (events: seq<Event>)
      ensures events == L.Requests(y, levelHeight, collected)
    {
      events := [];
      if y > levelHeight || y < TOP_MARGIN {
        events := events + [StartGameOver(true)];
      }
      if collected == TARGET {
        events := events + [StartGameOver(false)];
      }
    }

    /** Floor contact while falling plays the landing sound once and clears the flag. */
    method CheckLanding(blockedDown: bool) returns (events: seq<Event>)
      modifies this`isFalling
      ensures isFalling == (old(isFalling) && !blockedDown)
      ensures events == if blockedDown && old(isFalling) then [PlaySound(LandAudio)] else []
    {
      events := [];
      if blockedDown && isFalling {
        events := events + [PlaySound(LandAudio)];
        isFalling := false;
      }
    }

    /** `doPlayerMovement`: the horizontal branch, the airborne override, then the jump. */
    method DoPlayerMovement(inp: TickInput) returns (events: seq<Event>)
      requires Valid()
      modifies this`flipX, this`flipY, this`isFalling, this`accelX, this`dragX, this`velocityY,
               this`anim, this`trailOn, this`trailAnchor, this`trailSpeedX
      ensures Valid() && OrientState() == old(OrientState())
      ensures accelX == Steer(inp.left, inp.right, inp.velocityX).accel
      ensures dragX == if Steer(inp.left, inp.right, inp.velocityX).setsDrag then DRAG else old(dragX)
      ensures flipX == FacingX(old(flipX), inp.left, inp.right)
      ensures anim == SelectAnim(inp.left, inp.right, inp.blockedDown, inp.blockedUp)
      ensures trailOn == TrailOn(old(trailOn), inp.left, inp.right, inp.blockedDown, inp.blockedUp)
      ensures trailAnchor == if inp.left || inp.right then FootPos(displayWidth, displayHeight, isUpDown) else old(trailAnchor)
      ensures trailSpeedX == if inp.left || inp.right then PARTICLE_VELOCITY else old(trailSpeedX)
      ensures velocityY == Jump.JumpVelocity(inp.blockedDown, inp.blockedUp, inp.upJustPressed).GetOr(old(velocityY))
      ensures isFalling == (Airborne(Contact(inp.blockedDown, inp.blockedUp)) || old(isFalling))
      ensures events == Jump.JumpEvents(inp.blockedDown, inp.blockedUp, inp.upJustPressed, displayWidth, displayHeight, flipY)
    {
      SteerHorizontally(inp.left, inp.right, inp.velocityX, inp.blockedDown || inp.blockedUp);
      if !inp.blockedDown && !inp.blockedUp {
        anim := JumpAnim;
        isFalling := true;
      }
      events := JumpOnPress(inp.blockedDown, inp.blockedUp, inp.upJustPressed);
    }

    /** The three-way horizontal branch of `doPlayerMovement`. */
    method SteerHorizontally(left: bool, right: bool, vx: real, touching: bool)
      requires Valid()
      modifies this`flipX, this`flipY, this`accelX, this`dragX, this`anim, this`trailOn, this`trailAnchor, this`trailSpeedX
      ensures Valid() && OrientState() == old(OrientState())
      ensures accelX == Steer(left, right, vx).accel
      ensures dragX == if Steer(left, right, vx).setsDrag then DRAG else old(dragX)
      ensures flipX == FacingX(old(flipX), left, right)
      ensures anim == if left || right then Walk else Idle
      ensures trailOn == if left || right then old(trailOn) || touching else false
      ensures trailAnchor == if left || right then FootPos(displayWidth, displayHeight, isUpDown) else old(trailAnchor)
      ensures trailSpeedX == if left || right then PARTICLE_VELOCITY else old(trailSpeedX)
    {
      if left {
        if vx > REVERSAL_THRESHOLD {
          accelX := -ACCELERATION * REVERSAL_FACTOR;
        } else {
          accelX := -ACCELERATION;
        }
        flipX, flipY := false, isUpDown;
        anim := Walk;
        trailAnchor := FootPos(displayWidth, displayHeight, flipY);
        trailSpeedX := PARTICLE_VELOCITY;
        if touching {
          trailOn := true;
        }
      } else if right {
        if vx < REVERSAL_THRESHOLD {
          accelX := ACCELERATION * REVERSAL_FACTOR;
        } else {
          accelX := ACCELERATION;
        }
        flipX, flipY := true, isUpDown;
        anim := Walk;
        trailAnchor := FootPos(displayWidth, displayHeight, flipY);
        trailSpeedX := PARTICLE_VELOCITY;
        if touching {
          trailOn := true;
        }
      } else {
        accelX := 0;
        dragX := DRAG;
        anim := Idle;
        trailOn := false;
      }
    }

    /** The jump at the end of `doPlayerMovement`: floor contact first, then ceiling contact. */
    method JumpOnPress(down: bool, up: bool, justPressed: bool) returns (events: seq<Event>)
      modifies this`velocityY
      ensures velocityY == Jump.JumpVelocity(down, up, justPressed).GetOr(old(velocityY))
      ensures events == Jump.JumpEvents(down, up, justPressed, displayWidth, displayHeight, flipY)
    {
      events := [];
      if down && justPressed {
        velocityY := JUMP_VELOCITY;
        events := [PlaySound(JumpAudio), EmitJumpBurst(Point(displayWidth / 2.0, displayHeight / 2.0), BURST_COUNT)];
      } else if up && justPressed {
        velocityY := -JUMP_VELOCITY;
        events := [PlaySound(JumpAudio), EmitJumpBurst(FootPos(displayWidth, displayHeight, flipY), BURST_COUNT)];
      }
    }
  }

  /**
   * The scenario of flipping gravity on the floor: afterwards the scene is upside down, the
   * sprite flipped, and a jump press against the ceiling commands the positive velocity.
   */
  method FlipThenCeilingJump(s: Scene) returns (events: seq<Event>)
    requires s.Valid() && !s.isUpDown
    modifies s
    ensures s.Valid() && s.isUpDown && s.flipY && s.gravity < 0
    ensures s.velocityY == -JUMP_VELOCITY && |events| >= 2 && events[0] == PlaySound(JumpAudio)
  {
    s.ToggleGravity();
    events := s.Tick(TickInput(false, false, true, false, true, 0.0, 100.0));
  }
}
