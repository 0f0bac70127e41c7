/** The checks `update` runs after the movement step: fall-off death, the win count and the landing sound. */
module Lifecycle {
  import opened Tuning
  import opened Signals

  /**
   * The scene-change requests of one tick. The death check and the win check are two
   * independent tests, so a tick can request both, the death first.
   */
  function Requests(y: real, levelHeight: real, collected: int): (es: seq<Event>)
    ensures StartGameOver(true) in es <==> y > levelHeight || y < TOP_MARGIN
    ensures StartGameOver(false) in es <==> collected == TARGET
    ensures |es| <= 2 && forall i :: 0 <= i < |es| ==> es[i].StartGameOver?
    ensures |es| == 2 ==> es == [StartGameOver(true), StartGameOver(false)]
  {
    var death := if y > levelHeight || y < TOP_MARGIN then [StartGameOver(true)] else [];
    var win := if collected == TARGET then [StartGameOver(false)] else [];
    death + win
  }

  /** A tick below the level and at the target count asks for both outcomes. */
  lemma DeathAndWinSameTick()
    ensures Requests(800.0, 720.0, TARGET) == [StartGameOver(true), StartGameOver(false)]
  {
  }

  // ---- landing detection ----

  /** `isFalling` after a tick, and whether that tick played the landing sound. */
  datatype Landing = Landing(falling: bool, fires: bool)

  /**
   * One tick of the falling flag: the movement step arms it when nothing is touched, then
   * floor contact while armed plays the landing sound and disarms it. Ceiling contact
   * neither fires nor disarms.
   */
  function LandStep(falling: bool, c: Contact): (r: Landing)
    ensures r.fires <==> c.down && falling
    ensures r.falling <==> Airborne(c) || (falling && !c.down)
  {
    var armed := if Airborne(c) then true else falling;
    var fires := c.down && armed;
    Landing(if fires then false else armed, fires)
  }

  /** `isFalling` after a sequence of ticks that started with `falling0`. */
  function FallingAfter(falling0: bool, cs: seq<Contact>): bool
  {
    if cs == [] then falling0
    else LandStep(FallingAfter(falling0, cs[..|cs| - 1]), cs[|cs| - 1]).falling
  }

  /** Whether tick `k` of the sequence plays the landing sound. */
  predicate FiresAt(falling0: bool, cs: seq<Contact>, k: nat)
    requires k < |cs|
  {
    LandStep(FallingAfter(falling0, cs[..k]), cs[k]).fires
  }

  /** No tick strictly between `a` and `b` touches the floor. */
  predicate NoFloorBetween(cs: seq<Contact>, a: int, b: int)
    requires b <= |cs|
  {
    forall m :: a < m < b && 0 <= m ==> !cs[m].down
  }

  /**
   * An independent reading of the falling flag before tick `k`: some earlier tick was
   * airborne and the floor has not been touched since, or the flag started set and the
   * floor has not been touched at all.
   */
  predicate Armed(falling0: bool, cs: seq<Contact>, k: nat)
    requires k <= |cs|
  {
    || (exists j :: 0 <= j < k && Airborne(cs[j]) && NoFloorBetween(cs, j, k))
    || (falling0 && NoFloorBetween(cs, -1, k))
  }

  lemma {:induction false} FallingAfterIsArmed(falling0: bool, cs: seq<Contact>, k: nat)
    requires k <= |cs|
    ensures FallingAfter(falling0, cs[..k]) <==> Armed(falling0, cs, k)
  {
    if k > 0 {
      var c := cs[k - 1];
      assert cs[..k][..k - 1] == cs[..k - 1];
      FallingAfterIsArmed(falling0, cs, k - 1);
      if Airborne(c) {
        assert NoFloorBetween(cs, k - 1, k);
      } else if c.down {
        assert !NoFloorBetween(cs, -1, k);
        forall j | 0 <= j < k - 1
          ensures !NoFloorBetween(cs, j, k)
        {
          assert cs[k - 1].down;
        }
      } else {
        if Armed(falling0, cs, k - 1) {
          if falling0 && NoFloorBetween(cs, -1, k - 1) {
            assert NoFloorBetween(cs, -1, k);
          } else {
            var j :| 0 <= j < k - 1 && Airborne(cs[j]) && NoFloorBetween(cs, j, k - 1);
            assert NoFloorBetween(cs, j, k);
          }
        }
        if Armed(falling0, cs, k) {
          if falling0 && NoFloorBetween(cs, -1, k) {
            assert NoFloorBetween(cs, -1, k - 1);
          } else {
            var j :| 0 <= j < k && Airborne(cs[j]) && NoFloorBetween(cs, j, k);
            assert j < k - 1;
            assert NoFloorBetween(cs, j, k - 1);
          }
        }
      }
    }
  }

  /**
   * The landing sound plays at tick `k` exactly when the floor is touched there and the
   * player has been airborne since the last floor contact (or started out falling).
   */
  lemma LandsIff(falling0: bool, cs: seq<Contact>, k: nat)
    requires k < |cs|
    ensures FiresAt(falling0, cs, k) <==> cs[k].down && Armed(falling0, cs, k)
  {
    FallingAfterIsArmed(falling0, cs, k);
  }

  /** Between any two landing sounds the player was airborne at least once. */
  lemma LandingsSeparated(falling0: bool, cs: seq<Contact>, i: nat, k: nat)
    requires i < k < |cs|
    requires FiresAt(falling0, cs, i) && FiresAt(falling0, cs, k)
    ensures exists j :: i < j < k && Airborne(cs[j])
  {
    LandsIff(falling0, cs, i);
    LandsIff(falling0, cs, k);
    assert cs[i].down;
    assert !NoFloorBetween(cs, -1, k);
    var j :| 0 <= j < k && Airborne(cs[j]) && NoFloorBetween(cs, j, k);
    assert i < j;
  }

  /** Number of landing sounds over a sequence of ticks. */
  function Landings(falling0: bool, cs: seq<Contact>): nat
  {
    if cs == [] then 0
    else
      var init := cs[..|cs| - 1];
      Landings(falling0, init) + if LandStep(FallingAfter(falling0, init), cs[|cs| - 1]).fires then 1 else 0
  }

  /**
   * Standing on the floor for any number of ticks plays the landing sound at most once: on
   * the first tick, and only if the player was falling when it began.
   */
  lemma {:induction false} GroundedLandsOnce(falling0: bool, cs: seq<Contact>)
    requires forall m :: 0 <= m < |cs| ==> cs[m].down
    ensures Landings(falling0, cs) == if falling0 && cs != [] then 1 else 0
    ensures cs != [] ==> !FallingAfter(falling0, cs)
    ensures cs != [] ==> FiresAt(falling0, cs, 0) == falling0
  {
    if cs != [] {
      var init := cs[..|cs| - 1];
      GroundedLandsOnce(falling0, init);
      assert cs[..0] == [];
    }
  }

  /** Three airborne ticks and then the floor: the flag stays armed, then one landing sound. */
  lemma FallThenLand()
    ensures var air := Contact(false, false);
            var cs := [air, air, air, Contact(true, false)];
            && FallingAfter(false, cs[..1]) && FallingAfter(false, cs[..2]) && FallingAfter(false, cs[..3])
            && Landings(false, cs) == 1 && !FallingAfter(false, cs)
  {
    var air := Contact(false, false);
    var cs := [air, air, air, Contact(true, false)];
    assert cs[..3][..2] == cs[..2] && cs[..2][..1] == cs[..1] && cs[..1][..0] == [];
    assert cs[..|cs| - 1] == cs[..3];
    assert Landings(false, cs[..1]) == 0;
    assert Landings(false, cs[..2]) == 0;
    assert Landings(false, cs[..3]) == 0;
  }
}
