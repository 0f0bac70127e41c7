/** The part counter: coins still in the level, how many were collected, and the on-screen count. */
module Progress {
  import opened Signals

  /** Identity of one coin object placed by the level's object layer. */
  type Coin = nat

  datatype Progress = Progress(collected: nat, coins: set<Coin>)

  /** A fresh scene: nothing collected and every placed coin still in the level. */
  function Start(placed: set<Coin>): (p: Progress)
    ensures p.collected == 0 && p.coins == placed
    ensures p.collected + |p.coins| == |placed|
  {
    Progress(0, placed)
  }

  /**
   * The coin-overlap handler: the overlapped coin leaves the level and the count goes up by
   * one, so collected plus remaining coins stays what it was. The engine reports overlaps
   * only with coins still in the group.
   */
  function Collect(p: Progress, c: Coin): (r: Progress)
    requires c in p.coins
    ensures c !in r.coins && r.coins < p.coins
    ensures r.collected == p.collected + 1
    ensures r.collected + |r.coins| == p.collected + |p.coins|
  {
    Progress(p.collected + 1, p.coins - {c})
  }

  /** No coin occurs twice. */
  predicate Distinct(cs: seq<Coin>) {
    forall i, j :: 0 <= i < j < |cs| ==> cs[i] != cs[j]
  }

  /** The set of coins a sequence of overlaps names. */
  function Named(cs: seq<Coin>): set<Coin> {
    set i | 0 <= i < |cs| :: cs[i]
  }

  /**
   * Overlaps with the given distinct coins, in order: exactly those coins leave the level
   * and the count rises by their number.
   */
  function CollectAll(p: Progress, cs: seq<Coin>): (r: Progress)
    requires Distinct(cs) && forall i :: 0 <= i < |cs| ==> cs[i] in p.coins
    ensures r.coins == p.coins - Named(cs)
    ensures r.collected == p.collected + |cs|
    decreases |cs|
  {
    if cs == [] then p
    else
      var init := cs[..|cs| - 1];
      assert Named(cs) == Named(init) + {cs[|cs| - 1]};
      Collect(CollectAll(p, init), cs[|cs| - 1])
  }

  /**
   * N overlaps with N distinct coins remove N coins from the level, so collected plus
   * remaining coins is the same before and after.
   */
  lemma {:induction false} CollectAllCounts(p: Progress, cs: seq<Coin>)
    requires Distinct(cs) && forall i :: 0 <= i < |cs| ==> cs[i] in p.coins
    ensures |CollectAll(p, cs).coins| == |p.coins| - |cs|
    ensures CollectAll(p, cs).collected + |CollectAll(p, cs).coins| == p.collected + |p.coins|
    decreases |cs|
  {
    if cs != [] {
      var init := cs[..|cs| - 1];
      CollectAllCounts(p, init);
      assert CollectAll(p, cs) == Collect(CollectAll(p, init), cs[|cs| - 1]);
    }
  }

  // ---- the on-screen counter text ----

  const PREFIX: string := "Parts Collected: "
  const SUFFIX: string := " / 10"

  predicate IsDigit(ch: char) {
    '0' <= ch <= '9'
  }

  predicate AllDigits(s: string) {
    forall i :: 0 <= i < |s| ==> IsDigit(s[i])
  }

  function DigitChar(d: nat): (ch: char)
    requires d < 10
    ensures IsDigit(ch) && (ch as int) - ('0' as int) == d
  {
    (('0' as int) + d) as char
  }

  /** The decimal rendering of a count, as a template literal shows a non-negative integer. */
  function Decimal(n: nat): (s: string)
    ensures |s| >= 1 && AllDigits(s)
    ensures |s| > 1 ==> s[0] != '0'
  {
    if n < 10 then [DigitChar(n)] else Decimal(n / 10) + [DigitChar(n % 10)]
  }

  /** The number a string of decimal digits denotes. */
  function DecimalValue(s: string): nat
    requires AllDigits(s)
  {
    if s == [] then 0 else DecimalValue(s[..|s| - 1]) * 10 + ((s[|s| - 1] as int) - ('0' as int))
  }

  lemma {:induction false} DecimalRoundTrip(n: nat)
    ensures DecimalValue(Decimal(n)) == n
  {
    if n >= 10 {
      var s := Decimal(n);
      assert s[..|s| - 1] == Decimal(n / 10);
      DecimalRoundTrip(n / 10);
    }
  }

  /** The counter text shown after `collected` parts. */
  function CountText(collected: nat): (t: string)
    ensures |t| > |PREFIX| + |SUFFIX|
    ensures t[..|PREFIX|] == PREFIX && t[|t| - |SUFFIX|..] == SUFFIX
  {
    PREFIX + Decimal(collected) + SUFFIX
  }

  /** The count a reader sees in a counter text, if it has the counter's shape. */
  function ShownCount(t: string): Option<nat>
  {
    if |t| >= |PREFIX| + |SUFFIX| && t[..|PREFIX|] == PREFIX && t[|t| - |SUFFIX|..] == SUFFIX
       && AllDigits(t[|PREFIX|..|t| - |SUFFIX|])
    then Some(DecimalValue(t[|PREFIX|..|t| - |SUFFIX|]))
    else None
  }

  /** The count displayed equals the count kept. */
  lemma CountTextShowsCollected(collected: nat)
    ensures ShownCount(CountText(collected)) == Some(collected)
  {
    var t := CountText(collected);
    assert t[|PREFIX|..|t| - |SUFFIX|] == Decimal(collected);
    DecimalRoundTrip(collected);
  }
}
