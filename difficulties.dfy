/** The difficulty catalog offered on the intro screen, the per-round speed
    decay, and the choice of a victory message. */
module Difficulties {
  import opened Board

  /** A difficulty: its name, its square count and its turn duration in seconds.
      The game mutates `startingSpeed` of the selected entry after every win. */
  datatype Difficulty = Difficulty(mode: string, squares: nat, startingSpeed: real)

  const Catalog: seq<Difficulty> := [
    Difficulty("Easy", 16, 1.5),
    Difficulty("Medium", 25, 1.25),
    Difficulty("Hard", 36, 1.0)
  ]

  /** What the game needs of a difficulty: a square count that is a perfect square
      of a side of at least two, and a positive turn duration. */
  predicate WellFormed(d: Difficulty) {
    Sqrt(d.squares) >= 2 && Sqrt(d.squares) * Sqrt(d.squares) == d.squares && d.startingSpeed > 0.0
  }

  /** The board a difficulty is played on, its side being `Math.sqrt(squares)`. */
  function BoardOf(d: Difficulty): (b: Board)
    requires WellFormed(d)
    ensures b.Valid() && b.squares == d.squares && b.side * b.side == d.squares
  {
    Board(Sqrt(d.squares), d.squares)
  }

  /** Every catalog entry is well formed, with an exact side of at least four. */
  lemma CatalogWellFormed()
    ensures |Catalog| == 3
    ensures forall i :: 0 <= i < |Catalog| ==>
      WellFormed(Catalog[i]) && Sqrt(Catalog[i].squares) >= 4 &&
      Sqrt(Catalog[i].squares) * Sqrt(Catalog[i].squares) == Catalog[i].squares
  {
    SqrtOfSquare(4);
    SqrtOfSquare(5);
    SqrtOfSquare(6);
    assert Catalog[0].squares == 4 * 4;
    assert Catalog[1].squares == 5 * 5;
    assert Catalog[2].squares == 6 * 6;
  }

  /** The factor 0.95^wins the turn duration has been multiplied by after `wins` won rounds. */
  function Decay(wins: nat): (f: real)
    ensures 0.0 < f <= 1.0
    ensures wins > 0 ==> f < 1.0
  {
    if wins == 0 then 1.0 else 0.95 * Decay(wins - 1)
  }

  /** One more won round always shortens the turn, and the turn never reaches zero. */
  lemma {:induction false} DecayShrinks(wins: nat, more: nat)
    ensures 0.0 < Decay(wins + more) <= Decay(wins)
    ensures more > 0 ==> Decay(wins + more) < Decay(wins)
  {
    if more > 0 {
      DecayShrinks(wins, more - 1);
      assert Decay(wins + more) == 0.95 * Decay(wins + more - 1);
    }
  }

  /** The difficulty after one round is won: the same entry with its duration times 0.95. */
  function Decayed(d: Difficulty): (e: Difficulty)
    ensures e.mode == d.mode && e.squares == d.squares
    ensures d.startingSpeed > 0.0 ==> 0.0 < e.startingSpeed < d.startingSpeed
  {
    d.(startingSpeed := d.startingSpeed * 0.95)
  }

  /** The entry `d` after `wins` won rounds. */
  function AfterWins(d: Difficulty, wins: nat): (e: Difficulty)
    ensures e.mode == d.mode && e.squares == d.squares
    ensures wins == 0 ==> e == d
    ensures d.startingSpeed > 0.0 ==> 0.0 < e.startingSpeed <= d.startingSpeed
    ensures wins > 0 && d.startingSpeed > 0.0 ==> e.startingSpeed < d.startingSpeed
  {
    d.(startingSpeed := d.startingSpeed * Decay(wins))
  }

  /** Decaying the entry after `wins` wins gives the entry after `wins + 1` wins. */
  lemma DecayedAfterWins(d: Difficulty, wins: nat)
    ensures Decayed(AfterWins(d, wins)) == AfterWins(d, wins + 1)
  {
    assert Decay(wins + 1) == 0.95 * Decay(wins);
  }

  /** The pool of victory messages. */
  const SuccessMessages: seq<string> := [
    "Well done soldier! Keep going!",
    "Another one, home safe",
    "Mission successful, good job!",
    "Good work private!",
    "Nicely done, let's keep moving!"
  ]

  /** The message shown on a win, `Math.floor(u * length)` for a random `u` in [0, 1). */
  function MessageIndex(u: real): (i: int)
    requires 0.0 <= u < 1.0
    ensures 0 <= i < |SuccessMessages|
  {
    (u * |SuccessMessages| as real).Floor
  }
}
