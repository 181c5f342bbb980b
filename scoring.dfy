/**
 * The pure helpers of the dice game: die faces, the scoring table, hit
 * counting and turning random draws into faces.
 */
module Scoring {
  import opened Wrappers

  /** A die face, 1 to 6. */
  type Die = d: int | 1 <= d <= 6 witness 1

  /** Dice thrown in one round. */
  const DicePerRound: nat := 3

  /** Rounds a session may play. */
  const MaxRounds: nat := 10

  /** `SCORE_TABLE`: points for a round by the number of hits. */
  const ScoreTable: map<int, nat> := map[0 := 0, 1 := 100, 2 := 300, 3 := 1000]

  /** `SCORE_TABLE[hits] ?? 0`: a key missing from the table scores nothing. */
  function Award(hits: int): (r: nat)
    ensures r in {0, 100, 300, 1000}
    ensures hits !in ScoreTable ==> r == 0
  {
    if hits in ScoreTable then ScoreTable[hits] else 0
  }

  /** The table's four entries. */
  lemma AwardValues()
    ensures Award(0) == 0 && Award(1) == 100 && Award(2) == 300 && Award(3) == 1000
  {
  }

  /** More hits never earn fewer points, over the hit counts a round can produce. */
  lemma AwardMonotone(h1: int, h2: int)
    requires 0 <= h1 <= h2 <= DicePerRound
    ensures Award(h1) <= Award(h2)
  {
  }

  /** The `reduce` of `countHits`: folds over the roll from the left, adding one per match. */
  function Hits(face: Die, rolls: seq<Die>): (r: nat)
    ensures r <= |rolls|
    decreases |rolls|
  {
    if rolls == [] then 0
    else Hits(face, rolls[..|rolls| - 1]) + (if rolls[|rolls| - 1] == face then 1 else 0)
  }

  lemma {:induction false} HitsIsMultiplicity(face: Die, rolls: seq<Die>)
    ensures Hits(face, rolls) == multiset(rolls)[face]
    decreases |rolls|
  {
    if rolls != [] {
      var init := rolls[..|rolls| - 1];
      assert rolls == init + [rolls[|rolls| - 1]];
      HitsIsMultiplicity(face, init);
    }
  }

  /** `countHits`: no face chosen counts nothing; otherwise the number of dice showing the face. */
  function CountHits(chosen: Option<Die>, rolls: seq<Die>): (r: nat)
    ensures r <= |rolls|
    ensures chosen.None? ==> r == 0
    ensures chosen.Some? ==> r == multiset(rolls)[chosen.value]
  {
    match chosen
    case None => 0
    case Some(face) => HitsIsMultiplicity(face, rolls); Hits(face, rolls)
  }

  /** A draw of `Math.random()`: a real in [0, 1). */
  predicate IsDraw(r: real) { 0.0 <= r < 1.0 }

  /** `Math.floor(Math.random() * 6) + 1` for the draw `r`. */
  function FaceOf(r: real): Die
    requires IsDraw(r)
  {
    (r * 6.0).Floor + 1
  }

  /** Each face is hit by a sixth of [0, 1): face k exactly by the draws in [(k-1)/6, k/6). */
  lemma FaceOfInterval(r: real, k: Die)
    requires IsDraw(r)
    ensures FaceOf(r) == k <==> (k - 1) as real / 6.0 <= r < k as real / 6.0
  {
  }

  /** `rollDice(n)`: one face per draw, pushed in order. */
  method RollDice(n: nat, draws: seq<real>) returns (out: seq<Die>)
    requires |draws| == n
    requires forall i :: 0 <= i < n ==> IsDraw(draws[i])
    ensures |out| == n
    ensures forall i :: 0 <= i < n ==> out[i] == FaceOf(draws[i])
  {
    out := [];
    var i := 0;
    while i < n
      invariant 0 <= i <= n
      invariant |out| == i
      invariant forall j :: 0 <= j < i ==> out[j] == FaceOf(draws[j])
    {
      out := out + [FaceOf(draws[i])];
      i := i + 1;
    }
  }
}
