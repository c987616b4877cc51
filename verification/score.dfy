/** The score service: the running score, the best score of the session
    and the suffix notation used to display both. */
module Scores {

  class ScoreService {
    var currentScore: int
    var highScore: int

    /** The best score is never below the current one, nor below zero. */
    ghost predicate Valid()
      reads this
    {
      highScore >= currentScore && highScore >= 0
    }

    constructor ()
      ensures Valid() && currentScore == 0 && highScore == 0
    {
      currentScore := 0;
      highScore := 0;
    }

    method AddScore(points: int)
      requires Valid()
      modifies this
      ensures Valid()
      ensures currentScore == old(currentScore) + points
      ensures highScore == if currentScore > old(highScore) then currentScore else old(highScore)
    {
      currentScore := currentScore + points;
      if currentScore > highScore {
        highScore := currentScore;
      }
    }

    method ResetScore()
      requires Valid()
      modifies this
      ensures Valid() && currentScore == 0 && highScore == old(highScore)
    {
      currentScore := 0;
    }
  }

  /** The best score after adding each of `points` in turn. */
  function HighAfter(current: int, high: int, points: seq<int>): (h: int)
    decreases |points|
  {
    if points == [] then high
    else
      var c := current + points[0];
      HighAfter(c, if c > high then c else high, points[1..])
  }

  /** The best score never decreases, and it is at least every running
      score reached along the way. */
  lemma {:induction false} HighNeverDecreases(current: int, high: int, points: seq<int>, k: nat)
    decreases |points|
    requires k <= |points| && high >= current
    ensures HighAfter(current, high, points) >= high
    ensures HighAfter(current, high, points) >= current + Sum(points[..k])
  {
    if points != [] {
      var c := current + points[0];
      var h := if c > high then c else high;
      HighNeverDecreases(c, h, points[1..], if k == 0 then 0 else k - 1);
      if k > 0 {
        assert points[..k] == [points[0]] + points[1..][..k - 1];
        SumCons(points[0], points[1..][..k - 1]);
      }
    }
  }

  function Sum(s: seq<int>): int
  {
    if s == [] then 0 else Sum(s[..|s| - 1]) + s[|s| - 1]
  }

  lemma {:induction false} SumCons(a: int, s: seq<int>)
    ensures Sum([a] + s) == a + Sum(s)
  {
    if s != [] {
      assert ([a] + s)[..|s|] == [a] + s[..|s| - 1];
      SumCons(a, s[..|s| - 1]);
    }
  }

  // ---------------------------------------------------------------------
  // `formatScore`.

  datatype Suffix = Trillions | Billions | Millions | Thousands | Plain

  function Divisor(s: Suffix): (d: real)
    ensures d >= 1.0
  {
    match s
    case Trillions => 1000000000000.0
    case Billions => 1000000000.0
    case Millions => 1000000.0
    case Thousands => 1000.0
    case Plain => 1.0
  }

  function Letter(s: Suffix): string
  {
    match s
    case Trillions => "T"
    case Billions => "B"
    case Millions => "M"
    case Thousands => "K"
    case Plain => ""
  }

  /** The suffix `formatScore` chooses: the largest unit not above the score. */
  function SuffixFor(score: real): (s: Suffix)
    ensures s != Plain ==> score >= Divisor(s)
    ensures s != Trillions ==> score < 1000.0 * Divisor(s)
  {
    if score >= 1000000000000.0 then Trillions
    else if score >= 1000000000.0 then Billions
    else if score >= 1000000.0 then Millions
    else if score >= 1000.0 then Thousands
    else Plain
  }

  /** `formatScore(score)` before `toFixed(1)`: the scaled value and the
      suffix letter. */
  function FormatScore(score: real): (r: (real, string))
    ensures r.0 * Divisor(SuffixFor(score)) == score
    ensures SuffixFor(score) != Plain ==> 1.0 <= r.0
    ensures SuffixFor(score) !in {Plain, Trillions} ==> r.0 < 1000.0
  {
    var s := SuffixFor(score);
    (score / Divisor(s), Letter(s))
  }

  function Rank(s: Suffix): nat
  {
    match s
    case Plain => 0
    case Thousands => 1
    case Millions => 2
    case Billions => 3
    case Trillions => 4
  }

  /** A higher score never gets a smaller unit. */
  lemma SuffixMonotone(a: real, b: real)
    requires a <= b
    ensures Rank(SuffixFor(a)) <= Rank(SuffixFor(b))
  {
  }
}
