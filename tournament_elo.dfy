/**
 * The Elo step of the advanced tournament system
 * (public/js/advanced_tournament_system.js): `updateEloRatings`, run after
 * every tournament game, and the `EloCalculator` utility class.
 *
 * The expected score 1 / (1 + 10^((b - w)/400)) is floating point; it is a
 * parameter `expected(w, b)` here, a real the callers may assume lies in
 * (0, 1). `Math.round` is ⌊x + ½⌋. Ratings are whole numbers (the initial
 * 1500 and every later value come out of `Math.round`), or NaN: an
 * unrecognised result string leaves the actual score `undefined`, and the
 * arithmetic then yields NaN for both players.
 */
module TournamentElo {
  import opened Wrappers

  /** The K-factor of `updateEloRatings`, and the default of `EloCalculator`. */
  const K: real := 32.0

  /** A rating: a whole number, or NaN. */
  datatype Rating = Rated(value: int) | NotANumber

  /** `Math.round`: the nearest integer, halves rounded up. */
  function RoundHalfUp(x: real): (n: int)
    ensures n as real - 0.5 <= x < n as real + 0.5
  {
    (x + 0.5).Floor
  }

  /** White's actual score for a result; any other string leaves it `undefined`. */
  function WhiteScore(result: string): Option<real>
  {
    if result == "1-0" then Some(1.0)
    else if result == "0-1" then Some(0.0)
    else if result == "1/2-1/2" then Some(0.5)
    else None
  }

  /**
   * `updateEloRatings`: the new ratings of white and black. Both changes are
   * computed from the old ratings before either is stored.
   */
  function EloStep(white: Rating, black: Rating, result: string, expected: (int, int) -> real): (Rating, Rating)
  {
    match (white, black, WhiteScore(result))
    case (Rated(w), Rated(b), Some(a)) =>
      var e := expected(w, b);
      (Rated(RoundHalfUp(w as real + K * (a - e))), Rated(RoundHalfUp(b as real + K * ((1.0 - a) - (1.0 - e)))))
    case _ => (NotANumber, NotANumber)
  }

  /** The unrounded change to White's rating. */
  function WhiteDelta(w: int, b: int, a: real, expected: (int, int) -> real): real
  {
    K * (a - expected(w, b))
  }

  /** d lies exactly halfway between two integers. */
  predicate Halfway(d: real)
  {
    RoundHalfUp(d) as real - d == 0.5
  }

  /** Rounding commutes with adding a whole number. */
  lemma RoundShift(n: int, x: real)
    ensures RoundHalfUp(n as real + x) == n + RoundHalfUp(x)
  {
    var r := RoundHalfUp(x);
    assert (n + r) as real - 0.5 <= n as real + x < (n + r) as real + 0.5;
  }

  /** Rounding d and -d gives opposite numbers, except at a half, where both round up. */
  lemma RoundOpposite(d: real)
    ensures 0 <= RoundHalfUp(d) + RoundHalfUp(-d) <= 1
    ensures RoundHalfUp(d) + RoundHalfUp(-d) == 1 <==> Halfway(d)
  {
    var p := RoundHalfUp(d);
    var q := RoundHalfUp(-d);
    if Halfway(d) {
      assert -d == (1 - p) as real - 0.5;
      assert q == 1 - p;
    } else {
      assert p as real - 0.5 < d;
      assert q == -p;
    }
  }

  /**
   * Zero sum up to rounding: for a recognised result the unrounded changes
   * are +d and -d, so the two rounded ratings together gain 0 points, or 1
   * exactly when d is a half.
   */
  lemma EloZeroSum(w: int, b: int, result: string, expected: (int, int) -> real)
    requires WhiteScore(result).Some?
    ensures var (nw, nb) := EloStep(Rated(w), Rated(b), result, expected);
      var d := WhiteDelta(w, b, WhiteScore(result).value, expected);
      nw == Rated(w + RoundHalfUp(d)) && nb == Rated(b + RoundHalfUp(-d)) &&
      0 <= (nw.value - w) + (nb.value - b) <= 1 &&
      ((nw.value - w) + (nb.value - b) == 1 <==> Halfway(d))
  {
    var a := WhiteScore(result).value;
    var e := expected(w, b);
    var d := WhiteDelta(w, b, a, expected);
    assert K * ((1.0 - a) - (1.0 - e)) == -d;
    RoundShift(w, d);
    RoundShift(b, -d);
    RoundOpposite(d);
  }

  /**
   * With an expected score strictly inside (0, 1), no rating moves by more
   * than K, the winner never loses points and the loser never gains.
   */
  lemma EloBounded(w: int, b: int, result: string, expected: (int, int) -> real)
    requires WhiteScore(result).Some? && 0.0 < expected(w, b) < 1.0
    ensures var (nw, nb) := EloStep(Rated(w), Rated(b), result, expected);
      nw.Rated? && nb.Rated? &&
      -32 <= nw.value - w <= 32 && -32 <= nb.value - b <= 32 &&
      (result == "1-0" ==> nw.value >= w && nb.value <= b) &&
      (result == "0-1" ==> nw.value <= w && nb.value >= b)
  {
    EloZeroSum(w, b, result, expected);
  }

  /** An unrecognised result, or a NaN on either side, turns both ratings into NaN. */
  lemma EloNotANumber(white: Rating, black: Rating, result: string, expected: (int, int) -> real)
    ensures EloStep(white, black, result, expected) == (NotANumber, NotANumber)
        <==> (WhiteScore(result).None? || white.NotANumber? || black.NotANumber?)
  {
  }

  // ---------------------------------------------------------------------
  // EloCalculator
  // ---------------------------------------------------------------------

  /** The fields `updateRatings` reads; the spread copies every other one unchanged. */
  datatype Player = Player(name: string, rating: Rating)

  /** The actual scores of A and B; `undefined` for any other result. */
  function Scores(result: string): Option<(real, real)>
  {
    if result == "1-0" then Some((1.0, 0.0))
    else if result == "0-1" then Some((0.0, 1.0))
    else if result == "1/2-1/2" then Some((0.5, 0.5))
    else None
  }

  /** `new EloCalculator(kFactor)`: the class holds nothing but its K-factor. */
  datatype EloCalculator = EloCalculator(kFactor: real)
  {
    /** `updateRating`: the unrounded new rating. */
    function UpdateRating(current: real, expectedScore: real, actualScore: real): real
    {
      current + kFactor * (actualScore - expectedScore)
    }

    /** `updateRatings`: copies of both players with their rounded new ratings. */
    function UpdateRatings(a: Player, b: Player, result: string, expected: (int, int) -> real): (Player, Player)
    {
      match (a.rating, b.rating, Scores(result))
      case (Rated(ra), Rated(rb), Some((sa, sb))) =>
        var expectedA := expected(ra, rb);
        var expectedB := 1.0 - expectedA;
        (a.(rating := Rated(RoundHalfUp(UpdateRating(ra as real, expectedA, sa)))),
         b.(rating := Rated(RoundHalfUp(UpdateRating(rb as real, expectedB, sb)))))
      case _ => (a.(rating := NotANumber), b.(rating := NotANumber))
    }
  }

  /** The two actual scores of a recognised result sum to 1, and A's is White's. */
  lemma ScoresSumToOne(result: string)
    ensures Scores(result).Some? <==> WhiteScore(result).Some?
    ensures Scores(result).Some? ==>
      Scores(result).value.0 == WhiteScore(result).value && Scores(result).value.0 + Scores(result).value.1 == 1.0
  {
  }

  /**
   * With the default K-factor the calculator rates a game exactly as
   * `updateEloRatings` does, A playing White, and keeps the players' names.
   */
  lemma CalculatorAgrees(a: Player, b: Player, result: string, expected: (int, int) -> real)
    ensures var (na, nb) := EloCalculator(K).UpdateRatings(a, b, result, expected);
      na.name == a.name && nb.name == b.name &&
      (na.rating, nb.rating) == EloStep(a.rating, b.rating, result, expected)
  {
    ScoresSumToOne(result);
  }
}
