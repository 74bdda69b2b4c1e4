/**
 * Scheduling arithmetic of the advanced tournament system
 * (public/js/advanced_tournament_system.js): the batching of a round into
 * groups of `concurrentGames` in `startRound`, and the game, round and time
 * figures `updateDurationEstimate` shows before a tournament is created.
 */
module TournamentSchedule {
  import opened TournamentPairings
  import TournamentSwiss
  import TournamentKnockout

  // ---------------------------------------------------------------------
  // Batches
  // ---------------------------------------------------------------------

  function Flatten<T>(batches: seq<seq<T>>): seq<T>
  {
    if |batches| == 0 then [] else Flatten(batches[..|batches| - 1]) + batches[|batches| - 1]
  }

  /** ⌈len / c⌉ is the k with (k - 1)·c < len ≤ k·c. */
  lemma CeilDiv(len: nat, c: nat, k: nat)
    requires c >= 1 && len <= k * c && (k == 0 || (k - 1) * c < len)
    ensures k == (len + c - 1) / c
  {
    var q := (len + c - 1) / c;
    var rem := (len + c - 1) % c;
    assert len + c - 1 == q * c + rem && 0 <= rem < c;
    if k < q {
      MulMono(k, q - 1, c);
    } else if k > q {
      MulMono(q, k - 1, c);
    }
  }

  lemma MulMono(a: nat, b: nat, c: nat)
    requires a <= b
    ensures a * c <= b * c
  {
  }

  /**
   * The `for (i …; i += concurrentGames)` loop of `startRound`: the round
   * cut into consecutive slices of `concurrentGames`, the last possibly shorter.
   */
  method Batches<T>(roundPairings: seq<T>, concurrentGames: nat) returns (batches: seq<seq<T>>)
    requires concurrentGames >= 1
    ensures Flatten(batches) == roundPairings
    ensures forall b :: 0 <= b < |batches| ==> 1 <= |batches[b]| <= concurrentGames
    ensures forall b :: 0 <= b < |batches| - 1 ==> |batches[b]| == concurrentGames
    ensures |batches| == (|roundPairings| + concurrentGames - 1) / concurrentGames
  {
    var len := |roundPairings|;
    batches := [];
    var i := 0;
    while i < len
      invariant i == |batches| * concurrentGames
      invariant forall b :: 0 <= b < |batches| ==> 1 <= |batches[b]| <= concurrentGames
      invariant i <= len ==> Flatten(batches) == roundPairings[..i]
      invariant i <= len ==> forall b :: 0 <= b < |batches| ==> |batches[b]| == concurrentGames
      invariant i > len ==> Flatten(batches) == roundPairings && (|batches| - 1) * concurrentGames < len
      invariant i > len ==> forall b :: 0 <= b < |batches| - 1 ==> |batches[b]| == concurrentGames
      decreases len - i
    {
      var end := if i + concurrentGames < len then i + concurrentGames else len;
      var batch := roundPairings[i..end];
      assert roundPairings[..end] == roundPairings[..i] + batch;
      batches := batches + [batch];
      i := i + concurrentGames;
    }
    CeilDiv(len, concurrentGames, |batches|);
  }

  // ---------------------------------------------------------------------
  // Duration estimate
  // ---------------------------------------------------------------------

  /** Minutes per game the estimate assumes. */
  const AvgGameTime := 15

  datatype Estimate =
    | NeedTwoParticipants
    | Estimate(totalGames: nat, totalRounds: nat, totalTime: nat, hours: nat, minutes: nat)

  /** Games and rounds by tournament type; an unknown type leaves both at 0. */
  function GamesAndRounds(kind: string, n: nat, g: nat): (nat, nat)
    requires n >= 2
  {
    if kind == "round-robin" then (n * (n - 1) * g, n - 1)
    else if kind == "swiss" then (TournamentSwiss.CeilLog2(n) * (n / 2) * g, TournamentSwiss.CeilLog2(n))
    else if kind == "elimination" then ((n - 1) * g, TournamentSwiss.CeilLog2(n))
    else if kind == "double-elimination" then (((n - 1) * 2 - 1) * g, TournamentSwiss.CeilLog2(n) * 2)
    else if kind == "arena" then (n * 20, 1)
    else (0, 0)
  }

  /** `updateDurationEstimate` for n selected participants. */
  function DurationEstimate(kind: string, n: nat, g: nat, concurrentGames: nat): Estimate
    requires concurrentGames >= 1
  {
    if n < 2 then NeedTwoParticipants
    else
      var (games, rounds) := GamesAndRounds(kind, n, g);
      var totalTime := (games * AvgGameTime + concurrentGames - 1) / concurrentGames;
      Estimate(games, rounds, totalTime, totalTime / 60, totalTime % 60)
  }

  /**
   * The time is the least whole number of minutes in which `concurrentGames`
   * parallel slots fit every game, and it is shown as hours and minutes.
   */
  lemma EstimateTime(kind: string, n: nat, g: nat, concurrentGames: nat)
    requires concurrentGames >= 1
    ensures var e := DurationEstimate(kind, n, g, concurrentGames);
      (e.NeedTwoParticipants? <==> n < 2) &&
      (e.Estimate? ==>
        concurrentGames * e.totalTime >= e.totalGames * AvgGameTime &&
        (e.totalTime == 0 || concurrentGames * (e.totalTime - 1) < e.totalGames * AvgGameTime) &&
        e.hours * 60 + e.minutes == e.totalTime && e.minutes < 60)
  {
    if n >= 2 {
      var e := DurationEstimate(kind, n, g, concurrentGames);
      var work := e.totalGames * AvgGameTime;
      CeilDivBounds(work, concurrentGames);
    }
  }

  /** The defining bounds of ⌈w / c⌉. */
  lemma CeilDivBounds(w: nat, c: nat)
    requires c >= 1
    ensures c * ((w + c - 1) / c) >= w
    ensures (w + c - 1) / c == 0 || c * ((w + c - 1) / c - 1) < w
  {
    var q := (w + c - 1) / c;
    var rem := (w + c - 1) % c;
    assert w + c - 1 == c * q + rem && 0 <= rem < c;
    if q > 0 {
      assert c * (q - 1) == c * q - c;
    }
  }

  /** The knockout estimate, (n - 1)·g games in ⌈log2 n⌉ rounds, is exactly what the bracket schedules. */
  lemma EstimateMatchesKnockout(participants: seq<string>, g: nat, concurrentGames: nat, draw: (nat, nat) -> nat)
    requires concurrentGames >= 1 && |participants| >= 2
    ensures var e := DurationEstimate("elimination", |participants|, g, concurrentGames);
      e.totalGames == TotalGames(TournamentKnockout.Knockout(participants, g, draw, 1)) &&
      e.totalRounds == |TournamentKnockout.Knockout(participants, g, draw, 1)|
  {
    TournamentKnockout.KnockoutTotal(participants, g, draw, 1);
    TournamentKnockout.KnockoutLength(participants, g, draw, 1);
  }

  /**
   * The round-robin estimate counts n(n - 1)·g games, twice the n(n - 1)/2·g
   * that `generateRoundRobinPairings` schedules, and n - 1 rounds where an
   * odd field gets n.
   */
  lemma EstimateVsRoundRobin(participants: seq<string>, g: nat, concurrentGames: nat)
    requires concurrentGames >= 1 && |participants| >= 2 && Distinct(participants) && Bye !in participants
    ensures var e := DurationEstimate("round-robin", |participants|, g, concurrentGames);
      e.totalGames == 2 * TotalGames(RoundRobin(participants, g)) &&
      e.totalRounds + (if |participants| % 2 == 1 then 1 else 0) == |RoundRobin(participants, g)|
  {
    var n := |participants|;
    var e := DurationEstimate("round-robin", n, g, concurrentGames);
    var schedule := RoundRobin(participants, g);
    RoundRobinFigures(n, g, concurrentGames);
    var total := TotalGames(schedule);
    assert total == n * (n - 1) / 2 * g by {
      RoundRobinTotal(participants, g);
    }
    assert e.totalGames == 2 * total by {
      DoubleHalf(n, g);
    }
  }

  lemma RoundRobinFigures(n: nat, g: nat, concurrentGames: nat)
    requires concurrentGames >= 1 && n >= 2
    ensures DurationEstimate("round-robin", n, g, concurrentGames).Estimate?
    ensures DurationEstimate("round-robin", n, g, concurrentGames).totalGames == n * (n - 1) * g
    ensures DurationEstimate("round-robin", n, g, concurrentGames).totalRounds == n - 1
  {
    assert GamesAndRounds("round-robin", n, g) == (n * (n - 1) * g, n - 1);
  }

  lemma DoubleHalf(n: nat, g: nat)
    requires n >= 1
    ensures n * (n - 1) * g == 2 * (n * (n - 1) / 2 * g)
  {
    var k := HalfOf(n);
    Twice(k, g);
  }
}
