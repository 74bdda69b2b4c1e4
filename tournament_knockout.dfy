/**
 * The knockout generator of the advanced tournament system
 * (`generateEliminationPairings` and `shuffleArray` in
 * public/js/advanced_tournament_system.js). Each round shuffles the
 * remaining field in place, pairs neighbours, and advances the first player
 * of every pair (a placeholder for the winner) plus the odd one out.
 *
 * `Math.random()` is replaced by a draw function: step i of the shuffle in
 * round `round` swaps position i with position `draw(round, i) % (i + 1)`.
 */
module TournamentKnockout {
  import opened TournamentPairings
  import TournamentSwiss

  // ---------------------------------------------------------------------
  // Fisher–Yates shuffle
  // ---------------------------------------------------------------------

  function Swap<T>(s: seq<T>, i: nat, j: nat): (r: seq<T>)
    requires i < |s| && j < |s|
    ensures |r| == |s|
  {
    s[i := s[j]][j := s[i]]
  }

  /** Exchanging two positions keeps the same elements. */
  lemma SwapPermutes<T>(s: seq<T>, i: nat, j: nat)
    requires i < |s| && j < |s|
    ensures multiset(Swap(s, i, j)) == multiset(s)
  {
  }

  /** `Math.floor(Math.random() * (i + 1))`: a position in 0..i. */
  function Pick(draw: (nat, nat) -> nat, round: nat, i: nat): (j: nat)
    ensures j <= i
  {
    draw(round, i) % (i + 1)
  }

  /** Steps i, i - 1, …, 1 of the shuffle, applied to s. */
  function ShuffleFrom<T>(s: seq<T>, i: nat, draw: (nat, nat) -> nat, round: nat): seq<T>
    requires i < |s|
    decreases i
  {
    if i == 0 then s else ShuffleFrom(Swap(s, i, Pick(draw, round, i)), i - 1, draw, round)
  }

  lemma ShuffleStep<T>(s: seq<T>, i: nat, j: nat, draw: (nat, nat) -> nat, round: nat)
    requires 0 < i < |s| && j == Pick(draw, round, i)
    ensures ShuffleFrom(s, i, draw, round) == ShuffleFrom(Swap(s, i, j), i - 1, draw, round)
  {
  }

  /** The order `shuffleArray` leaves behind. */
  function Shuffle<T>(s: seq<T>, draw: (nat, nat) -> nat, round: nat): seq<T>
  {
    if |s| == 0 then s else ShuffleFrom(s, |s| - 1, draw, round)
  }

  lemma {:induction false} ShuffleFromPermutes<T>(s: seq<T>, i: nat, draw: (nat, nat) -> nat, round: nat)
    requires i < |s|
    ensures |ShuffleFrom(s, i, draw, round)| == |s|
    ensures multiset(ShuffleFrom(s, i, draw, round)) == multiset(s)
    decreases i
  {
    if i > 0 {
      var j := Pick(draw, round, i);
      SwapPermutes(s, i, j);
      ShuffleFromPermutes(Swap(s, i, j), i - 1, draw, round);
    }
  }

  /** The shuffle only swaps: it yields a permutation of its input. */
  lemma ShufflePermutes<T>(s: seq<T>, draw: (nat, nat) -> nat, round: nat)
    ensures |Shuffle(s, draw, round)| == |s|
    ensures multiset(Shuffle(s, draw, round)) == multiset(s)
  {
    if |s| > 0 {
      ShuffleFromPermutes(s, |s| - 1, draw, round);
    }
  }

  /** `shuffleArray`: the in-place Fisher–Yates loop from the last index down to 1. */
  method ShuffleArray<T>(a: array<T>, draw: (nat, nat) -> nat, round: nat)
    modifies a
    ensures a[..] == Shuffle(old(a[..]), draw, round)
  {
    if a.Length == 0 {
      return;
    }
    ghost var goal := Shuffle(a[..], draw, round);
    ghost var current := a[..];
    var i: nat := a.Length - 1;
    while i > 0
      invariant i < a.Length == |current| && a[..] == current
      invariant ShuffleFrom(current, i, draw, round) == goal
    {
      var j := Pick(draw, round, i);
      a[i], a[j] := a[j], a[i];
      ShuffleStep(current, i, j, draw, round);
      current := Swap(current, i, j);
      i := i - 1;
    }
  }

  /** A fresh array holding s, shuffled in place and read back. */
  method ShuffledCopy(s: seq<string>, draw: (nat, nat) -> nat, round: nat) returns (r: seq<string>)
    ensures r == Shuffle(s, draw, round)
  {
    var field := new string[|s|](k requires 0 <= k < |s| => s[k]);
    assert field[..] == s;
    ShuffleArray(field, draw, round);
    r := field[..];
  }

  // ---------------------------------------------------------------------
  // One knockout round
  // ---------------------------------------------------------------------

  /** The games of the first k neighbour pairs (s[0], s[1]), (s[2], s[3]), …. */
  function KnockRound(s: seq<string>, k: nat, round: nat, g: nat): (r: seq<Pairing>)
    requires 2 * k <= |s|
    ensures |r| == k * g
  {
    if k == 0 then []
    else KnockRound(s, k - 1, round, g) + Games(s[2 * k - 2], s[2 * k - 1], round, g, true)
  }

  /** The first player of each of the first k pairs. */
  function Firsts(s: seq<string>, k: nat): (r: seq<string>)
    requires 2 * k <= |s|
    ensures |r| == k
  {
    if k == 0 then [] else Firsts(s, k - 1) + [s[2 * k - 2]]
  }

  /** `nextRoundParticipants`: the first of every pair, then the odd one out. */
  function Advancing(s: seq<string>): (r: seq<string>)
    ensures |r| == (|s| + 1) / 2
  {
    Firsts(s, |s| / 2) + if |s| % 2 == 1 then [s[|s| - 1]] else []
  }

  /** The `for (i …; i += 2)` loop of one round and the odd-player rule after it. */
  method PairUp(s: seq<string>, round: nat, gamesPerPairing: nat) returns (roundPairings: seq<Pairing>, next: seq<string>)
    ensures roundPairings == KnockRound(s, |s| / 2, round, gamesPerPairing)
    ensures next == Advancing(s)
  {
    roundPairings := [];
    next := [];
    var i := 0;
    ghost var k := 0;
    while i < |s| - 1
      invariant i == 2 * k <= |s|
      invariant roundPairings == KnockRound(s, k, round, gamesPerPairing)
      invariant next == Firsts(s, k)
    {
      var player1 := s[i];
      var player2 := s[i + 1];
      KnockRoundStep(s, k, round, gamesPerPairing);
      FirstsStep(s, k);
      roundPairings := PushGames(roundPairings, player1, player2, round, gamesPerPairing, true);
      next := next + [player1];
      i := i + 2;
      k := k + 1;
    }
    PairUpDone(s, k, round, gamesPerPairing);
    if |s| % 2 == 1 {
      next := next + [s[|s| - 1]];
    }
  }

  /** When the loop stops, k is ⌊|s|/2⌋: every pair is played and the odd one out is left. */
  lemma PairUpDone(s: seq<string>, k: nat, round: nat, g: nat)
    requires 2 * k <= |s| && |s| - 1 <= 2 * k
    ensures KnockRound(s, k, round, g) == KnockRound(s, |s| / 2, round, g)
    ensures Firsts(s, k) + (if |s| % 2 == 1 then [s[|s| - 1]] else []) == Advancing(s)
  {
    HalfAt(|s|, k);
  }

  /** One more pair: its games come last. */
  lemma KnockRoundStep(s: seq<string>, k: nat, round: nat, g: nat)
    requires 2 * k + 2 <= |s|
    ensures KnockRound(s, k + 1, round, g) == KnockRound(s, k, round, g) + Games(s[2 * k], s[2 * k + 1], round, g, true)
  {
    var j := k + 1;
    assert j - 1 == k && 2 * j - 2 == 2 * k && 2 * j - 1 == 2 * k + 1;
  }

  /** One more pair: its first player comes last. */
  lemma FirstsStep(s: seq<string>, k: nat)
    requires 2 * k + 2 <= |s|
    ensures Firsts(s, k + 1) == Firsts(s, k) + [s[2 * k]]
  {
  }

  /** The loop stops after ⌊n/2⌋ pairs. */
  lemma HalfAt(n: nat, k: nat)
    requires 2 * k <= n && n - 1 <= 2 * k
    ensures k == n / 2
  {
  }

  // ---------------------------------------------------------------------
  // The whole bracket
  // ---------------------------------------------------------------------

  /** The rounds generated from a field `current`, the first numbered `round`. */
  function Knockout(current: seq<string>, g: nat, draw: (nat, nat) -> nat, round: nat): seq<seq<Pairing>>
    decreases |current|
  {
    if |current| <= 1 then []
    else
      var shuffled := Shuffle(current, draw, round);
      ShufflePermutes(current, draw, round);
      [KnockRound(shuffled, |shuffled| / 2, round, g)] + Knockout(Advancing(shuffled), g, draw, round + 1)
  }

  /** `generateEliminationPairings`. */
  method GenerateEliminationPairings(participants: seq<string>, gamesPerPairing: nat, draw: (nat, nat) -> nat)
    returns (rounds: seq<seq<Pairing>>)
    ensures rounds == Knockout(participants, gamesPerPairing, draw, 1)
  {
    rounds := [];
    var currentParticipants := participants;
    var roundNumber := 1;
    while |currentParticipants| > 1
      invariant rounds + Knockout(currentParticipants, gamesPerPairing, draw, roundNumber)
             == Knockout(participants, gamesPerPairing, draw, 1)
      decreases |currentParticipants|
    {
      var shuffled := ShuffledCopy(currentParticipants, draw, roundNumber);
      var roundPairings, nextRoundParticipants := PairUp(shuffled, roundNumber, gamesPerPairing);
      ShufflePermutes(currentParticipants, draw, roundNumber);
      rounds := rounds + [roundPairings];
      currentParticipants := nextRoundParticipants;
      roundNumber := roundNumber + 1;
    }
  }

  /** The field sizes of the successive rounds: n, ⌈n/2⌉, … while above 1. */
  function Sizes(n: nat): seq<nat>
  {
    if n <= 1 then [] else [n] + Sizes((n + 1) / 2)
  }

  /** One step of the bracket: the shuffled field's round, then the bracket of those advancing. */
  lemma KnockoutCons(current: seq<string>, g: nat, draw: (nat, nat) -> nat, round: nat) returns (shuffled: seq<string>)
    requires |current| > 1
    ensures shuffled == Shuffle(current, draw, round)
    ensures |shuffled| == |current| && multiset(shuffled) == multiset(current)
    ensures Knockout(current, g, draw, round)
         == [KnockRound(shuffled, |shuffled| / 2, round, g)] + Knockout(Advancing(shuffled), g, draw, round + 1)
  {
    shuffled := Shuffle(current, draw, round);
    ShufflePermutes(current, draw, round);
  }

  /** The bracket has ⌈log2 n⌉ rounds, one per field size. */
  lemma {:induction false} KnockoutLength(current: seq<string>, g: nat, draw: (nat, nat) -> nat, round: nat)
    ensures |Knockout(current, g, draw, round)| == |Sizes(|current|)| == TournamentSwiss.CeilLog2(|current|)
    decreases |current|
  {
    if |current| > 1 {
      var shuffled := KnockoutCons(current, g, draw, round);
      KnockoutLength(Advancing(shuffled), g, draw, round + 1);
    }
  }

  /** Round r of the bracket holds ⌊m/2⌋ pairings of g games, m being the r-th field size. */
  lemma {:induction false} KnockoutRoundSize(current: seq<string>, g: nat, draw: (nat, nat) -> nat, round: nat, r: nat)
    requires r < |Sizes(|current|)|
    ensures r < |Knockout(current, g, draw, round)|
    ensures |Knockout(current, g, draw, round)[r]| == Sizes(|current|)[r] / 2 * g
    decreases |current|
  {
    var n := |current|;
    var shuffled := KnockoutCons(current, g, draw, round);
    var next := Advancing(shuffled);
    var sizes, later := Sizes(n), Sizes(|next|);
    assert sizes == [n] + later;
    var ks, rest := Knockout(current, g, draw, round), Knockout(next, g, draw, round + 1);
    if r == 0 {
      assert ks[0] == KnockRound(shuffled, n / 2, round, g);
    } else {
      KnockoutRoundSize(next, g, draw, round + 1, r - 1);
      assert |ks[r]| == |rest[r - 1]| == later[r - 1] / 2 * g;
    }
  }

  /** A knockout of n ≥ 1 entrants plays n - 1 pairings: each one removes one entrant. */
  lemma {:induction false} KnockoutTotal(current: seq<string>, g: nat, draw: (nat, nat) -> nat, round: nat)
    requires |current| >= 1
    ensures TotalGames(Knockout(current, g, draw, round)) == (|current| - 1) * g
    decreases |current|
  {
    if |current| > 1 {
      var n := |current|;
      var shuffled := KnockoutCons(current, g, draw, round);
      var next := Advancing(shuffled);
      var first := KnockRound(shuffled, n / 2, round, g);
      var rest := Knockout(next, g, draw, round + 1);
      KnockoutTotal(next, g, draw, round + 1);
      TotalGamesCons(first, rest);
      var here, later := |first|, TotalGames(rest);
      assert here == n / 2 * g;
      assert later == ((n + 1) / 2 - 1) * g;
      SplitField(n, g);
      assert here + later == (n - 1) * g;
    }
  }

  lemma TotalGamesCons(first: seq<Pairing>, rest: seq<seq<Pairing>>)
    ensures TotalGames([first] + rest) == |first| + TotalGames(rest)
  {
    assert ([first] + rest)[1..] == rest;
  }

  /** ⌊n/2⌋ games this round and (⌈n/2⌉ - 1) after it make n - 1. */
  lemma SplitField(n: nat, g: nat)
    requires n > 1
    ensures n / 2 * g + ((n + 1) / 2 - 1) * g == (n - 1) * g
  {
    assert n / 2 + ((n + 1) / 2 - 1) == n - 1;
    Distribute(n / 2, (n + 1) / 2 - 1, g);
  }

  lemma Distribute(x: nat, y: nat, g: nat)
    ensures x * g + y * g == (x + y) * g
  {
  }

  lemma {:induction false} KnockRoundSource(s: seq<string>, k: nat, round: nat, g: nat, p: Pairing) returns (i: nat)
    requires 2 * k <= |s| && p in KnockRound(s, k, round, g)
    ensures i < k && p in Games(s[2 * i], s[2 * i + 1], round, g, true)
  {
    if p in KnockRound(s, k - 1, round, g) {
      i := KnockRoundSource(s, k - 1, round, g, p);
    } else {
      i := k - 1;
    }
  }

  lemma {:induction false} FirstsFrom(s: seq<string>, k: nat, x: string)
    requires 2 * k <= |s| && x in Firsts(s, k)
    ensures x in s
  {
    if x != s[2 * k - 2] {
      FirstsFrom(s, k - 1, x);
    }
  }

  /** Every game of round r is an elimination game numbered round + r between two entrants. */
  lemma {:induction false} KnockoutGame(current: seq<string>, g: nat, draw: (nat, nat) -> nat, round: nat, r: nat, p: Pairing)
    requires r < |Knockout(current, g, draw, round)| && p in Knockout(current, g, draw, round)[r]
    ensures p.white in current && p.black in current && p.elimination && p.round == round + r
    decreases |current|
  {
    var shuffled := KnockoutCons(current, g, draw, round);
    if r == 0 {
      KnockRoundGame(shuffled, round, g, p);
    } else {
      var next := Advancing(shuffled);
      KnockoutGame(next, g, draw, round + 1, r - 1, p);
      AdvancingFrom(shuffled, p.white);
      AdvancingFrom(shuffled, p.black);
    }
    SameMembers(shuffled, current, p.white);
    SameMembers(shuffled, current, p.black);
  }

  /** The games of a round are elimination games between two of its players. */
  lemma KnockRoundGame(s: seq<string>, round: nat, g: nat, p: Pairing)
    requires p in KnockRound(s, |s| / 2, round, g)
    ensures p.white in s && p.black in s && p.elimination && p.round == round
  {
    var i := KnockRoundSource(s, |s| / 2, round, g, p);
    GamesPlayers(s[2 * i], s[2 * i + 1], round, g, true);
    assert Players(p) == {s[2 * i], s[2 * i + 1]};
  }

  /** Only players of the round advance. */
  lemma AdvancingFrom(s: seq<string>, x: string)
    requires x in Advancing(s)
    ensures x in s
  {
    if x in Firsts(s, |s| / 2) {
      FirstsFrom(s, |s| / 2, x);
    }
  }

  lemma SameMembers(s: seq<string>, t: seq<string>, x: string)
    requires multiset(s) == multiset(t) && x in s
    ensures x in t
  {
    assert x in multiset(s);
  }
}
