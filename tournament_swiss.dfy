/**
 * The greedy Swiss generator of the advanced tournament system
 * (`generateSwissPairings` and `havePlayedBefore` in
 * public/js/advanced_tournament_system.js): ⌈log2 n⌉ rounds, each pairing
 * the first unpaired entrant with the next unpaired entrant it has not met.
 */
module TournamentSwiss {
  import opened TournamentPairings

  /** ⌈log2 n⌉ for n ≥ 1, and 0 for n ≤ 1 (`Math.ceil(Math.log2(n))` rounds). */
  function CeilLog2(n: nat): nat
  {
    if n <= 1 then 0 else 1 + CeilLog2((n + 1) / 2)
  }

  function Pow2(k: nat): (r: nat)
    ensures r >= 1
  {
    if k == 0 then 1 else 2 * Pow2(k - 1)
  }

  /** `CeilLog2(n)` is the least k with n ≤ 2^k. */
  lemma {:induction false} CeilLog2Bounds(n: nat)
    requires n >= 1
    ensures n <= Pow2(CeilLog2(n))
    ensures n >= 2 ==> CeilLog2(n) >= 1 && Pow2(CeilLog2(n) - 1) < n
    decreases n
  {
    if n >= 2 {
      var m := (n + 1) / 2;
      CeilLog2Bounds(m);
      assert CeilLog2(n) == 1 + CeilLog2(m);
      if m >= 2 {
        assert Pow2(CeilLog2(m)) == 2 * Pow2(CeilLog2(m) - 1);
      }
    }
  }

  /** Some game of the earlier rounds is between u and v. */
  predicate PlayedBefore(u: string, v: string, rounds: seq<seq<Pairing>>) {
    exists r, p :: 0 <= r < |rounds| && p in rounds[r] && Between(p, u, v)
  }

  /** `havePlayedBefore`: a search through every pairing of every earlier round. */
  method HavePlayedBefore(player1: string, player2: string, previousRounds: seq<seq<Pairing>>) returns (played: bool)
    ensures played <==> PlayedBefore(player1, player2, previousRounds)
  {
    var r := 0;
    while r < |previousRounds|
      invariant 0 <= r <= |previousRounds|
      invariant forall r', p :: 0 <= r' < r && p in previousRounds[r'] ==> !Between(p, player1, player2)
    {
      var round := previousRounds[r];
      var k := 0;
      while k < |round|
        invariant 0 <= k <= |round|
        invariant forall k' :: 0 <= k' < k ==> !Between(round[k'], player1, player2)
      {
        var pairing := round[k];
        if (pairing.white == player1 && pairing.black == player2) || (pairing.white == player2 && pairing.black == player1) {
          assert 0 <= r < |previousRounds| && pairing in previousRounds[r] && Between(pairing, player1, player2);
          return true;
        }
        k := k + 1;
      }
      r := r + 1;
    }
    return false;
  }

  /** The games of a list of pairs, in order. */
  function PairGames(pairs: seq<(string, string)>, round: nat, g: nat): seq<Pairing>
  {
    if |pairs| == 0 then []
    else PairGames(pairs[..|pairs| - 1], round, g) + Games(pairs[|pairs| - 1].0, pairs[|pairs| - 1].1, round, g, false)
  }

  /** The names in a list of pairs. */
  function Names(pairs: seq<(string, string)>): set<string>
  {
    if |pairs| == 0 then {} else Names(pairs[..|pairs| - 1]) + {pairs[|pairs| - 1].0, pairs[|pairs| - 1].1}
  }

  /** No name occurs in two different pairs. */
  predicate Disjoint(pairs: seq<(string, string)>) {
    forall k, l :: 0 <= k < l < |pairs| ==>
      pairs[k].0 != pairs[l].0 && pairs[k].0 != pairs[l].1 && pairs[k].1 != pairs[l].0 && pairs[k].1 != pairs[l].1
  }

  predicate Share(p1: Pairing, p2: Pairing) {
    p1.white == p2.white || p1.white == p2.black || p1.black == p2.white || p1.black == p2.black
  }

  /** Two games of one round that share a player are between the same two players. */
  predicate OneOpponent(round: seq<Pairing>) {
    forall p1, p2 :: p1 in round && p2 in round && Share(p1, p2) ==> Players(p1) == Players(p2)
  }

  /** What a Swiss round promises about its games. */
  predicate SoundRound(order: seq<string>, rounds: seq<seq<Pairing>>, round: nat, roundPairings: seq<Pairing>) {
    OneOpponent(roundPairings) &&
    forall p :: p in roundPairings ==>
      p.white in order && p.black in order && p.round == round && !PlayedBefore(p.white, p.black, rounds)
  }

  /** A game of a list of pairs comes from one pair. */
  lemma {:induction false} PairSource(pairs: seq<(string, string)>, round: nat, g: nat, p: Pairing) returns (k: nat)
    requires p in PairGames(pairs, round, g)
    ensures k < |pairs| && p in Games(pairs[k].0, pairs[k].1, round, g, false)
  {
    var last := |pairs| - 1;
    if p in PairGames(pairs[..last], round, g) {
      k := PairSource(pairs[..last], round, g, p);
    } else {
      k := last;
    }
  }

  lemma {:induction false} NamesOf(pairs: seq<(string, string)>, k: nat)
    requires k < |pairs|
    ensures pairs[k].0 in Names(pairs) && pairs[k].1 in Names(pairs)
  {
    if k < |pairs| - 1 {
      NamesOf(pairs[..|pairs| - 1], k);
    }
  }

  /** The pairs chosen so far in a round, and what the greedy choice keeps true of them. */
  predicate Chosen(order: seq<string>, rounds: seq<seq<Pairing>>, pairs: seq<(string, string)>) {
    Disjoint(pairs) &&
    forall k :: 0 <= k < |pairs| ==>
      pairs[k].0 in order && pairs[k].1 in order && !PlayedBefore(pairs[k].0, pairs[k].1, rounds)
  }

  /** Adding a pair of names that no earlier pair uses keeps the pairs disjoint. */
  lemma ChosenSnoc(order: seq<string>, rounds: seq<seq<Pairing>>, pairs: seq<(string, string)>, a: string, b: string)
    requires Chosen(order, rounds, pairs) && a !in Names(pairs) && b !in Names(pairs)
    requires a in order && b in order && !PlayedBefore(a, b, rounds)
    ensures Chosen(order, rounds, pairs + [(a, b)])
  {
    var ps := pairs + [(a, b)];
    forall k | 0 <= k < |pairs|
      ensures ps[k].0 != a && ps[k].0 != b && ps[k].1 != a && ps[k].1 != b
    {
      NamesOf(pairs, k);
    }
  }

  /** The games of disjoint, fresh pairs form a sound round. */
  lemma ChosenSound(order: seq<string>, rounds: seq<seq<Pairing>>, pairs: seq<(string, string)>, round: nat, g: nat)
    requires Chosen(order, rounds, pairs)
    ensures SoundRound(order, rounds, round, PairGames(pairs, round, g))
  {
    var games := PairGames(pairs, round, g);
    forall p | p in games
      ensures p.white in order && p.black in order && p.round == round && !PlayedBefore(p.white, p.black, rounds)
    {
      var k := PairSource(pairs, round, g, p);
      ChosenGame(order, rounds, pairs, k, round, g, p);
    }
    forall p1, p2 | p1 in games && p2 in games && Share(p1, p2)
      ensures Players(p1) == Players(p2)
    {
      var k1 := PairSource(pairs, round, g, p1);
      var k2 := PairSource(pairs, round, g, p2);
      SamePair(pairs, k1, k2, round, g, p1, p2);
    }
  }

  lemma ChosenGame(order: seq<string>, rounds: seq<seq<Pairing>>, pairs: seq<(string, string)>, k: nat, round: nat, g: nat, p: Pairing)
    requires Chosen(order, rounds, pairs) && k < |pairs| && p in Games(pairs[k].0, pairs[k].1, round, g, false)
    ensures p.white in order && p.black in order && p.round == round && !PlayedBefore(p.white, p.black, rounds)
  {
    GamesPlayers(pairs[k].0, pairs[k].1, round, g, false);
    if PlayedBefore(p.white, p.black, rounds) {
      var r, q :| 0 <= r < |rounds| && q in rounds[r] && Between(q, p.white, p.black);
      assert Between(q, pairs[k].0, pairs[k].1);
    }
  }

  lemma SamePair(pairs: seq<(string, string)>, k1: nat, k2: nat, round: nat, g: nat, p1: Pairing, p2: Pairing)
    requires Disjoint(pairs) && k1 < |pairs| && k2 < |pairs| && Share(p1, p2)
    requires p1 in Games(pairs[k1].0, pairs[k1].1, round, g, false)
    requires p2 in Games(pairs[k2].0, pairs[k2].1, round, g, false)
    ensures Players(p1) == Players(p2)
  {
    GamesPlayers(pairs[k1].0, pairs[k1].1, round, g, false);
    GamesPlayers(pairs[k2].0, pairs[k2].1, round, g, false);
    if k1 < k2 {
      assert false;
    } else if k2 < k1 {
      assert false;
    }
  }

  /** Nobody in a round's games is u. */
  predicate Idle(u: string, roundPairings: seq<Pairing>) {
    forall p :: p in roundPairings ==> p.white != u && p.black != u
  }

  /** The greedy round leaves no two entrants idle that could still have been paired. */
  predicate Maximal(order: seq<string>, rounds: seq<seq<Pairing>>, roundPairings: seq<Pairing>) {
    forall u, v :: u in order && v in order && u != v && Idle(u, roundPairings) && Idle(v, roundPairings) ==>
      PlayedBefore(u, v, rounds)
  }

  /** The set of names in a sequence. */
  function Elements(s: seq<string>): (r: set<string>)
    ensures forall x :: x in r <==> x in s
    ensures |r| <= |s|
  {
    if |s| == 0 then {}
    else
      var init := s[..|s| - 1];
      assert s == init + [s[|s| - 1]];
      Elements(init) + {s[|s| - 1]}
  }

  lemma {:induction false} DistinctElements(s: seq<string>)
    requires Distinct(s)
    ensures |Elements(s)| == |s|
  {
    if |s| > 0 {
      var init := s[..|s| - 1];
      assert Distinct(init);
      DistinctElements(init);
      assert s[|s| - 1] !in init;
    }
  }

  lemma PlayedSymmetric(u: string, v: string, rounds: seq<seq<Pairing>>)
    requires PlayedBefore(u, v, rounds)
    ensures PlayedBefore(v, u, rounds)
  {
    var r, p :| 0 <= r < |rounds| && p in rounds[r] && Between(p, u, v);
    assert Between(p, v, u);
  }

  /** A name of a list of pairs belongs to one of its pairs. */
  lemma {:induction false} NamesMember(pairs: seq<(string, string)>, x: string) returns (k: nat)
    requires x in Names(pairs)
    ensures k < |pairs| && (pairs[k].0 == x || pairs[k].1 == x)
  {
    var last := |pairs| - 1;
    if x in Names(pairs[..last]) {
      k := NamesMember(pairs[..last], x);
    } else {
      k := last;
    }
  }

  /** Disjoint pairs of two different names name twice as many entrants as there are pairs. */
  lemma {:induction false} NamesCard(pairs: seq<(string, string)>)
    requires Disjoint(pairs) && forall k :: 0 <= k < |pairs| ==> pairs[k].0 != pairs[k].1
    ensures |Names(pairs)| == 2 * |pairs|
  {
    if |pairs| > 0 {
      var last := |pairs| - 1;
      var init := pairs[..last];
      assert Disjoint(init);
      NamesCard(init);
      if pairs[last].0 in Names(init) {
        var k := NamesMember(init, pairs[last].0);
        assert false;
      }
      if pairs[last].1 in Names(init) {
        var k := NamesMember(init, pairs[last].1);
        assert false;
      }
    }
  }

  lemma {:induction false} PairGamesHas(pairs: seq<(string, string)>, k: nat, round: nat, g: nat, q: Pairing)
    requires k < |pairs| && q in Games(pairs[k].0, pairs[k].1, round, g, false)
    ensures q in PairGames(pairs, round, g)
  {
    var last := |pairs| - 1;
    if k < last {
      PairGamesHas(pairs[..last], k, round, g, q);
    }
  }

  /** With at least one game per pairing, every name of the pairs plays. */
  lemma PairedPlays(pairs: seq<(string, string)>, round: nat, g: nat, x: string)
    requires g > 0 && x in Names(pairs)
    ensures !Idle(x, PairGames(pairs, round, g))
  {
    var k := NamesMember(pairs, x);
    GamesAt(pairs[k].0, pairs[k].1, round, g, false);
    var q := Games(pairs[k].0, pairs[k].1, round, g, false)[0];
    PairGamesHas(pairs, k, round, g, q);
  }

  /** The pairing loop's progress: two unpaired entrants at positions a < i and b > a have met. */
  predicate GreedySoFar(order: seq<string>, rounds: seq<seq<Pairing>>, paired: set<string>, i: nat) {
    forall a, b :: 0 <= a < i && a < b < |order| && order[a] !in paired && order[b] !in paired ==>
      PlayedBefore(order[a], order[b], rounds)
  }

  /** One step of the pairing loop keeps its progress. */
  lemma GreedyStep(order: seq<string>, rounds: seq<seq<Pairing>>, paired: set<string>, paired': set<string>, i: nat)
    requires i < |order| && GreedySoFar(order, rounds, paired, i) && paired <= paired'
    requires order[i] in paired' || forall j :: i < j < |order| ==> order[j] in paired || PlayedBefore(order[i], order[j], rounds)
    ensures GreedySoFar(order, rounds, paired', i + 1)
  {
  }

  lemma {:induction false} SubsetCard(a: set<string>, b: set<string>)
    requires a <= b
    ensures |a| <= |b|
    decreases a
  {
    if a != {} {
      var x :| x in a;
      SubsetCard(a - {x}, b - {x});
    }
  }

  /** Two more entrants outside the paired ones cannot fit once all but one are paired. */
  lemma TwoUnpaired(order: seq<string>, paired: set<string>, u: string, v: string)
    requires forall x :: x in paired ==> x in order
    requires u in order && v in order && u != v && u !in paired && v !in paired
    ensures |paired| + 2 <= |order|
  {
    var both := paired + {u, v};
    assert |both| == |paired| + 2;
    SubsetCard(both, Elements(order));
  }

  /** After the last position, any two different unpaired entrants have met. */
  lemma UnpairedMet(order: seq<string>, rounds: seq<seq<Pairing>>, paired: set<string>, u: string, v: string)
    requires GreedySoFar(order, rounds, paired, |order|)
    requires u in order && v in order && u != v && u !in paired && v !in paired
    ensures PlayedBefore(u, v, rounds)
  {
    var a :| 0 <= a < |order| && order[a] == u;
    var b :| 0 <= b < |order| && order[b] == v;
    if a < b {
      assert PlayedBefore(order[a], order[b], rounds);
    } else if b < a {
      assert PlayedBefore(order[b], order[a], rounds);
      PlayedSymmetric(v, u, rounds);
    }
  }

  /** An idle entrant is unpaired, when every pairing has games. */
  lemma IdleUnpaired(pairs: seq<(string, string)>, round: nat, g: nat, x: string)
    requires g > 0 && Idle(x, PairGames(pairs, round, g))
    ensures x !in Names(pairs)
  {
    if x in Names(pairs) {
      PairedPlays(pairs, round, g, x);
    }
  }

  /**
   * When the loop has looked at every position, or has paired all but at
   * most one entrant, two different unpaired entrants have met before.
   */
  lemma GreedyMaximal(order: seq<string>, rounds: seq<seq<Pairing>>, pairs: seq<(string, string)>, i: nat, round: nat, g: nat)
    requires g > 0 && i <= |order| && (i == |order| || |Names(pairs)| >= |order| - 1)
    requires forall x :: x in Names(pairs) ==> x in order
    requires GreedySoFar(order, rounds, Names(pairs), i)
    ensures Maximal(order, rounds, PairGames(pairs, round, g))
  {
    var games := PairGames(pairs, round, g);
    var paired := Names(pairs);
    forall u, v | u in order && v in order && u != v && Idle(u, games) && Idle(v, games)
      ensures PlayedBefore(u, v, rounds)
    {
      IdleUnpaired(pairs, round, g, u);
      IdleUnpaired(pairs, round, g, v);
      if i < |order| {
        TwoUnpaired(order, paired, u, v);
      } else {
        UnpairedMet(order, rounds, paired, u, v);
      }
    }
  }

  /** An unpaired name is idle. */
  lemma UnpairedIdle(pairs: seq<(string, string)>, round: nat, g: nat, x: string)
    requires x !in Names(pairs)
    ensures Idle(x, PairGames(pairs, round, g))
  {
    forall p | p in PairGames(pairs, round, g)
      ensures p.white != x && p.black != x
    {
      var k := PairSource(pairs, round, g, p);
      GamesPlayers(pairs[k].0, pairs[k].1, round, g, false);
      NamesOf(pairs, k);
    }
  }

  /**
   * In a first round, an even field of different entrants is paired off
   * completely: a maximal round with no earlier games leaves at most one
   * entrant idle, and disjoint pairs name an even number of entrants.
   */
  lemma FirstRoundPairsAll(order: seq<string>, pairs: seq<(string, string)>, round: nat, g: nat)
    requires Distinct(order) && |order| % 2 == 0 && g > 0
    requires Disjoint(pairs) && forall k :: 0 <= k < |pairs| ==> pairs[k].0 != pairs[k].1
    requires forall x :: x in Names(pairs) ==> x in order
    requires Maximal(order, [], PairGames(pairs, round, g))
    ensures forall u :: u in order ==> !Idle(u, PairGames(pairs, round, g))
  {
    forall u | u in order
      ensures !Idle(u, PairGames(pairs, round, g))
    {
      if Idle(u, PairGames(pairs, round, g)) {
        IdleCount(order, pairs, round, g, u);
      }
    }
  }

  /** An idle entrant of such a round would leave an odd field. */
  lemma IdleCount(order: seq<string>, pairs: seq<(string, string)>, round: nat, g: nat, u: string)
    requires Distinct(order) && g > 0 && u in order && Idle(u, PairGames(pairs, round, g))
    requires Disjoint(pairs) && forall k :: 0 <= k < |pairs| ==> pairs[k].0 != pairs[k].1
    requires forall x :: x in Names(pairs) ==> x in order
    requires Maximal(order, [], PairGames(pairs, round, g))
    ensures |order| == 2 * |pairs| + 1 && |order| % 2 == 1
  {
    IdleUnpaired(pairs, round, g, u);
    OthersPaired(order, pairs, round, g, u);
    NamesCard(pairs);
    AllButOne(order, Names(pairs), u);
    OddCount(|order|, |pairs|);
  }

  lemma OddCount(n: nat, k: nat)
    requires n == 2 * k + 1
    ensures n % 2 == 1
  {
  }

  /** Entrants of a field of different names, all but one of them named, number one less than the field. */
  lemma AllButOne(order: seq<string>, names: set<string>, u: string)
    requires Distinct(order) && u in order && u !in names
    requires forall x :: x in names ==> x in order
    requires forall v :: v in order && v != u ==> v in names
    ensures |names| == |order| - 1
  {
    DistinctElements(order);
    var rest := Elements(order) - {u};
    assert |rest| == |order| - 1;
    assert names <= rest;
    assert rest <= names;
    SubsetCard(names, rest);
    SubsetCard(rest, names);
  }

  lemma OthersPaired(order: seq<string>, pairs: seq<(string, string)>, round: nat, g: nat, u: string)
    requires u in order && Idle(u, PairGames(pairs, round, g))
    requires Maximal(order, [], PairGames(pairs, round, g))
    ensures forall v :: v in order && v != u ==> v in Names(pairs)
  {
    forall v | v in order && v != u
      ensures v in Names(pairs)
    {
      if v !in Names(pairs) {
        UnpairedIdle(pairs, round, g, v);
      }
    }
  }

  /**
   * The inner `for (j …)` loop: the first entrant after i that is not yet
   * paired this round and has not met entrant i, or |order| when there is none.
   */
  method FindOpponent(order: seq<string>, paired: set<string>, i: nat, rounds: seq<seq<Pairing>>) returns (j: nat)
    requires i < |order|
    ensures i < j <= |order|
    ensures j < |order| ==> order[j] !in paired && !PlayedBefore(order[i], order[j], rounds)
    ensures forall j' :: i < j' < j ==> order[j'] in paired || PlayedBefore(order[i], order[j'], rounds)
  {
    j := i + 1;
    while j < |order|
      invariant i < j <= |order|
      invariant forall j' :: i < j' < j ==> order[j'] in paired || PlayedBefore(order[i], order[j'], rounds)
    {
      if order[j] !in paired {
        var hasPlayed := HavePlayedBefore(order[i], order[j], rounds);
        if !hasPlayed {
          return;
        }
      }
      j := j + 1;
    }
  }

  /** What the pairing loop keeps true of the pairs it has chosen. */
  predicate PairState(order: seq<string>, rounds: seq<seq<Pairing>>, pairs: seq<(string, string)>) {
    Chosen(order, rounds, pairs) &&
    (forall x :: x in Names(pairs) ==> x in order) &&
    (Distinct(order) ==> forall k :: 0 <= k < |pairs| ==> pairs[k].0 != pairs[k].1)
  }

  /** Pairing the entrant at i with a later unpaired one it has not met keeps the loop's facts. */
  lemma PairStateSnoc(order: seq<string>, rounds: seq<seq<Pairing>>, pairs: seq<(string, string)>, i: nat, j: nat)
    requires PairState(order, rounds, pairs) && i < j < |order|
    requires order[i] !in Names(pairs) && order[j] !in Names(pairs) && !PlayedBefore(order[i], order[j], rounds)
    ensures PairState(order, rounds, pairs + [(order[i], order[j])])
    ensures Names(pairs + [(order[i], order[j])]) == Names(pairs) + {order[i], order[j]}
  {
    var ps := pairs + [(order[i], order[j])];
    assert ps[..|ps| - 1] == pairs;
    ChosenSnoc(order, rounds, pairs, order[i], order[j]);
  }

  /** One round of `generateSwissPairings`, numbered round + 1. */
  method SwissRound(order: seq<string>, rounds: seq<seq<Pairing>>, round: nat, gamesPerPairing: nat)
    returns (roundPairings: seq<Pairing>)
    ensures SoundRound(order, rounds, round + 1, roundPairings)
    ensures gamesPerPairing > 0 ==> Maximal(order, rounds, roundPairings)
    ensures gamesPerPairing > 0 && rounds == [] && Distinct(order) && |order| % 2 == 0 ==>
              forall u :: u in order ==> !Idle(u, roundPairings)
  {
    roundPairings := [];
    var paired: set<string> := {};
    ghost var pairs: seq<(string, string)> := [];
    var i := 0;
    while i < |order| && |paired| < |order| - 1
      invariant 0 <= i <= |order|
      invariant paired == Names(pairs) && PairState(order, rounds, pairs)
      invariant roundPairings == PairGames(pairs, round + 1, gamesPerPairing)
      invariant GreedySoFar(order, rounds, paired, i)
    {
      ghost var before := paired;
      if order[i] !in paired {
        var j := FindOpponent(order, paired, i, rounds);
        if j < |order| {
          PairStateSnoc(order, rounds, pairs, i, j);
          paired := paired + {order[i], order[j]};
          pairs := pairs + [(order[i], order[j])];
          roundPairings := PushGames(roundPairings, order[i], order[j], round + 1, gamesPerPairing, false);
        }
      }
      GreedyStep(order, rounds, before, paired, i);
      i := i + 1;
    }
    ChosenSound(order, rounds, pairs, round + 1, gamesPerPairing);
    if gamesPerPairing > 0 {
      GreedyMaximal(order, rounds, pairs, i, round + 1, gamesPerPairing);
      if rounds == [] && Distinct(order) && |order| % 2 == 0 {
        FirstRoundPairsAll(order, pairs, round + 1, gamesPerPairing);
      }
    }
  }

  /** What the generated rounds promise. */
  predicate SoundSwiss(order: seq<string>, rounds: seq<seq<Pairing>>) {
    forall r :: 0 <= r < |rounds| ==> SoundRound(order, rounds[..r], r + 1, rounds[r])
  }

  /**
   * `generateSwissPairings`. Every standing starts with 0 points and rating
   * 1500 and the generator never updates them, so its per-round sort by
   * points and then rating compares equal throughout and, being stable,
   * keeps the entrants in the order given.
   */
  method GenerateSwissPairings(participants: seq<string>, gamesPerPairing: nat) returns (rounds: seq<seq<Pairing>>)
    ensures |rounds| == CeilLog2(|participants|)
    ensures SoundSwiss(participants, rounds)
    ensures gamesPerPairing > 0 ==> GreedySwiss(participants, rounds)
    ensures gamesPerPairing > 0 && Distinct(participants) && |participants| % 2 == 0 && |rounds| > 0 ==>
              forall u :: u in participants ==> !Idle(u, rounds[0])
  {
    rounds := [];
    var numberOfRounds := CeilLog2(|participants|);
    var round := 0;
    while round < numberOfRounds
      invariant 0 <= round <= numberOfRounds && |rounds| == round
      invariant SoundSwiss(participants, rounds)
      invariant gamesPerPairing > 0 ==> GreedySwiss(participants, rounds)
      invariant gamesPerPairing > 0 && Distinct(participants) && |participants| % 2 == 0 && |rounds| > 0 ==>
                  forall u :: u in participants ==> !Idle(u, rounds[0])
    {
      var roundPairings := SwissRound(participants, rounds, round, gamesPerPairing);
      SoundSwissSnoc(participants, rounds, roundPairings);
      if gamesPerPairing > 0 {
        GreedySwissSnoc(participants, rounds, roundPairings);
      }
      rounds := rounds + [roundPairings];
      round := round + 1;
    }
  }

  /** Every generated round is maximal given the rounds before it. */
  predicate GreedySwiss(order: seq<string>, rounds: seq<seq<Pairing>>) {
    forall r :: 0 <= r < |rounds| ==> Maximal(order, rounds[..r], rounds[r])
  }

  lemma GreedySwissSnoc(order: seq<string>, rounds: seq<seq<Pairing>>, next: seq<Pairing>)
    requires GreedySwiss(order, rounds) && Maximal(order, rounds, next)
    ensures GreedySwiss(order, rounds + [next])
  {
    var rs := rounds + [next];
    forall r | 0 <= r < |rs|
      ensures Maximal(order, rs[..r], rs[r])
    {
      if r < |rounds| {
        assert rs[..r] == rounds[..r];
      } else {
        assert rs[..r] == rounds;
      }
    }
  }

  lemma SoundSwissSnoc(order: seq<string>, rounds: seq<seq<Pairing>>, next: seq<Pairing>)
    requires SoundSwiss(order, rounds) && SoundRound(order, rounds, |rounds| + 1, next)
    ensures SoundSwiss(order, rounds + [next])
  {
    var rs := rounds + [next];
    forall r | 0 <= r < |rs|
      ensures SoundRound(order, rs[..r], r + 1, rs[r])
    {
      if r < |rounds| {
        assert rs[..r] == rounds[..r];
      } else {
        assert rs[..r] == rounds;
      }
    }
  }

  /**
   * No pair of entrants meets in two different Swiss rounds, and nobody
   * has two different opponents in one round.
   */
  lemma SwissNoRepeat(order: seq<string>, rounds: seq<seq<Pairing>>, r1: nat, r2: nat, p1: Pairing, p2: Pairing)
    requires SoundSwiss(order, rounds)
    requires r1 < r2 < |rounds| && p1 in rounds[r1] && p2 in rounds[r2]
    ensures !Between(p2, p1.white, p1.black)
  {
    assert SoundRound(order, rounds[..r2], r2 + 1, rounds[r2]);
    assert rounds[..r2][r1] == rounds[r1];
    if Between(p2, p1.white, p1.black) {
      assert Between(p1, p2.white, p2.black);
      assert PlayedBefore(p2.white, p2.black, rounds[..r2]);
      assert false;
    }
  }
}
