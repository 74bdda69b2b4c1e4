/**
 * Standings of the advanced tournament system
 * (public/js/advanced_tournament_system.js): the records built by
 * `initializeStandings`, `updateStandings` after every game, `startRound`
 * playing a round batch by batch, and the final sort of
 * `completeTournament`.
 *
 * A standing is an object the code updates in place; the tournament holds
 * the list of them. Game results, which the source draws at random after a
 * timer, are inputs.
 */
module TournamentStandings {
  import opened Wrappers
  import opened TournamentPairings
  import opened TournamentElo

  // ---------------------------------------------------------------------
  // Rows: the counters of one standing, as a value
  // ---------------------------------------------------------------------

  datatype Row = Row(points: real, games: nat, wins: nat, draws: nat, losses: nat, rating: Rating)

  /** The record `initializeStandings` creates: no games and a rating of 1500. */
  const Initial := Row(0.0, 0, 0, 0, 0, Rated(1500))

  /** The counters after one game, `white` telling which side this row played. */
  function Tally(r: Row, result: string, white: bool): Row
  {
    var r := r.(games := r.games + 1);
    if result == "1-0" then
      if white then r.(wins := r.wins + 1, points := r.points + 1.0) else r.(losses := r.losses + 1)
    else if result == "0-1" then
      if white then r.(losses := r.losses + 1) else r.(wins := r.wins + 1, points := r.points + 1.0)
    else if result == "1/2-1/2" then
      r.(draws := r.draws + 1, points := r.points + 0.5)
    else r
  }

  /** The points a side earns for a result. */
  function Earned(result: string, white: bool): real
  {
    match WhiteScore(result)
    case Some(a) => if white then a else 1.0 - a
    case None => 0.0
  }

  /**
   * One game always adds a game; a recognised result moves exactly one of
   * wins, draws and losses and adds the side's score to its points; any
   * other string changes nothing else.
   */
  lemma TallyCounts(r: Row, result: string, white: bool)
    ensures var t := Tally(r, result, white);
      t.games == r.games + 1 && t.rating == r.rating &&
      t.points == r.points + Earned(result, white) &&
      (WhiteScore(result).Some? ==> (t.wins - r.wins) + (t.draws - r.draws) + (t.losses - r.losses) == 1) &&
      (WhiteScore(result).None? ==> t == r.(games := r.games + 1)) &&
      r.wins <= t.wins && r.draws <= t.draws && r.losses <= t.losses
  {
  }

  /** The two rows of a game between different standings. */
  function PlayPair(w: Row, b: Row, result: string, expected: (int, int) -> real): (Row, Row)
  {
    var (nw, nb) := EloStep(w.rating, b.rating, result, expected);
    (Tally(w, result, true).(rating := nw), Tally(b, result, false).(rating := nb))
  }

  /**
   * A standing paired with itself: both tallies land on the one record, and
   * of the two ratings computed the black one is stored last.
   */
  function PlaySelf(r: Row, result: string, expected: (int, int) -> real): Row
  {
    var (_, nb) := EloStep(r.rating, r.rating, result, expected);
    Tally(Tally(r, result, true), result, false).(rating := nb)
  }

  /** `standings.find(s => s.participant === name)`, as an index. */
  function Find(names: seq<string>, name: string): (r: Option<nat>)
    ensures r.Some? ==> r.value < |names| && names[r.value] == name
    ensures r.Some? ==> forall k :: 0 <= k < r.value ==> names[k] != name
    ensures r.None? <==> name !in names
  {
    if |names| == 0 then None
    else if names[0] == name then Some(0)
    else match Find(names[1..], name)
      case Some(k) => Some(k + 1)
      case None => None
  }

  /** `updateStandings` on the rows of a table whose participants are `names`. */
  function Update(names: seq<string>, rows: seq<Row>, white: string, black: string, result: string,
                  expected: (int, int) -> real): (r: seq<Row>)
    requires |rows| == |names|
    ensures |r| == |rows|
  {
    match (Find(names, white), Find(names, black))
    case (Some(i), Some(j)) => PlayAt(rows, i, j, result, expected)
    case _ => rows
  }

  /** The game between the rows at i and j written back into the table. */
  function PlayAt(rows: seq<Row>, i: nat, j: nat, result: string, expected: (int, int) -> real): (r: seq<Row>)
    requires i < |rows| && j < |rows|
    ensures |r| == |rows|
  {
    if i == j then rows[i := PlaySelf(rows[i], result, expected)]
    else
      var (nw, nb) := PlayPair(rows[i], rows[j], result, expected);
      rows[i := nw][j := nb]
  }

  /** The games of a round played one after another. */
  function PlayAll(names: seq<string>, rows: seq<Row>, games: seq<Pairing>, results: seq<string>,
                   expected: (int, int) -> real): (r: seq<Row>)
    requires |rows| == |names| && |games| == |results|
    ensures |r| == |rows|
    decreases |games|
  {
    if |games| == 0 then rows
    else
      var n := |games| - 1;
      Update(names, PlayAll(names, rows, games[..n], results[..n], expected), games[n].white, games[n].black, results[n], expected)
  }

  /** One more game of a round: `updateStandings` on the table so far. */
  lemma PlayAllStep(names: seq<string>, rows: seq<Row>, games: seq<Pairing>, results: seq<string>, i: nat,
                    expected: (int, int) -> real)
    requires |rows| == |names| && |games| == |results| && i < |games|
    ensures PlayAll(names, rows, games[..i + 1], results[..i + 1], expected)
      == Update(names, PlayAll(names, rows, games[..i], results[..i], expected), games[i].white, games[i].black,
                results[i], expected)
  {
    assert games[..i + 1][..i] == games[..i];
    assert results[..i + 1][..i] == results[..i];
  }

  /** How far `for (i = 0; i < len; i += c)` has got through a round once i has passed the end. */
  function Reached(i: nat, len: nat): nat
  {
    if i < len then i else len
  }

  // ---------------------------------------------------------------------
  // Conservation
  // ---------------------------------------------------------------------

  function TotalPoints(rows: seq<Row>): real
  {
    if |rows| == 0 then 0.0 else TotalPoints(rows[..|rows| - 1]) + rows[|rows| - 1].points
  }

  function GamesPlayed(rows: seq<Row>): nat
  {
    if |rows| == 0 then 0 else GamesPlayed(rows[..|rows| - 1]) + rows[|rows| - 1].games
  }

  lemma {:induction false} TotalsAfterWrite(rows: seq<Row>, i: nat, v: Row)
    requires i < |rows|
    ensures TotalPoints(rows[i := v]) == TotalPoints(rows) - rows[i].points + v.points
    ensures GamesPlayed(rows[i := v]) == GamesPlayed(rows) - rows[i].games + v.games
  {
    var n := |rows| - 1;
    if i < n {
      TotalsAfterWrite(rows[..n], i, v);
      assert rows[i := v][..n] == rows[..n][i := v];
    } else {
      assert rows[i := v][..n] == rows[..n];
    }
  }

  /** Both players were found in the table. */
  predicate Counted(names: seq<string>, white: string, black: string)
  {
    white in names && black in names
  }

  /**
   * `updateStandings` adds 2 games to the table when both players are in it
   * (0 otherwise), and 1 point when, besides, the result is recognised.
   */
  lemma UpdateTotals(names: seq<string>, rows: seq<Row>, white: string, black: string, result: string,
                     expected: (int, int) -> real)
    requires |rows| == |names|
    ensures var r := Update(names, rows, white, black, result, expected);
      GamesPlayed(r) == GamesPlayed(rows) + (if Counted(names, white, black) then 2 else 0) &&
      TotalPoints(r) == TotalPoints(rows) +
        (if Counted(names, white, black) && WhiteScore(result).Some? then 1.0 else 0.0)
  {
    if Counted(names, white, black) {
      var i := Find(names, white).value;
      var j := Find(names, black).value;
      TallyCounts(rows[i], result, true);
      TallyCounts(rows[j], result, false);
      if i == j {
        TallyCounts(Tally(rows[i], result, true), result, false);
        TotalsAfterWrite(rows, i, PlaySelf(rows[i], result, expected));
      } else {
        var (nw, nb) := PlayPair(rows[i], rows[j], result, expected);
        TotalsAfterWrite(rows, i, nw);
        TotalsAfterWrite(rows[i := nw], j, nb);
      }
    }
  }

  /** Games of a round whose two players are both in the table. */
  function CountedGames(names: seq<string>, games: seq<Pairing>): nat
  {
    if |games| == 0 then 0
    else CountedGames(names, games[..|games| - 1]) + if Counted(names, games[|games| - 1].white, games[|games| - 1].black) then 1 else 0
  }

  /** Of those, the ones with a recognised result. */
  function DecidedGames(names: seq<string>, games: seq<Pairing>, results: seq<string>): nat
    requires |games| == |results|
  {
    if |games| == 0 then 0
    else
      var n := |games| - 1;
      DecidedGames(names, games[..n], results[..n]) +
        if Counted(names, games[n].white, games[n].black) && WhiteScore(results[n]).Some? then 1 else 0
  }

  /**
   * Each finished game of a round adds two games and, when its result is
   * recognised, exactly one point to the table.
   */
  lemma {:induction false} PlayAllTotals(names: seq<string>, rows: seq<Row>, games: seq<Pairing>, results: seq<string>,
                                         expected: (int, int) -> real)
    requires |rows| == |names| && |games| == |results|
    ensures var r := PlayAll(names, rows, games, results, expected);
      GamesPlayed(r) == GamesPlayed(rows) + 2 * CountedGames(names, games) &&
      TotalPoints(r) == TotalPoints(rows) + DecidedGames(names, games, results) as real
    decreases |games|
  {
    if |games| > 0 {
      var n := |games| - 1;
      PlayAllTotals(names, rows, games[..n], results[..n], expected);
      var before := PlayAll(names, rows, games[..n], results[..n], expected);
      UpdateTotals(names, before, games[n].white, games[n].black, results[n], expected);
    }
  }

  // ---------------------------------------------------------------------
  // Final ranking
  // ---------------------------------------------------------------------

  /** What the `completeTournament` comparator looks at. */
  datatype Key = Key(points: real, buchholz: real, rating: Rating)

  /**
   * a sorts strictly before b: more points, then a higher Buchholz score,
   * then a higher rating. A NaN rating makes the comparator return NaN, which
   * the sort reads as "equal".
   */
  predicate Outranks(a: Key, b: Key)
  {
    a.points > b.points ||
    (a.points == b.points && (a.buchholz > b.buchholz ||
      (a.buchholz == b.buchholz && a.rating.Rated? && b.rating.Rated? && a.rating.value > b.rating.value)))
  }

  /** x, earlier in the input, is placed before the first entry that does not outrank it. */
  function InsertRanked<T>(x: (T, Key), s: seq<(T, Key)>): (r: seq<(T, Key)>)
    ensures |r| == |s| + 1 && multiset(r) == multiset(s) + multiset{x}
  {
    if |s| == 0 || !Outranks(s[0].1, x.1) then [x] + s
    else
      assert s == [s[0]] + s[1..];
      [s[0]] + InsertRanked(x, s[1..])
  }

  /** `Array.prototype.sort` with that comparator: a stable insertion sort. */
  function Ranked<T>(s: seq<(T, Key)>): (r: seq<(T, Key)>)
    ensures |r| == |s| && multiset(r) == multiset(s)
  {
    if |s| == 0 then []
    else
      assert s == [s[0]] + s[1..];
      InsertRanked(s[0], Ranked(s[1..]))
  }

  /** No entry is outranked by a later one. */
  predicate RankedOrder<T>(s: seq<(T, Key)>)
  {
    forall i, j :: 0 <= i < j < |s| ==> !Outranks(s[j].1, s[i].1)
  }

  predicate NoNaN<T>(s: seq<(T, Key)>)
  {
    forall i :: 0 <= i < |s| ==> s[i].1.rating.Rated?
  }

  /** Without NaN ratings, "is not outranked by" is transitive. */
  lemma NotOutrankedTransitive(a: Key, b: Key, c: Key)
    requires a.rating.Rated? && b.rating.Rated? && c.rating.Rated?
    requires !Outranks(b, a) && !Outranks(c, b)
    ensures !Outranks(c, a)
  {
  }

  /** Inserting x adds x and nothing else. */
  lemma InsertMembers<T>(x: (T, Key), s: seq<(T, Key)>)
    ensures forall e :: e in InsertRanked(x, s) ==> e in s || e == x
  {
    var r := InsertRanked(x, s);
    forall e | e in r
      ensures e in s || e == x
    {
      assert e in multiset(r);
    }
  }

  /** An entry no later entry outranks can go in front of a ranked sequence. */
  lemma PrependOrder<T>(y: (T, Key), t: seq<(T, Key)>)
    requires RankedOrder(t)
    requires forall e :: e in t ==> !Outranks(e.1, y.1)
    ensures RankedOrder([y] + t)
  {
    var r := [y] + t;
    forall i, j | 0 <= i < j < |r|
      ensures !Outranks(r[j].1, r[i].1)
    {
      assert r[j] == t[j - 1];
      if i > 0 {
        assert r[i] == t[i - 1];
      }
    }
  }

  /** Nothing in a NaN-free ranked sequence outranks an entry its head does not outrank. */
  lemma BelowHead<T>(x: (T, Key), s: seq<(T, Key)>)
    requires RankedOrder(s) && NoNaN(s) && x.1.rating.Rated?
    requires |s| > 0 && !Outranks(s[0].1, x.1)
    ensures forall e :: e in s ==> !Outranks(e.1, x.1)
  {
    forall e | e in s
      ensures !Outranks(e.1, x.1)
    {
      var j :| 0 <= j < |s| && s[j] == e;
      if j > 0 {
        NotOutrankedTransitive(x.1, s[0].1, s[j].1);
      }
    }
  }

  lemma TailRanked<T>(s: seq<(T, Key)>)
    requires |s| > 0 && RankedOrder(s) && NoNaN(s)
    ensures RankedOrder(s[1..]) && NoNaN(s[1..])
    ensures forall e :: e in s[1..] ==> !Outranks(e.1, s[0].1)
  {
    forall e | e in s[1..]
      ensures !Outranks(e.1, s[0].1)
    {
      var j :| 0 <= j < |s[1..]| && s[1..][j] == e;
      assert s[j + 1] == e;
    }
  }

  lemma {:induction false} InsertRankedOrder<T>(x: (T, Key), s: seq<(T, Key)>)
    requires RankedOrder(s) && NoNaN(s) && x.1.rating.Rated?
    ensures RankedOrder(InsertRanked(x, s)) && NoNaN(InsertRanked(x, s))
  {
    var r := InsertRanked(x, s);
    InsertMembers(x, s);
    if |s| == 0 || !Outranks(s[0].1, x.1) {
      assert r == [x] + s;
      if |s| > 0 {
        BelowHead(x, s);
      }
      PrependOrder(x, s);
    } else {
      var rest := s[1..];
      TailRanked(s);
      InsertRankedOrder(x, rest);
      InsertMembers(x, rest);
      var t := InsertRanked(x, rest);
      assert r == [s[0]] + t;
      PrependOrder(s[0], t);
    }
    assert NoNaN(r) by {
      forall i | 0 <= i < |r|
        ensures r[i].1.rating.Rated?
      {
        assert r[i] in r;
      }
    }
  }

  /**
   * The ranking is a permutation of the table, and when no rating is NaN no
   * one is placed below someone they outrank.
   */
  lemma {:induction false} RankedSorted<T>(s: seq<(T, Key)>)
    requires NoNaN(s)
    ensures RankedOrder(Ranked(s)) && NoNaN(Ranked(s)) && multiset(Ranked(s)) == multiset(s)
  {
    if |s| > 0 {
      assert NoNaN(s[1..]) by {
        forall i | 0 <= i < |s[1..]|
          ensures s[1..][i].1.rating.Rated?
        {
          assert s[1..][i] == s[i + 1];
        }
      }
      RankedSorted(s[1..]);
      InsertRankedOrder(s[0], Ranked(s[1..]));
    }
  }

  /** Every round of the schedule played in turn. */
  function PlayRounds(names: seq<string>, rows: seq<Row>, rounds: seq<seq<Pairing>>, results: seq<seq<string>>,
                      expected: (int, int) -> real): (r: seq<Row>)
    requires |rows| == |names| && |rounds| == |results|
    requires forall k :: 0 <= k < |rounds| ==> |rounds[k]| == |results[k]|
    ensures |r| == |rows|
    decreases |rounds|
  {
    if |rounds| == 0 then rows
    else
      var n := |rounds| - 1;
      PlayAll(names, PlayRounds(names, rows, rounds[..n], results[..n], expected), rounds[n], results[n], expected)
  }

  function CountedAll(names: seq<string>, rounds: seq<seq<Pairing>>): nat
  {
    if |rounds| == 0 then 0 else CountedAll(names, rounds[..|rounds| - 1]) + CountedGames(names, rounds[|rounds| - 1])
  }

  function DecidedAll(names: seq<string>, rounds: seq<seq<Pairing>>, results: seq<seq<string>>): nat
    requires |rounds| == |results|
    requires forall k :: 0 <= k < |rounds| ==> |rounds[k]| == |results[k]|
  {
    if |rounds| == 0 then 0
    else
      var n := |rounds| - 1;
      DecidedAll(names, rounds[..n], results[..n]) + DecidedGames(names, rounds[n], results[n])
  }

  /** One more round: its games played on the table the earlier rounds left. */
  lemma PlayRoundsStep(names: seq<string>, rows: seq<Row>, rounds: seq<seq<Pairing>>, results: seq<seq<string>>, n: nat,
                       expected: (int, int) -> real)
    requires |rows| == |names| && |rounds| == |results| && n < |rounds|
    requires forall k :: 0 <= k < |rounds| ==> |rounds[k]| == |results[k]|
    ensures PlayRounds(names, rows, rounds[..n + 1], results[..n + 1], expected)
      == PlayAll(names, PlayRounds(names, rows, rounds[..n], results[..n], expected), rounds[n], results[n], expected)
  {
    assert rounds[..n + 1][..n] == rounds[..n];
    assert results[..n + 1][..n] == results[..n];
  }

  /**
   * Over a whole tournament the table gains two games per game between
   * known players and one point per such game with a recognised result.
   */
  lemma {:induction false} PlayRoundsTotals(names: seq<string>, rows: seq<Row>, rounds: seq<seq<Pairing>>,
                                            results: seq<seq<string>>, expected: (int, int) -> real)
    requires |rows| == |names| && |rounds| == |results|
    requires forall k :: 0 <= k < |rounds| ==> |rounds[k]| == |results[k]|
    ensures var r := PlayRounds(names, rows, rounds, results, expected);
      GamesPlayed(r) == GamesPlayed(rows) + 2 * CountedAll(names, rounds) &&
      TotalPoints(r) == TotalPoints(rows) + DecidedAll(names, rounds, results) as real
    decreases |rounds|
  {
    if |rounds| > 0 {
      var n := |rounds| - 1;
      PlayRoundsTotals(names, rows, rounds[..n], results[..n], expected);
      var before := PlayRounds(names, rows, rounds[..n], results[..n], expected);
      PlayAllTotals(names, before, rounds[n], results[n], expected);
    }
  }

  // ---------------------------------------------------------------------
  // The objects
  // ---------------------------------------------------------------------

  /**
   * One standing record. Its `performance` and `sonnenborn` fields are
   * never read or written after creation and are not modelled.
   */
  class Standing {
    const participant: string
    var points: real
    var games: nat
    var wins: nat
    var draws: nat
    var losses: nat
    var rating: Rating
    var buchholz: real

    /** The record `initializeStandings` maps a participant to. */
    constructor (participant: string)
      ensures this.participant == participant && Value() == Initial && buchholz == 0.0
    {
      this.participant := participant;
      points, games, wins, draws, losses := 0.0, 0, 0, 0, 0;
      rating := Rated(1500);
      buchholz := 0.0;
    }

    function Value(): Row
      reads this
    {
      Row(points, games, wins, draws, losses, rating)
    }

    function SortKey(): Key
      reads this
    {
      Key(points, buchholz, rating)
    }
  }

  function NamesOf(ss: seq<Standing>): (r: seq<string>)
    ensures |r| == |ss| && forall k :: 0 <= k < |ss| ==> r[k] == ss[k].participant
  {
    seq(|ss|, k requires 0 <= k < |ss| => ss[k].participant)
  }

  function RowsOf(ss: seq<Standing>): (r: seq<Row>)
    reads set s | s in ss
    ensures |r| == |ss| && forall k :: 0 <= k < |ss| ==> r[k] == ss[k].Value()
  {
    seq(|ss|, k requires 0 <= k < |ss| reads set s | s in ss => ss[k].Value())
  }

  function Keyed(ss: seq<Standing>): (r: seq<(Standing, Key)>)
    reads set s | s in ss
    ensures |r| == |ss| && forall k :: 0 <= k < |ss| ==> r[k] == (ss[k], ss[k].SortKey())
  {
    seq(|ss|, k requires 0 <= k < |ss| reads set s | s in ss => (ss[k], ss[k].SortKey()))
  }

  function Objects(xs: seq<(Standing, Key)>): (r: seq<Standing>)
    ensures |r| == |xs| && forall k :: 0 <= k < |xs| ==> r[k] == xs[k].0
  {
    seq(|xs|, k requires 0 <= k < |xs| => xs[k].0)
  }

  lemma ObjectsAppend(a: seq<(Standing, Key)>, b: seq<(Standing, Key)>)
    ensures Objects(a + b) == Objects(a) + Objects(b)
  {
  }

  /** Dropping the entry at k, from the pairs and from their objects, keeps the rest. */
  lemma ObjectsRemove(ys: seq<(Standing, Key)>, k: nat)
    requires k < |ys|
    ensures multiset(Objects(ys)) == multiset(Objects(ys[..k] + ys[k + 1..])) + multiset{ys[k].0}
    ensures multiset(ys) == multiset(ys[..k] + ys[k + 1..]) + multiset{ys[k]}
  {
    assert ys == ys[..k] + [ys[k]] + ys[k + 1..];
    ObjectsAppend(ys[..k] + [ys[k]], ys[k + 1..]);
    ObjectsAppend(ys[..k], [ys[k]]);
    ObjectsAppend(ys[..k], ys[k + 1..]);
  }

  lemma {:induction false} ObjectsPermute(xs: seq<(Standing, Key)>, ys: seq<(Standing, Key)>)
    requires multiset(xs) == multiset(ys)
    ensures multiset(Objects(xs)) == multiset(Objects(ys))
    decreases |xs|
  {
    if |xs| > 0 {
      var n := |xs| - 1;
      var x := xs[n];
      assert x in multiset(ys);
      var k :| 0 <= k < |ys| && ys[k] == x;
      var rest := ys[..k] + ys[k + 1..];
      ObjectsRemove(ys, k);
      ObjectsRemove(xs, n);
      assert xs[..n] + xs[n + 1..] == xs[..n];
      var left, right := multiset(xs[..n]), multiset(rest);
      assert left + multiset{x} == right + multiset{x};
      assert left == right by {
        forall e
          ensures left[e] == right[e]
        {
          assert (left + multiset{x})[e] == (right + multiset{x})[e];
        }
      }
      ObjectsPermute(xs[..n], rest);
    }
  }

  predicate AllRated(ss: seq<Standing>)
    reads set s | s in ss
  {
    forall s :: s in ss ==> s.rating.Rated?
  }

  /** No standing comes after one it outranks. */
  predicate RankedTable(ss: seq<Standing>)
    reads set s | s in ss
  {
    forall i, j :: 0 <= i < j < |ss| ==> !Outranks(ss[j].SortKey(), ss[i].SortKey())
  }

  /**
   * Sorting standing objects by their keys permutes them, and when no
   * rating is NaN no object ends up after one it outranks.
   */
  lemma RankedObjects(ss: seq<Standing>)
    ensures var r := Objects(Ranked(Keyed(ss)));
      multiset(r) == multiset(ss) && AllRated(r) == AllRated(ss) && (AllRated(ss) ==> RankedTable(r))
  {
    var keyed := Keyed(ss);
    var ranked := Ranked(keyed);
    ObjectsPermute(ranked, keyed);
    assert Objects(keyed) == ss;
    var r := Objects(ranked);
    assert forall s :: s in r <==> s in ss by {
      forall s
        ensures s in r <==> s in ss
      {
        assert s in r <==> s in multiset(r);
        assert s in ss <==> s in multiset(ss);
      }
    }
    if AllRated(ss) {
      assert NoNaN(keyed) by {
        forall i | 0 <= i < |keyed|
          ensures keyed[i].1.rating.Rated?
        {
          assert keyed[i].0 == ss[i];
        }
      }
      RankedSorted(keyed);
      forall i | 0 <= i < |ranked|
        ensures ranked[i].1 == ranked[i].0.SortKey()
      {
        assert ranked[i] in multiset(keyed);
      }
    }
  }

  predicate DistinctObjects(ss: seq<Standing>)
  {
    forall i, j :: 0 <= i < j < |ss| ==> ss[i] != ss[j]
  }

  /**
   * `updateEloRatings` on two standing objects. When both are the same
   * object the black rating, written last, is the one that stays.
   */
  method UpdateEloRatings(whiteStanding: Standing, blackStanding: Standing, result: string, expected: (int, int) -> real)
    modifies whiteStanding, blackStanding
    ensures var (nw, nb) := EloStep(old(whiteStanding.rating), old(blackStanding.rating), result, expected);
      blackStanding.rating == nb && (whiteStanding != blackStanding ==> whiteStanding.rating == nw)
    ensures whiteStanding.Value() == old(whiteStanding.Value()).(rating := whiteStanding.rating)
    ensures blackStanding.Value() == old(blackStanding.Value()).(rating := blackStanding.rating)
    ensures whiteStanding.buchholz == old(whiteStanding.buchholz) && blackStanding.buchholz == old(blackStanding.buchholz)
  {
    var actualWhite := WhiteScore(result);
    if whiteStanding.rating.Rated? && blackStanding.rating.Rated? && actualWhite.Some? {
      var w := whiteStanding.rating.value;
      var b := blackStanding.rating.value;
      var a := actualWhite.value;
      var expectedWhite := expected(w, b);
      var newWhiteRating := w as real + K * (a - expectedWhite);
      var newBlackRating := b as real + K * ((1.0 - a) - (1.0 - expectedWhite));
      whiteStanding.rating := Rated(RoundHalfUp(newWhiteRating));
      blackStanding.rating := Rated(RoundHalfUp(newBlackRating));
    } else {
      whiteStanding.rating := NotANumber;
      blackStanding.rating := NotANumber;
    }
  }

  /** The counter updates of `updateStandings`, before the Elo step. */
  method TallyGame(whiteStanding: Standing, blackStanding: Standing, result: string)
    modifies whiteStanding, blackStanding
    ensures whiteStanding != blackStanding ==>
      whiteStanding.Value() == Tally(old(whiteStanding.Value()), result, true) &&
      blackStanding.Value() == Tally(old(blackStanding.Value()), result, false)
    ensures whiteStanding == blackStanding ==>
      whiteStanding.Value() == Tally(Tally(old(whiteStanding.Value()), result, true), result, false)
    ensures whiteStanding.buchholz == old(whiteStanding.buchholz) && blackStanding.buchholz == old(blackStanding.buchholz)
  {
    whiteStanding.games := whiteStanding.games + 1;
    blackStanding.games := blackStanding.games + 1;
    if result == "1-0" {
      whiteStanding.wins := whiteStanding.wins + 1;
      whiteStanding.points := whiteStanding.points + 1.0;
      blackStanding.losses := blackStanding.losses + 1;
    } else if result == "0-1" {
      blackStanding.wins := blackStanding.wins + 1;
      blackStanding.points := blackStanding.points + 1.0;
      whiteStanding.losses := whiteStanding.losses + 1;
    } else if result == "1/2-1/2" {
      whiteStanding.draws := whiteStanding.draws + 1;
      whiteStanding.points := whiteStanding.points + 0.5;
      blackStanding.draws := blackStanding.draws + 1;
      blackStanding.points := blackStanding.points + 0.5;
    }
  }

  /** The game's effect on its two standing objects: counters first, then ratings. */
  method PlayGame(whiteStanding: Standing, blackStanding: Standing, result: string, expected: (int, int) -> real)
    modifies whiteStanding, blackStanding
    ensures whiteStanding != blackStanding ==>
      (whiteStanding.Value(), blackStanding.Value()) == PlayPair(old(whiteStanding.Value()), old(blackStanding.Value()), result, expected)
    ensures whiteStanding == blackStanding ==>
      whiteStanding.Value() == PlaySelf(old(whiteStanding.Value()), result, expected)
    ensures whiteStanding.buchholz == old(whiteStanding.buchholz) && blackStanding.buchholz == old(blackStanding.buchholz)
  {
    TallyGame(whiteStanding, blackStanding, result);
    UpdateEloRatings(whiteStanding, blackStanding, result, expected);
  }

  /** A tournament record: its schedule, its standing objects and its status. */
  class Tournament {
    var status: string
    var currentRound: nat
    var pairings: seq<seq<Pairing>>
    var standings: seq<Standing>
    const concurrentGames: nat

    ghost predicate Valid()
      reads this
    {
      DistinctObjects(standings)
    }

    function Names(): seq<string>
      reads this
    {
      NamesOf(standings)
    }

    function Rows(): seq<Row>
      reads this, set s | s in standings
    {
      RowsOf(standings)
    }

    /** `createTournament`: status "created", round 0, one fresh standing per participant. */
    constructor (participants: seq<string>, pairings: seq<seq<Pairing>>, concurrentGames: nat)
      ensures Valid() && status == "created" && currentRound == 0
      ensures this.pairings == pairings && this.concurrentGames == concurrentGames
      ensures Names() == participants
      ensures forall k :: 0 <= k < |standings| ==> standings[k].Value() == Initial && standings[k].buchholz == 0.0
      ensures forall s :: s in standings ==> fresh(s)
    {
      var table: seq<Standing> := [];
      var k := 0;
      while k < |participants|
        invariant 0 <= k <= |participants| && |table| == k
        invariant forall i :: 0 <= i < k ==> table[i].participant == participants[i]
        invariant forall i :: 0 <= i < k ==> table[i].Value() == Initial && table[i].buchholz == 0.0
        invariant forall s :: s in table ==> fresh(s)
        invariant DistinctObjects(table)
      {
        var standing := new Standing(participants[k]);
        table := table + [standing];
        k := k + 1;
      }
      status := "created";
      currentRound := 0;
      this.pairings := pairings;
      this.concurrentGames := concurrentGames;
      standings := table;
    }

    /**
     * `updateStandings`: a game between two names found in the table moves
     * their counters and ratings; any other standing, or every standing when
     * a name is missing, is left as it was.
     */
    method UpdateStandings(white: string, black: string, result: string, expected: (int, int) -> real)
      requires Valid()
      modifies set s | s in standings
      ensures Rows() == Update(Names(), old(Rows()), white, black, result, expected)
      ensures forall s :: s in standings ==> s.buchholz == old(s.buchholz)
    {
      var names := Names();
      var wi := Find(names, white);
      var bi := Find(names, black);
      if wi.None? || bi.None? {
        return;
      }
      ApplyGame(wi.value, bi.value, result, expected);
    }

    /** The counters and ratings of the standings at i and j moved by one game. */
    method ApplyGame(i: nat, j: nat, result: string, expected: (int, int) -> real)
      requires Valid() && i < |standings| && j < |standings|
      modifies standings[i], standings[j]
      ensures Rows() == PlayAt(old(Rows()), i, j, result, expected)
      ensures forall s :: s in standings ==> s.buchholz == old(s.buchholz)
    {
      ghost var before := Rows();
      var whiteStanding := standings[i];
      var blackStanding := standings[j];
      PlayGame(whiteStanding, blackStanding, result, expected);
      ghost var after := PlayAt(before, i, j, result, expected);
      forall k | 0 <= k < |standings| && k != i && k != j
        ensures standings[k].Value() == after[k]
      {
        assert standings[k] != whiteStanding && standings[k] != blackStanding;
      }
      assert Rows() == after;
    }

    /** The games of one batch, started together and, in this model, finished in batch order. */
    method PlayBatch(games: seq<Pairing>, results: seq<string>, from: nat, to: nat,
                     expected: (int, int) -> real, ghost start: seq<Row>)
      requires Valid() && from <= to <= |games| && |games| == |results| && |start| == |standings|
      requires Rows() == PlayAll(Names(), start, games[..from], results[..from], expected)
      modifies set s | s in standings
      ensures Rows() == PlayAll(Names(), start, games[..to], results[..to], expected)
    {
      var batch := games[from..to];
      var k := 0;
      while k < |batch|
        invariant 0 <= k <= |batch|
        invariant Rows() == PlayAll(Names(), start, games[..from + k], results[..from + k], expected)
      {
        var pairing := batch[k];
        assert pairing == games[from + k];
        PlayAllStep(Names(), start, games, results, from + k, expected);
        UpdateStandings(pairing.white, pairing.black, results[from + k], expected);
        k := k + 1;
      }
    }

    /**
     * `startRound`: round `roundNumber` (1-based) played in consecutive
     * batches of `concurrentGames` games; a round past the last one does
     * nothing.
     */
    method StartRound(roundNumber: nat, results: seq<string>, expected: (int, int) -> real)
      requires Valid() && roundNumber >= 1 && concurrentGames >= 1
      requires roundNumber <= |pairings| ==> |results| == |pairings[roundNumber - 1]|
      modifies set s | s in standings
      ensures roundNumber > |pairings| ==> Rows() == old(Rows())
      ensures roundNumber <= |pairings| ==>
        Rows() == PlayAll(Names(), old(Rows()), pairings[roundNumber - 1], results, expected)
    {
      if roundNumber > |pairings| {
        return;
      }
      var roundPairings := pairings[roundNumber - 1];
      ghost var start := Rows();
      var i := 0;
      while i < |roundPairings|
        invariant Rows() == PlayAll(Names(), start, roundPairings[..Reached(i, |roundPairings|)],
                                    results[..Reached(i, |roundPairings|)], expected)
        decreases |roundPairings| - i
      {
        var end := if i + concurrentGames < |roundPairings| then i + concurrentGames else |roundPairings|;
        PlayBatch(roundPairings, results, i, end, expected, start);
        i := i + concurrentGames;
      }
      assert roundPairings[..|roundPairings|] == roundPairings;
      assert results[..|results|] == results;
    }

    /**
     * `completeTournament`: status "completed" and the standings sorted by
     * points, then Buchholz score, then rating, all descending.
     */
    method CompleteTournament()
      modifies this
      ensures status == "completed" && currentRound == old(currentRound) && pairings == old(pairings)
      ensures standings == Objects(Ranked(old(Keyed(standings))))
      ensures multiset(standings) == multiset(old(standings))
      ensures AllRated(standings) ==> RankedTable(standings)
    {
      RankedObjects(standings);
      standings := Objects(Ranked(Keyed(standings)));
      status := "completed";
    }

    /**
     * `startRound` for round 1, each `completeRound` starting the next, up
     * to the last round.
     */
    method PlayAllRounds(results: seq<seq<string>>, expected: (int, int) -> real)
      requires Valid() && concurrentGames >= 1
      requires |results| == |pairings| && forall k :: 0 <= k < |pairings| ==> |pairings[k]| == |results[k]|
      modifies set s | s in standings
      ensures Rows() == PlayRounds(Names(), old(Rows()), pairings, results, expected)
    {
      ghost var names := Names();
      ghost var start := Rows();
      var roundNumber := 1;
      while roundNumber <= |pairings|
        invariant 1 <= roundNumber <= |pairings| + 1
        invariant Names() == names
        invariant Rows() == PlayRounds(names, start, pairings[..roundNumber - 1], results[..roundNumber - 1], expected)
      {
        PlayRoundsStep(names, start, pairings, results, roundNumber - 1, expected);
        StartRound(roundNumber, results[roundNumber - 1], expected);
        roundNumber := roundNumber + 1;
      }
      assert pairings[..|pairings|] == pairings;
      assert results[..|results|] == results;
    }

    /**
     * `startTournament`: status "running" and round 1, every round played,
     * then `completeTournament` after the last. With no rounds at all the
     * guard of `startRound` returns at once and the status stays "running".
     */
    method StartTournament(results: seq<seq<string>>, expected: (int, int) -> real)
      requires Valid() && concurrentGames >= 1
      requires |results| == |pairings| && forall k :: 0 <= k < |pairings| ==> |pairings[k]| == |results[k]|
      modifies this, set s | s in standings
      ensures currentRound == 1 && pairings == old(pairings)
      ensures status == if |pairings| == 0 then "running" else "completed"
      ensures multiset(standings) == multiset(old(standings))
      ensures RowsOf(old(standings)) == PlayRounds(old(Names()), old(Rows()), pairings, results, expected)
      ensures |pairings| > 0 && AllRated(standings) ==> RankedTable(standings)
    {
      ghost var names, start, entrants := Names(), Rows(), standings;
      status := "running";
      currentRound := 1;
      PlayAllRounds(results, expected);
      assert RowsOf(entrants) == PlayRounds(names, start, pairings, results, expected);
      if |pairings| > 0 {
        CompleteTournament();
      }
    }
  }
}
