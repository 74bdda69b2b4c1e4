/**
 * The dashboard statistics of the FastAPI backend
 * (fastapi_backend/dashboard.py): per-player and per-matchup tallies over
 * the PGN files found in a fixed list of directories.  Reading the files
 * and the header regexes are given: a file is the list of its three tag
 * matches, and a directory is its files, or None when it does not exist.
 */
module Dashboard {
  import opened Wrappers
  import opened Strings
  import opened Tables

  /** The `White`, `Black` and `Result` tag matches of one file. */
  datatype Tags = Tags(white: Option<string>, black: Option<string>, result: Option<string>)

  /** A file whose three tags were all found. */
  datatype Game = Game(white: string, black: string, result: string)

  type Directory = Option<seq<Tags>>

  /** One value of the `stats` dict. */
  datatype PlayerStats = PlayerStats(model: string, wins: nat, losses: nat, draws: nat, total: nat)

  /** One entry of `matchup_stats`. */
  datatype MatchupStats = MatchupStats(matchup: string, p1: string, p2: string,
                                       p1Wins: nat, p2Wins: nat, draws: nat, total: nat)

  datatype Counter = Wins | Losses | Draws | Total

  const WhiteWins: string := "1-0"
  const BlackWins: string := "0-1"
  const DrawResult: string := "1/2-1/2"
  const Separator: string := " vs "

  // -----------------------------------------------------------------------
  // Which files count

  /** The files with all three tags, as games. */
  function Recorded(files: seq<Tags>): (games: seq<Game>)
    ensures |games| <= |files|
  {
    if |files| == 0 then []
    else
      var last := files[|files| - 1];
      Recorded(files[..|files| - 1]) +
      (if last.white.Some? && last.black.Some? && last.result.Some?
       then [Game(last.white.value, last.black.value, last.result.value)] else [])
  }

  /** The games of every existing directory, directory by directory. */
  function AllGames(dirs: seq<Directory>): seq<Game> {
    if |dirs| == 0 then []
    else
      AllGames(dirs[..|dirs| - 1]) +
      (match dirs[|dirs| - 1] case None => [] case Some(files) => Recorded(files))
  }

  // -----------------------------------------------------------------------
  // parse_pgn_stats, specified as a fold over the games

  /** The record with counter c raised by one. */
  function Inc(s: PlayerStats, c: Counter): PlayerStats {
    match c
    case Wins => s.(wins := s.wins + 1)
    case Losses => s.(losses := s.losses + 1)
    case Draws => s.(draws := s.draws + 1)
    case Total => s.(total := s.total + 1)
  }

  /** `stats[p][c] += 1`. */
  function Bump(t: Table<PlayerStats>, p: string, c: Counter): (t': Table<PlayerStats>)
    requires p in t.entries
    ensures t'.entries == t.entries[p := Inc(t.entries[p], c)] && t'.keys == t.keys
  {
    t.Put(p, Inc(t.entries[p], c))
  }

  function Zero(p: string): PlayerStats {
    PlayerStats(p, 0, 0, 0, 0)
  }

  /** A player seen for the first time gets zero counts; a known one is untouched. */
  function Ensure(t: Table<PlayerStats>, p: string): (t': Table<PlayerStats>)
    ensures t'.entries == if p in t.entries then t.entries else t.entries[p := Zero(p)]
  {
    if p in t.entries then t else t.Put(p, Zero(p))
  }

  /** The four steps shared by every game: both records ensured, both totals raised. */
  function Prepared(t: Table<PlayerStats>, g: Game): Table<PlayerStats> {
    var t1 := Ensure(Ensure(t, g.white), g.black);
    Bump(Bump(t1, g.white, Total), g.black, Total)
  }

  /** One counted file: both totals, then the result. */
  function AddGame(t: Table<PlayerStats>, g: Game): Table<PlayerStats> {
    var t2 := Prepared(t, g);
    if g.result == WhiteWins then Bump(Bump(t2, g.white, Wins), g.black, Losses)
    else if g.result == BlackWins then Bump(Bump(t2, g.black, Wins), g.white, Losses)
    else if g.result == DrawResult then Bump(Bump(t2, g.white, Draws), g.black, Draws)
    else t2
  }

  /** The `stats` dict after the given games, starting from t0. */
  function Tally(t0: Table<PlayerStats>, games: seq<Game>): Table<PlayerStats> {
    if |games| == 0 then t0
    else AddGame(Tally(t0, games[..|games| - 1]), games[|games| - 1])
  }

  /** A starting table: valid, every record at zero and named after its key. */
  predicate Seeded(t0: Table<PlayerStats>) {
    t0.Valid() && forall q :: q in t0.entries ==> t0.entries[q] == Zero(q)
  }

  // Independent counts of what each player did.

  /** What one game adds to counter c of player p, by the rules of the results. */
  function Delta(g: Game, p: string, c: Counter): nat {
    match c
    case Total => (if g.white == p then 1 else 0) + (if g.black == p then 1 else 0)
    case Wins => (if g.white == p && g.result == WhiteWins then 1 else 0)
                 + (if g.black == p && g.result == BlackWins then 1 else 0)
    case Losses => (if g.black == p && g.result == WhiteWins then 1 else 0)
                   + (if g.white == p && g.result == BlackWins then 1 else 0)
    case Draws => if g.result == DrawResult then (if g.white == p then 1 else 0) + (if g.black == p then 1 else 0)
                  else 0
  }

  /** Appearances (Total), wins, losses or draws of p over the games. */
  function CountOf(games: seq<Game>, p: string, c: Counter): nat {
    if |games| == 0 then 0
    else CountOf(games[..|games| - 1], p, c) + Delta(games[|games| - 1], p, c)
  }

  /** Games with a decisive result. */
  function Decisive(games: seq<Game>): nat {
    if |games| == 0 then 0
    else
      var g := games[|games| - 1];
      Decisive(games[..|games| - 1]) + (if g.result == WhiteWins || g.result == BlackWins then 1 else 0)
  }

  /** Everyone who played a counted game. */
  function Players(games: seq<Game>): set<string> {
    if |games| == 0 then {}
    else Players(games[..|games| - 1]) + {games[|games| - 1].white, games[|games| - 1].black}
  }

  /** The record `p` had before a game (zero counts if new). */
  function Before(t: Table<PlayerStats>, p: string): PlayerStats {
    if p in t.entries then t.entries[p] else Zero(p)
  }

  /** Ensuring both players and raising both totals. */
  lemma PreparedEffect(t: Table<PlayerStats>, g: Game, p: string)
    ensures Prepared(t, g).entries.Keys == t.entries.Keys + {g.white, g.black}
    ensures p in Prepared(t, g).entries ==>
              Prepared(t, g).entries[p] == Before(t, p).(total := Before(t, p).total + Delta(g, p, Total))
  {
  }

  /** Raising counter c1 of x and then c2 of y, as seen from p's record. */
  lemma TwoBumps(t: Table<PlayerStats>, x: string, y: string, c1: Counter, c2: Counter, p: string)
    requires x in t.entries && y in t.entries && p in t.entries
    ensures Bump(Bump(t, x, c1), y, c2).entries[p]
            == (if p == y then Inc(if p == x then Inc(t.entries[p], c1) else t.entries[p], c2)
                else if p == x then Inc(t.entries[p], c1) else t.entries[p])
  {
  }

  /** What one game does to the record of player p. */
  lemma AddGameEffect(t: Table<PlayerStats>, g: Game, p: string)
    requires forall q :: q in t.entries ==> t.entries[q].model == q
    ensures AddGame(t, g).entries.Keys == t.entries.Keys + {g.white, g.black}
    ensures p in AddGame(t, g).entries ==> AddGame(t, g).entries[p].model == p
    ensures p in AddGame(t, g).entries ==> RecordStep(Before(t, p), AddGame(t, g).entries[p], g, p)
  {
    PreparedEffect(t, g, p);
    if p in AddGame(t, g).entries {
      AddGameRecord(t, g, p);
    }
  }

  lemma AddGameRecord(t: Table<PlayerStats>, g: Game, p: string)
    requires p in AddGame(t, g).entries
    ensures AddGame(t, g).entries[p].model == Before(t, p).model
    ensures RecordStep(Before(t, p), AddGame(t, g).entries[p], g, p)
  {
    if g.result == WhiteWins {
      WhiteWinsRecord(t, g, p);
    } else if g.result == BlackWins {
      BlackWinsRecord(t, g, p);
    } else if g.result == DrawResult {
      DrawRecord(t, g, p);
    } else {
      PreparedEffect(t, g, p);
    }
  }

  lemma WhiteWinsRecord(t: Table<PlayerStats>, g: Game, p: string)
    requires g.result == WhiteWins && p in AddGame(t, g).entries
    ensures AddGame(t, g).entries[p].model == Before(t, p).model
    ensures RecordStep(Before(t, p), AddGame(t, g).entries[p], g, p)
  {
    PreparedEffect(t, g, p);
    ResultsDiffer();
    WinRecord(t, g, g.white, g.black, p);
  }

  lemma BlackWinsRecord(t: Table<PlayerStats>, g: Game, p: string)
    requires g.result == BlackWins && p in AddGame(t, g).entries
    ensures AddGame(t, g).entries[p].model == Before(t, p).model
    ensures RecordStep(Before(t, p), AddGame(t, g).entries[p], g, p)
  {
    PreparedEffect(t, g, p);
    ResultsDiffer();
    WinRecord(t, g, g.black, g.white, p);
  }

  lemma DrawRecord(t: Table<PlayerStats>, g: Game, p: string)
    requires g.result == DrawResult && p in AddGame(t, g).entries
    ensures AddGame(t, g).entries[p].model == Before(t, p).model
    ensures RecordStep(Before(t, p), AddGame(t, g).entries[p], g, p)
  {
    PreparedEffect(t, g, p);
    ResultsDiffer();
    TwoBumps(Prepared(t, g), g.white, g.black, Draws, Draws, p);
  }

  lemma ResultsDiffer()
    ensures WhiteWins != BlackWins && WhiteWins != DrawResult && BlackWins != DrawResult
  {
    assert WhiteWins[0] != BlackWins[0] && WhiteWins[1] != DrawResult[1] && BlackWins[1] != DrawResult[1];
  }

  /** A decisive game: after both totals, the winner's wins and then the loser's losses go up. */
  lemma WinRecord(t: Table<PlayerStats>, g: Game, winner: string, loser: string, p: string)
    requires {winner, loser} == {g.white, g.black} && winner in Prepared(t, g).entries
    requires loser in Prepared(t, g).entries && p in Prepared(t, g).entries
    ensures var s := Prepared(t, g).entries[p];
            Bump(Bump(Prepared(t, g), winner, Wins), loser, Losses).entries[p] ==
              s.(wins := s.wins + (if p == winner then 1 else 0), losses := s.losses + (if p == loser then 1 else 0))
  {
    TwoBumps(Prepared(t, g), winner, loser, Wins, Losses, p);
  }

  /** The record s holds p's appearances, wins, losses and draws over the games. */
  predicate Tallied(s: PlayerStats, games: seq<Game>, p: string) {
    s.total == CountOf(games, p, Total) && s.wins == CountOf(games, p, Wins) &&
    s.losses == CountOf(games, p, Losses) && s.draws == CountOf(games, p, Draws)
  }

  /** s is s0 after game g, counter by counter. */
  predicate RecordStep(s0: PlayerStats, s: PlayerStats, g: Game, p: string) {
    s.total == s0.total + Delta(g, p, Total) && s.wins == s0.wins + Delta(g, p, Wins) &&
    s.losses == s0.losses + Delta(g, p, Losses) && s.draws == s0.draws + Delta(g, p, Draws)
  }

  lemma AddGameValid(t: Table<PlayerStats>, g: Game)
    requires t.Valid()
    ensures AddGame(t, g).Valid()
  {
    var t1 := Ensure(Ensure(t, g.white), g.black);
    assert t1.Valid();
  }

  /**
   * The `stats` dict holds exactly the players of the counted games, each
   * once, in first-seen order; each entry is named after its player, its
   * total counts the player's appearances (two for a game against itself),
   * and its wins, losses and draws count the games the player won, lost and
   * drew with either colour.
   */
  lemma TallyCounts(t0: Table<PlayerStats>, games: seq<Game>)
    requires Seeded(t0)
    ensures Tally(t0, games).Valid()
    ensures Tally(t0, games).entries.Keys == t0.entries.Keys + Players(games)
    ensures forall p :: p in Tally(t0, games).entries ==>
              Tally(t0, games).entries[p].model == p && Tallied(Tally(t0, games).entries[p], games, p)
  {
    TallyKeys(t0, games);
    forall p | p in Tally(t0, games).entries
      ensures Tallied(Tally(t0, games).entries[p], games, p)
    {
      TallyEntry(t0, games, p);
    }
  }

  /** The table is valid, holds exactly the players seen, and names each record after its key. */
  lemma {:induction false} TallyKeys(t0: Table<PlayerStats>, games: seq<Game>)
    requires Seeded(t0)
    ensures Tally(t0, games).Valid()
    ensures Tally(t0, games).entries.Keys == t0.entries.Keys + Players(games)
    ensures forall q :: q in Tally(t0, games).entries ==> Tally(t0, games).entries[q].model == q
  {
    if |games| > 0 {
      var init := games[..|games| - 1];
      var g := games[|games| - 1];
      TallyKeys(t0, init);
      AddGameValid(Tally(t0, init), g);
      AddGameEffect(Tally(t0, init), g, g.white);
      forall q | q in Tally(t0, games).entries ensures Tally(t0, games).entries[q].model == q {
        AddGameEffect(Tally(t0, init), g, q);
      }
    }
  }

  /** The record of one player after the games. */
  lemma {:induction false} TallyEntry(t0: Table<PlayerStats>, games: seq<Game>, p: string)
    requires Seeded(t0)
    requires p in Tally(t0, games).entries
    ensures Tallied(Tally(t0, games).entries[p], games, p)
  {
    if |games| == 0 {
      assert t0.entries[p] == Zero(p);
    } else {
      var init := games[..|games| - 1];
      var g := games[|games| - 1];
      var t := Tally(t0, init);
      TallyKeys(t0, init);
      AddGameEffect(t, g, p);
      if p in t.entries {
        TallyEntry(t0, init, p);
      } else {
        NeverSeen(init, p);
      }
    }
  }

  /** A player has a positive total exactly when they played a counted game. */
  lemma {:induction false} PlayedIffAppears(games: seq<Game>, p: string)
    ensures CountOf(games, p, Total) > 0 <==> p in Players(games)
  {
    if |games| > 0 {
      PlayedIffAppears(games[..|games| - 1], p);
    }
  }

  /** A player absent from the table has no appearances or results yet. */
  lemma {:induction false} NeverSeen(games: seq<Game>, p: string)
    requires p !in Players(games)
    ensures Tallied(Zero(p), games, p)
  {
    if |games| > 0 {
      NeverSeen(games[..|games| - 1], p);
    }
  }

  /** Nobody has more wins, losses and draws together than games played. */
  lemma {:induction false} OutcomesWithinTotal(games: seq<Game>, p: string)
    ensures CountOf(games, p, Wins) + CountOf(games, p, Losses) + CountOf(games, p, Draws) <= CountOf(games, p, Total)
  {
    if |games| > 0 {
      OutcomesWithinTotal(games[..|games| - 1], p);
    }
  }

  // Conservation: one win and one loss per decisive game, two totals per game.

  function WinsField(s: PlayerStats): int { s.wins }
  function LossesField(s: PlayerStats): int { s.losses }
  function TotalField(s: PlayerStats): int { s.total }

  function SumOf(t: Table<PlayerStats>, f: PlayerStats -> int): int
    requires t.Valid()
  {
    Sum(t.keys, t.entries, f)
  }

  lemma EnsureSum(t: Table<PlayerStats>, p: string, f: PlayerStats -> int)
    requires t.Valid() && f(Zero(p)) == 0
    ensures Ensure(t, p).Valid()
    ensures SumOf(Ensure(t, p), f) == SumOf(t, f)
  {
    if p !in t.entries {
      SumPut(t, p, Zero(p), f);
    }
  }

  /** Raising one counter of one record changes a field sum by the change of that field. */
  lemma BumpSum(t: Table<PlayerStats>, p: string, c: Counter, f: PlayerStats -> int)
    requires t.Valid() && p in t.entries
    ensures Bump(t, p, c).Valid()
    ensures SumOf(Bump(t, p, c), f) == SumOf(t, f) + f(Inc(t.entries[p], c)) - f(t.entries[p])
  {
    SumPut(t, p, Inc(t.entries[p], c), f);
  }

  lemma PreparedSum(t: Table<PlayerStats>, g: Game, f: PlayerStats -> int, d: int)
    requires t.Valid()
    requires forall p :: f(Zero(p)) == 0
    requires forall s: PlayerStats :: f(Inc(s, Total)) == f(s) + d
    ensures Prepared(t, g).Valid()
    ensures SumOf(Prepared(t, g), f) == SumOf(t, f) + 2 * d
  {
    var e := Ensure(t, g.white);
    var t1 := Ensure(e, g.black);
    EnsureSum(t, g.white, f);
    EnsureSum(e, g.black, f);
    var u := Bump(t1, g.white, Total);
    BumpSum(t1, g.white, Total, f);
    BumpSum(u, g.black, Total, f);
  }

  lemma ResultSum(t: Table<PlayerStats>, x: string, y: string, c1: Counter, c2: Counter, f: PlayerStats -> int)
    requires t.Valid() && x in t.entries && y in t.entries
    ensures Bump(Bump(t, x, c1), y, c2).Valid()
    ensures SumOf(Bump(Bump(t, x, c1), y, c2), f)
            == SumOf(t, f) + f(Inc(t.entries[x], c1)) - f(t.entries[x])
               + f(Inc(Bump(t, x, c1).entries[y], c2)) - f(Bump(t, x, c1).entries[y])
  {
    BumpSum(t, x, c1, f);
    BumpSum(Bump(t, x, c1), y, c2, f);
  }

  lemma AddGameSum(t: Table<PlayerStats>, g: Game, f: PlayerStats -> int, dTotal: int, dWins: int, dLosses: int)
    requires t.Valid()
    requires forall p :: f(Zero(p)) == 0
    requires forall s: PlayerStats :: f(Inc(s, Total)) == f(s) + dTotal
    requires forall s: PlayerStats :: f(Inc(s, Wins)) == f(s) + dWins
    requires forall s: PlayerStats :: f(Inc(s, Losses)) == f(s) + dLosses
    requires forall s: PlayerStats :: f(Inc(s, Draws)) == f(s)
    ensures AddGame(t, g).Valid()
    ensures SumOf(AddGame(t, g), f) == SumOf(t, f) + 2 * dTotal +
              (if g.result == WhiteWins || g.result == BlackWins then dWins + dLosses else 0)
  {
    var t2 := Prepared(t, g);
    PreparedSum(t, g, f, dTotal);
    assert g.white in t2.entries && g.black in t2.entries;
    if g.result == WhiteWins {
      ResultSum(t2, g.white, g.black, Wins, Losses, f);
    } else if g.result == BlackWins {
      ResultSum(t2, g.black, g.white, Wins, Losses, f);
    } else if g.result == DrawResult {
      ResultSum(t2, g.white, g.black, Draws, Draws, f);
    }
  }

  /**
   * Summed over all players, wins equal losses (both are the number of
   * decisive games) and totals are twice the number of counted games.
   */
  lemma {:induction false} WinsBalanceLosses(games: seq<Game>)
    ensures Tally(EmptyTable(), games).Valid()
    ensures SumOf(Tally(EmptyTable(), games), WinsField) == Decisive(games)
    ensures SumOf(Tally(EmptyTable(), games), LossesField) == Decisive(games)
    ensures SumOf(Tally(EmptyTable(), games), TotalField) == 2 * |games|
  {
    if |games| > 0 {
      var t := Tally(EmptyTable(), games[..|games| - 1]);
      var g := games[|games| - 1];
      WinsBalanceLosses(games[..|games| - 1]);
      AddGameSum(t, g, WinsField, 0, 1, 0);
      AddGameSum(t, g, LossesField, 0, 0, 1);
      AddGameSum(t, g, TotalField, 1, 0, 0);
    }
  }

  /**
   * `parse_pgn_stats`: every counted file of every existing directory updates
   * the `stats` dict; the result is its values in insertion order.
   */
  method ParsePgnStats(dirs: seq<Directory>) returns (stats: seq<PlayerStats>)
    ensures Tally(EmptyTable(), AllGames(dirs)).Valid()
    ensures stats == Tally(EmptyTable(), AllGames(dirs)).Values()
  {
    var table: Table<PlayerStats> := EmptyTable();
    for d := 0 to |dirs|
      invariant table == Tally(EmptyTable(), AllGames(dirs[..d]))
    {
      assert dirs[..d + 1][..d] == dirs[..d];
      if dirs[d].Some? {
        assert AllGames(dirs[..d + 1]) == AllGames(dirs[..d]) + Recorded(dirs[d].value);
        table := CountFiles(table, EmptyTable(), AllGames(dirs[..d]), dirs[d].value);
      } else {
        assert AllGames(dirs[..d + 1]) == AllGames(dirs[..d]);
      }
    }
    assert dirs[..|dirs|] == dirs;
    TallyCounts(EmptyTable(), AllGames(dirs));
    stats := table.Values();
  }

  /** The file loop of one directory, continuing from the table of the games before it. */
  method CountFiles(table0: Table<PlayerStats>, ghost t0: Table<PlayerStats>, ghost before: seq<Game>, files: seq<Tags>)
    returns (table: Table<PlayerStats>)
    requires table0 == Tally(t0, before)
    ensures table == Tally(t0, before + Recorded(files))
  {
    table := table0;
    assert before + Recorded(files[..0]) == before;
    for f := 0 to |files|
      invariant table == Tally(t0, before + Recorded(files[..f]))
    {
      assert files[..f + 1][..f] == files[..f];
      var tags := files[f];
      if tags.white.Some? && tags.black.Some? && tags.result.Some? {
        ghost var prefix := before + Recorded(files[..f]);
        ghost var g := Game(tags.white.value, tags.black.value, tags.result.value);
        assert (prefix + [g])[..|prefix|] == prefix;
        assert before + Recorded(files[..f + 1]) == prefix + [g];
        table := RecordFile(table, tags.white.value, tags.black.value, tags.result.value);
      } else {
        assert Recorded(files[..f + 1]) == Recorded(files[..f]);
      }
    }
    assert files[..|files|] == files;
  }

  /** The statements run for one counted file. */
  method RecordFile(table0: Table<PlayerStats>, w: string, b: string, r: string) returns (table: Table<PlayerStats>)
    ensures table == AddGame(table0, Game(w, b, r))
  {
    table := table0;
    if w !in table.entries {
      table := table.Put(w, Zero(w));
    }
    if b !in table.entries {
      table := table.Put(b, Zero(b));
    }
    table := Bump(table, w, Total);
    table := Bump(table, b, Total);
    if r == WhiteWins {
      table := Bump(table, w, Wins);
      table := Bump(table, b, Losses);
    } else if r == BlackWins {
      table := Bump(table, b, Wins);
      table := Bump(table, w, Losses);
    } else if r == DrawResult {
      table := Bump(table, w, Draws);
      table := Bump(table, b, Draws);
    }
  }

  // -----------------------------------------------------------------------
  // parse_matchup_stats

  datatype Count = Count(p1Wins: nat, p2Wins: nat, draws: nat, total: nat)

  /** A game counts for the matchup when its two players are the pair's, as sets. */
  predicate Between(g: Game, p1: string, p2: string) {
    {g.white, g.black} == {p1, p2}
  }

  /**
   * One game's effect on the counters of the pair (p1, p2): results are
   * credited to p1 or p2 by who had which colour; every game between the
   * pair counts towards the total, whatever its result.
   */
  function CountPairGame(c: Count, g: Game, p1: string, p2: string): Count {
    if !Between(g, p1, p2) then c
    else
      var c' := c.(total := c.total + 1);
      if g.white == p1 && g.black == p2 then
        (if g.result == WhiteWins then c'.(p1Wins := c.p1Wins + 1)
         else if g.result == BlackWins then c'.(p2Wins := c.p2Wins + 1)
         else if g.result == DrawResult then c'.(draws := c.draws + 1)
         else c')
      else if g.white == p2 && g.black == p1 then
        (if g.result == WhiteWins then c'.(p2Wins := c.p2Wins + 1)
         else if g.result == BlackWins then c'.(p1Wins := c.p1Wins + 1)
         else if g.result == DrawResult then c'.(draws := c.draws + 1)
         else c')
      else c'
  }

  /** The counters of the pair after the given games; no pair (no " vs " in the name) counts nothing. */
  function PairCount(games: seq<Game>, pair: Option<(string, string)>): Count {
    if |games| == 0 || pair.None? then Count(0, 0, 0, 0)
    else CountPairGame(PairCount(games[..|games| - 1], pair), games[|games| - 1], pair.value.0, pair.value.1)
  }

  /** Games between x and y that x won, with either colour. */
  function Beat(games: seq<Game>, x: string, y: string): nat {
    if |games| == 0 then 0
    else
      var g := games[|games| - 1];
      Beat(games[..|games| - 1], x, y) +
      (if (g.white == x && g.black == y && g.result == WhiteWins) ||
          (g.white == y && g.black == x && g.result == BlackWins) then 1 else 0)
  }

  function GamesBetween(games: seq<Game>, x: string, y: string): nat {
    if |games| == 0 then 0
    else
      GamesBetween(games[..|games| - 1], x, y) + (if Between(games[|games| - 1], x, y) then 1 else 0)
  }

  /**
   * For two different players, p1_wins counts p1's wins against p2 whatever
   * colour p1 had, p2_wins the reverse, and total every game between them;
   * wins and draws never exceed the total, which also counts unrecognised
   * results.
   */
  lemma {:induction false} PairCountMeaning(games: seq<Game>, p1: string, p2: string)
    requires p1 != p2
    ensures var c := PairCount(games, Some((p1, p2)));
            c.p1Wins == Beat(games, p1, p2) && c.p2Wins == Beat(games, p2, p1) &&
            c.total == GamesBetween(games, p1, p2) && c.p1Wins + c.p2Wins + c.draws <= c.total
  {
    if |games| > 0 {
      PairCountMeaning(games[..|games| - 1], p1, p2);
      var g := games[|games| - 1];
      if Between(g, p1, p2) {
        assert g.white in {p1, p2} && g.black in {p1, p2};
        assert p1 in {g.white, g.black} && p2 in {g.white, g.black};
      }
    }
  }

  /** The entry a directory contributes: only with both names non-empty and at least one game. */
  function DirectoryEntry(name: string, dir: Directory): Option<MatchupStats> {
    match dir
    case None => None
    case Some(files) =>
      var pair := SplitOnce(name, Separator);
      var c := PairCount(Recorded(files), pair);
      if pair.Some? && pair.value.0 != "" && pair.value.1 != "" && c.total > 0
      then Some(MatchupStats(name, pair.value.0, pair.value.1, c.p1Wins, c.p2Wins, c.draws, c.total))
      else None
  }

  function MatchupEntries(dirs: seq<(string, Directory)>): seq<MatchupStats> {
    if |dirs| == 0 then []
    else
      var last := dirs[|dirs| - 1];
      MatchupEntries(dirs[..|dirs| - 1]) +
      (match DirectoryEntry(last.0, last.1) case None => [] case Some(e) => [e])
  }

  /**
   * Every emitted entry names a directory of the form "p1 vs p2" split at its
   * first separator, has at least one game, and its wins and draws fit in
   * its total.
   */
  lemma {:induction false} MatchupEntriesWellFormed(dirs: seq<(string, Directory)>)
    ensures |MatchupEntries(dirs)| <= |dirs|
    ensures forall e :: e in MatchupEntries(dirs) ==>
              e.matchup == e.p1 + Separator + e.p2 && e.p1 != "" && e.p2 != "" &&
              e.total > 0 && e.p1Wins + e.p2Wins + e.draws <= e.total
  {
    if |dirs| > 0 {
      MatchupEntriesWellFormed(dirs[..|dirs| - 1]);
      var last := dirs[|dirs| - 1];
      match last.1 {
        case None =>
        case Some(files) =>
          var pair := SplitOnce(last.0, Separator);
          if pair.Some? {
            CountWithinTotal(Recorded(files), pair.value.0, pair.value.1);
          }
      }
    }
  }

  /** Wins and draws of a pair never exceed its total, even for a pair with equal names. */
  lemma {:induction false} CountWithinTotal(games: seq<Game>, p1: string, p2: string)
    ensures var c := PairCount(games, Some((p1, p2))); c.p1Wins + c.p2Wins + c.draws <= c.total
  {
    if |games| > 0 {
      CountWithinTotal(games[..|games| - 1], p1, p2);
    }
  }

  /** `parse_matchup_stats`: per existing directory, the counter loop over its files. */
  method ParseMatchupStats(dirs: seq<(string, Directory)>) returns (entries: seq<MatchupStats>)
    ensures entries == MatchupEntries(dirs)
  {
    entries := [];
    for d := 0 to |dirs|
      invariant entries == MatchupEntries(dirs[..d])
    {
      assert dirs[..d + 1][..d] == dirs[..d];
      var name := dirs[d].0;
      if dirs[d].1.None? {
        continue;
      }
      var pair := SplitOnce(name, Separator);
      var c := CountDirectory(dirs[d].1.value, pair);
      if pair.Some? && pair.value.0 != "" && pair.value.1 != "" && c.total > 0 {
        entries := entries + [MatchupStats(name, pair.value.0, pair.value.1, c.p1Wins, c.p2Wins, c.draws, c.total)];
      }
    }
    assert dirs[..|dirs|] == dirs;
  }

  /** The counters `p1_wins`, `p2_wins`, `draws`, `total` after the file loop of one directory. */
  method CountDirectory(files: seq<Tags>, pair: Option<(string, string)>) returns (c: Count)
    ensures c == PairCount(Recorded(files), pair)
  {
    var p1Wins, p2Wins, draws, total := 0, 0, 0, 0;
    for f := 0 to |files|
      invariant Count(p1Wins, p2Wins, draws, total) == PairCount(Recorded(files[..f]), pair)
    {
      assert files[..f + 1][..f] == files[..f];
      var tags := files[f];
      if tags.white.Some? && tags.black.Some? && tags.result.Some? {
        var w, b, r := tags.white.value, tags.black.value, tags.result.value;
        ghost var prefix := Recorded(files[..f]);
        assert Recorded(files[..f + 1]) == prefix + [Game(w, b, r)];
        assert (prefix + [Game(w, b, r)])[..|prefix|] == prefix;
        if pair.Some? {
          p1Wins, p2Wins, draws, total := CountPairFile(p1Wins, p2Wins, draws, total, w, b, r, pair.value.0, pair.value.1);
        }
      } else {
        assert Recorded(files[..f + 1]) == Recorded(files[..f]);
      }
    }
    assert files[..|files|] == files;
    c := Count(p1Wins, p2Wins, draws, total);
  }

  /** The statements run for one file with all three tags, for the pair (p1, p2). */
  method CountPairFile(p1Wins0: nat, p2Wins0: nat, draws0: nat, total0: nat, w: string, b: string, r: string,
                       p1: string, p2: string) returns (p1Wins: nat, p2Wins: nat, draws: nat, total: nat)
    ensures Count(p1Wins, p2Wins, draws, total) == CountPairGame(Count(p1Wins0, p2Wins0, draws0, total0), Game(w, b, r), p1, p2)
  {
    p1Wins, p2Wins, draws, total := p1Wins0, p2Wins0, draws0, total0;
    if {w, b} == {p1, p2} {
      if w == p1 && b == p2 {
        if r == WhiteWins {
          p1Wins := p1Wins + 1;
        } else if r == BlackWins {
          p2Wins := p2Wins + 1;
        } else if r == DrawResult {
          draws := draws + 1;
        }
      } else if w == p2 && b == p1 {
        if r == WhiteWins {
          p2Wins := p2Wins + 1;
        } else if r == BlackWins {
          p1Wins := p1Wins + 1;
        } else if r == DrawResult {
          draws := draws + 1;
        }
      }
      total := total + 1;
    }
  }
}
