/**
 * The dashboard data routes of the Node server (routes/data.js): model
 * statistics, matchup statistics and recent games, all computed from the
 * list `getAllGames` assembles out of saved JSON games and PGN files.
 * Reading directories and files, `JSON.parse`, chess.js's PGN loader and
 * date parsing are given as inputs: a JSON file is its parsed fields (None
 * when it does not parse), a PGN file its header tags and move count (None
 * when it does not load), and dates are compared through a given timestamp
 * function.
 */
module DataRoutes {
  import opened Wrappers
  import opened Strings
  import opened Tables
  import opened Sorting
  import D = Dashboard

  /** The models `getModelStats` seeds at zero, in this order. */
  const KnownModels: seq<string> :=
    ["GPT-4o", "GPT-4-Turbo", "Gemini-Pro", "Gemini-1.0-Pro", "Claude-3.5-Sonnet", "Deepseek-R1"]

  /** `slice` bounds of the three lists. */
  const MatchupLimit: nat := 10
  const RecentLimit: nat := 20
  const DashboardRecent: nat := 10

  /** One element of `allGames`. */
  datatype GameEntry = GameEntry(id: string, white: string, black: string, result: string,
                                 moves: int, date: string, duration: int)

  /** The fields of a saved JSON game that the mapping reads. */
  datatype JsonGame = JsonGame(id: string, white: string, black: string, result: string,
                               totalMoves: Option<int>, moveList: Option<seq<string>>,
                               endTime: Option<string>, startTime: Option<string>, duration: Option<int>)

  /** What chess.js reports for a loaded PGN file. */
  datatype PgnGame = PgnGame(white: Option<string>, black: Option<string>, result: Option<string>,
                             date: Option<string>, historyLength: nat)

  /** An element of the model statistics list. */
  datatype ModelRow = ModelRow(model: string, wins: nat, losses: nat, draws: nat, total: nat, winRate: int)

  /** An element of the matchup statistics list. */
  datatype Matchup = Matchup(matchup: string, p1: string, p2: string, p1Wins: nat, p2Wins: nat,
                             draws: nat, total: nat)

  /** What the dashboard endpoint answers. */
  datatype Dashboard = Dashboard(modelStats: seq<ModelRow>, recentGames: seq<GameEntry>,
                                 matchupStats: seq<Matchup>, totalGames: nat)

  // -----------------------------------------------------------------------
  // getAllGames: record mapping

  /** JavaScript truthiness of an optional number. */
  predicate TruthyNumber(n: Option<int>) { n.Some? && n.value != 0 }

  /**
   * The record pushed for a saved JSON game: moves is `totalMoves`, else the
   * length of the move list, else 0; the date is `endTime`, else `startTime`,
   * else the current time; the duration defaults to 0.
   */
  function FromJson(j: JsonGame, now: string): (e: GameEntry)
    ensures e.id == j.id && e.white == j.white && e.black == j.black && e.result == j.result
    ensures TruthyNumber(j.totalMoves) ==> e.moves == j.totalMoves.value
    ensures !TruthyNumber(j.totalMoves) && j.moveList.Some? ==> e.moves == |j.moveList.value|
    ensures !TruthyNumber(j.totalMoves) && j.moveList.None? ==> e.moves == 0
    ensures Truthy(j.endTime) ==> e.date == j.endTime.value
    ensures !Truthy(j.endTime) && Truthy(j.startTime) ==> e.date == j.startTime.value
    ensures !Truthy(j.endTime) && !Truthy(j.startTime) ==> e.date == now
    ensures e.duration == if TruthyNumber(j.duration) then j.duration.value else 0
  {
    var moves := if TruthyNumber(j.totalMoves) then j.totalMoves.value
                 else if j.moveList.Some? && |j.moveList.value| > 0 then |j.moveList.value|
                 else 0;
    var date := if Truthy(j.endTime) then j.endTime.value
                else if Truthy(j.startTime) then j.startTime.value
                else now;
    GameEntry(j.id, j.white, j.black, j.result, moves, date,
              if TruthyNumber(j.duration) then j.duration.value else 0)
  }

  /** `s.replace(/\./g, "-")`. */
  function DotsToDashes(s: string): (r: string)
    ensures |r| == |s|
    ensures forall i :: 0 <= i < |s| ==> r[i] == (if s[i] == '.' then '-' else s[i])
  {
    if |s| == 0 then [] else [if s[0] == '.' then '-' else s[0]] + DotsToDashes(s[1..])
  }

  /**
   * The record pushed for a PGN file of directory `dir`, when its White,
   * Black and Result tags are all non-empty.  `isoDate` renders a date as
   * `toISOString` would (its argument None stands for `new Date(0)`); it
   * yields None for an invalid date, whose `toISOString` throws, and the
   * file is then skipped.
   */
  function FromPgn(dir: string, file: string, g: PgnGame, isoDate: Option<string> -> Option<string>)
    : (e: Option<GameEntry>)
    ensures e.Some? <==> Truthy(g.white) && Truthy(g.black) && Truthy(g.result) &&
                         isoDate(PgnDate(g)).Some?
    ensures e.Some? ==> e.value == GameEntry(dir + "/" + file, g.white.value, g.black.value, g.result.value,
                                             g.historyLength, isoDate(PgnDate(g)).value, 0)
  {
    if Truthy(g.white) && Truthy(g.black) && Truthy(g.result) then
      match isoDate(PgnDate(g))
      case None => None
      case Some(date) => Some(GameEntry(dir + "/" + file, g.white.value, g.black.value, g.result.value,
                                        g.historyLength, date, 0))
    else None
  }

  /** The date text handed to `new Date`: the Date tag with dots made dashes, or none. */
  function PgnDate(g: PgnGame): (d: Option<string>)
    ensures d.Some? <==> Truthy(g.date)
    ensures d.Some? ==> '.' !in d.value && |d.value| == |g.date.value|
  {
    if Truthy(g.date) then Some(DotsToDashes(g.date.value)) else None
  }

  /** The games of the saved JSON files: `.json` names only, unparsable files skipped. */
  function JsonEntries(files: seq<(string, Option<JsonGame>)>, now: string): (es: seq<GameEntry>)
    ensures |es| <= |files|
  {
    if |files| == 0 then []
    else
      var f := files[|files| - 1];
      JsonEntries(files[..|files| - 1], now) +
      (if EndsWith(f.0, ".json") && f.1.Some? then [FromJson(f.1.value, now)] else [])
  }

  /** The games of one matchup directory: `.pgn` names only, unloadable or untagged files skipped. */
  function PgnEntries(dir: string, files: seq<(string, Option<PgnGame>)>, isoDate: Option<string> -> Option<string>)
    : (es: seq<GameEntry>)
    ensures |es| <= |files|
  {
    if |files| == 0 then []
    else
      var f := files[|files| - 1];
      PgnEntries(dir, files[..|files| - 1], isoDate) +
      (if EndsWith(f.0, ".pgn") && f.1.Some? && FromPgn(dir, f.0, f.1.value, isoDate).Some?
       then [FromPgn(dir, f.0, f.1.value, isoDate).value] else [])
  }

  /** The games of every root directory whose name contains " vs " (None: unreadable). */
  function DirEntries(dirs: seq<(string, Option<seq<(string, Option<PgnGame>)>>)>, isoDate: Option<string> -> Option<string>)
    : seq<GameEntry>
  {
    if |dirs| == 0 then []
    else
      var d := dirs[|dirs| - 1];
      DirEntries(dirs[..|dirs| - 1], isoDate) +
      (if Includes(d.0, " vs ") && d.1.Some? then PgnEntries(d.0, d.1.value, isoDate) else [])
  }

  /** `getAllGames`: the saved JSON games first, then the PGN games directory by directory. */
  function AllGames(jsonFiles: seq<(string, Option<JsonGame>)>,
                    dirs: seq<(string, Option<seq<(string, Option<PgnGame>)>>)>,
                    now: string, isoDate: Option<string> -> Option<string>): seq<GameEntry>
  {
    JsonEntries(jsonFiles, now) + DirEntries(dirs, isoDate)
  }

  /** Every PGN-derived game names its directory, and that directory contains " vs ". */
  lemma {:induction false} DirEntriesFromMatchupDirs(dirs: seq<(string, Option<seq<(string, Option<PgnGame>)>>)>,
                                                     isoDate: Option<string> -> Option<string>)
    ensures forall e :: e in DirEntries(dirs, isoDate) ==>
              exists k :: 0 <= k < |dirs| && Includes(dirs[k].0, " vs ") && StartsWith(e.id, dirs[k].0 + "/")
  {
    if |dirs| > 0 {
      var init := dirs[..|dirs| - 1];
      var d := dirs[|dirs| - 1];
      DirEntriesFromMatchupDirs(init, isoDate);
      forall e | e in DirEntries(dirs, isoDate)
        ensures exists k :: 0 <= k < |dirs| && Includes(dirs[k].0, " vs ") && StartsWith(e.id, dirs[k].0 + "/")
      {
        if e in DirEntries(init, isoDate) {
          var k :| 0 <= k < |init| && Includes(init[k].0, " vs ") && StartsWith(e.id, init[k].0 + "/");
          assert dirs[k] == init[k];
        } else {
          PgnEntriesIds(d.0, d.1.value, isoDate);
          assert dirs[|dirs| - 1] == d;
        }
      }
    }
  }

  lemma {:induction false} PgnEntriesIds(dir: string, files: seq<(string, Option<PgnGame>)>, isoDate: Option<string> -> Option<string>)
    ensures forall e :: e in PgnEntries(dir, files, isoDate) ==> StartsWith(e.id, dir + "/")
  {
    if |files| > 0 {
      PgnEntriesIds(dir, files[..|files| - 1], isoDate);
      var f := files[|files| - 1];
      if EndsWith(f.0, ".pgn") && f.1.Some? && FromPgn(dir, f.0, f.1.value, isoDate).Some? {
        var e := FromPgn(dir, f.0, f.1.value, isoDate).value;
        assert e.id == (dir + "/") + f.0;
      }
    }
  }

  // -----------------------------------------------------------------------
  // getModelStats

  /** The `stats` object once the known models are seeded at zero. */
  function Seeds(names: seq<string>): (t: Table<D.PlayerStats>)
    ensures D.Seeded(t) && t.entries.Keys == set m | m in names
  {
    if |names| == 0 then EmptyTable()
    else Seeds(names[..|names| - 1]).Put(names[|names| - 1], D.Zero(names[|names| - 1]))
  }

  function Games(all: seq<GameEntry>): (gs: seq<D.Game>)
    ensures |gs| == |all|
    ensures forall i :: 0 <= i < |all| ==> gs[i] == D.Game(all[i].white, all[i].black, all[i].result)
  {
    seq(|all|, i requires 0 <= i < |all| => D.Game(all[i].white, all[i].black, all[i].result))
  }

  /**
   * `((wins + 0.5 * draws) / total * 100).toFixed(1)` in tenths of a percent,
   * rounded half up.
   */
  function WinRate(wins: nat, draws: nat, total: nat): int {
    if total == 0 then 0 else (1000 * (2 * wins + draws) + total) / (2 * total)
  }

  function RateOf(r: ModelRow): int { r.winRate }

  /** The row `getModelStats` maps a record to. */
  function RowOf(s: D.PlayerStats): ModelRow {
    ModelRow(s.model, s.wins, s.losses, s.draws, s.total, WinRate(s.wins, s.draws, s.total))
  }

  /** The entries with a positive total, as rows. */
  function PlayedRows(vs: seq<D.PlayerStats>): (rows: seq<ModelRow>)
    ensures |rows| <= |vs|
    ensures forall r :: r in rows ==> r.total > 0 && exists s :: s in vs && r == RowOf(s)
    ensures forall s :: s in vs && s.total > 0 ==> RowOf(s) in rows
  {
    if |vs| == 0 then []
    else
      var s := vs[|vs| - 1];
      var init := PlayedRows(vs[..|vs| - 1]);
      assert forall x :: x in vs ==> x in vs[..|vs| - 1] || x == s;
      init + (if s.total > 0 then [RowOf(s)] else [])
  }

  /** The table the loop of `getModelStats` builds. */
  function ModelTable(all: seq<GameEntry>): Table<D.PlayerStats> {
    D.Tally(Seeds(KnownModels), Games(all))
  }

  /** `getModelStats` as a value: the seeded, updated table's played entries by win rate. */
  function ModelStats(all: seq<GameEntry>): seq<ModelRow> {
    D.TallyCounts(Seeds(KnownModels), Games(all));
    SortDesc(PlayedRows(ModelTable(all).Values()), RateOf)
  }

  /** A table whose every record is named after its key and counts that player's games. */
  predicate Counted(t: Table<D.PlayerStats>, gs: seq<D.Game>) {
    t.Valid() && D.Players(gs) <= t.entries.Keys &&
    forall p :: p in t.entries ==> t.entries[p].model == p && D.Tallied(t.entries[p], gs, p)
  }

  lemma ModelTableCounted(all: seq<GameEntry>)
    ensures Counted(ModelTable(all), Games(all))
  {
    D.TallyCounts(Seeds(KnownModels), Games(all));
  }

  /** Each played row is a player of the games, with that player's counts. */
  lemma PlayedRowsSound(t: Table<D.PlayerStats>, gs: seq<D.Game>, r: ModelRow)
    requires Counted(t, gs) && r in PlayedRows(t.Values())
    ensures r.model in D.Players(gs) && r.total > 0
    ensures r.total == D.CountOf(gs, r.model, D.Total) && r.wins == D.CountOf(gs, r.model, D.Wins)
    ensures r.losses == D.CountOf(gs, r.model, D.Losses) && r.draws == D.CountOf(gs, r.model, D.Draws)
  {
    var vs := t.Values();
    var s :| s in vs && r == RowOf(s);
    var i :| 0 <= i < |vs| && vs[i] == s;
    var key := t.keys[i];
    assert t.entries[key] == s;
    D.PlayedIffAppears(gs, key);
  }

  /** Each player of the games has a played row. */
  lemma PlayedRowsComplete(t: Table<D.PlayerStats>, gs: seq<D.Game>, p: string)
    requires Counted(t, gs) && p in D.Players(gs)
    ensures RowOf(t.entries[p]) in PlayedRows(t.Values()) && RowOf(t.entries[p]).model == p
  {
    var vs := t.Values();
    var i :| 0 <= i < |t.keys| && t.keys[i] == p;
    assert vs[i] == t.entries[p];
    D.PlayedIffAppears(gs, p);
  }

  /**
   * The model statistics list exactly the players who played at least one
   * game (seeded models that did not play vanish), with their wins, losses,
   * draws and totals counted over all games, in descending win-rate order.
   */
  lemma ModelStatsMeaning(all: seq<GameEntry>)
    ensures SortedDesc(ModelStats(all), RateOf)
    ensures forall r :: r in ModelStats(all) ==>
              r.model in D.Players(Games(all)) && r.total > 0 &&
              r.total == D.CountOf(Games(all), r.model, D.Total) && r.wins == D.CountOf(Games(all), r.model, D.Wins) &&
              r.losses == D.CountOf(Games(all), r.model, D.Losses) && r.draws == D.CountOf(Games(all), r.model, D.Draws)
    ensures forall p :: p in D.Players(Games(all)) ==> exists r :: r in ModelStats(all) && r.model == p
  {
    var gs := Games(all);
    var t := ModelTable(all);
    ModelTableCounted(all);
    var rows := PlayedRows(t.Values());
    SortDescCorrect(rows, RateOf);
    forall r | r in ModelStats(all)
      ensures r.model in D.Players(gs) && r.total > 0 &&
              r.total == D.CountOf(gs, r.model, D.Total) && r.wins == D.CountOf(gs, r.model, D.Wins) &&
              r.losses == D.CountOf(gs, r.model, D.Losses) && r.draws == D.CountOf(gs, r.model, D.Draws)
    {
      assert r in multiset(rows);
      PlayedRowsSound(t, gs, r);
    }
    forall p | p in D.Players(gs) ensures exists r :: r in ModelStats(all) && r.model == p {
      PlayedRowsComplete(t, gs, p);
      assert RowOf(t.entries[p]) in multiset(ModelStats(all));
    }
  }

  /** `getModelStats`: seed the known models, count every game, then filter, map and sort. */
  method GetModelStats(all: seq<GameEntry>) returns (rows: seq<ModelRow>)
    ensures rows == ModelStats(all)
  {
    var stats := SeedKnown();
    stats := CountGames(stats, all);
    ModelTableCounted(all);
    rows := SortDesc(PlayedRows(stats.Values()), RateOf);
  }

  /** The seeding loop of `getModelStats`. */
  method SeedKnown() returns (stats: Table<D.PlayerStats>)
    ensures stats == Seeds(KnownModels)
  {
    stats := EmptyTable();
    for k := 0 to |KnownModels|
      invariant stats == Seeds(KnownModels[..k])
    {
      assert KnownModels[..k + 1][..k] == KnownModels[..k];
      stats := stats.Put(KnownModels[k], D.Zero(KnownModels[k]));
    }
    assert KnownModels[..|KnownModels|] == KnownModels;
  }

  /** The counting loop of `getModelStats`, from the seeded table. */
  method CountGames(seeded: Table<D.PlayerStats>, all: seq<GameEntry>) returns (stats: Table<D.PlayerStats>)
    requires seeded == Seeds(KnownModels)
    ensures stats == ModelTable(all)
  {
    stats := seeded;
    ghost var gs := Games(all);
    for i := 0 to |all|
      invariant stats == D.Tally(seeded, gs[..i])
    {
      TallyNext(seeded, gs, i);
      stats := D.RecordFile(stats, all[i].white, all[i].black, all[i].result);
    }
    assert gs[..|all|] == gs;
  }

  /** The tally over one more game. */
  lemma TallyNext(t0: Table<D.PlayerStats>, gs: seq<D.Game>, i: nat)
    requires i < |gs|
    ensures D.Tally(t0, gs[..i + 1]) == D.AddGame(D.Tally(t0, gs[..i]), gs[i])
  {
    assert gs[..i + 1][..i] == gs[..i];
  }

  // -----------------------------------------------------------------------
  // getMatchupStats

  function MatchupKey(g: GameEntry): string {
    g.white + " vs " + g.black
  }

  /** One game: create the entry for "white vs black" if new, then count the game. */
  function AddMatchup(t: Table<Matchup>, g: GameEntry): (t': Table<Matchup>)
    ensures t'.entries.Keys == t.entries.Keys + {MatchupKey(g)}
    ensures forall k :: k in t.entries && k != MatchupKey(g) ==> t'.entries[k] == t.entries[k]
  {
    var key := MatchupKey(g);
    var m := if key in t.entries then t.entries[key] else Matchup(key, g.white, g.black, 0, 0, 0, 0);
    var m' := m.(total := m.total + 1);
    t.Put(key, if g.result == "1-0" then m'.(p1Wins := m.p1Wins + 1)
               else if g.result == "0-1" then m'.(p2Wins := m.p2Wins + 1)
               else m'.(draws := m.draws + 1))
  }

  function MatchupTable(all: seq<GameEntry>): Table<Matchup> {
    if |all| == 0 then EmptyTable() else AddMatchup(MatchupTable(all[..|all| - 1]), all[|all| - 1])
  }

  /** Games whose key is k, and those among them with result r. */
  function KeyCount(all: seq<GameEntry>, k: string): nat {
    if |all| == 0 then 0
    else KeyCount(all[..|all| - 1], k) + (if MatchupKey(all[|all| - 1]) == k then 1 else 0)
  }

  function KeyResultCount(all: seq<GameEntry>, k: string, r: string): nat {
    if |all| == 0 then 0
    else
      var g := all[|all| - 1];
      KeyResultCount(all[..|all| - 1], k, r) + (if MatchupKey(g) == k && g.result == r then 1 else 0)
  }

  /** An entry is consistent: named "p1 vs p2", and every game counted once. */
  predicate Consistent(m: Matchup) {
    m.matchup == m.p1 + " vs " + m.p2 && m.total > 0 && m.p1Wins + m.p2Wins + m.draws == m.total
  }

  /**
   * Every entry of the matchup table is keyed by its name, has a positive
   * total equal to the number of games with that key, and counts "1-0" as
   * p1's wins, "0-1" as p2's wins and everything else (including "*") as
   * draws, so wins and draws add up to the total exactly.
   */
  lemma {:induction false} MatchupTableMeaning(all: seq<GameEntry>)
    ensures MatchupTable(all).Valid()
    ensures forall k :: k in MatchupTable(all).entries ==> Describes(MatchupTable(all).entries[k], all, k)
  {
    if |all| > 0 {
      MatchupTableMeaning(all[..|all| - 1]);
      forall k | k in MatchupTable(all).entries ensures Describes(MatchupTable(all).entries[k], all, k) {
        AddMatchupMeaning(all, k);
      }
    }
  }

  /** The entry for k holds the count of the games with key k. */
  predicate Describes(m: Matchup, all: seq<GameEntry>, k: string) {
    m.matchup == k && Consistent(m) && m.total == KeyCount(all, k) &&
    m.p1Wins == KeyResultCount(all, k, "1-0") && m.p2Wins == KeyResultCount(all, k, "0-1")
  }

  /** Adding the last game keeps the entry of any key k counted. */
  lemma AddMatchupMeaning(all: seq<GameEntry>, k: string)
    requires |all| > 0
    requires var init := all[..|all| - 1];
             k in MatchupTable(init).entries ==> Describes(MatchupTable(init).entries[k], init, k)
    requires k in MatchupTable(all).entries
    ensures Describes(MatchupTable(all).entries[k], all, k)
  {
    var init := all[..|all| - 1];
    var g := all[|all| - 1];
    if k !in MatchupTable(init).entries {
      KeyCountAbsent(init, k);
    }
  }

  /** A key never stored has no games. */
  lemma {:induction false} KeyCountAbsent(all: seq<GameEntry>, k: string)
    requires k !in MatchupTable(all).entries
    ensures KeyCount(all, k) == 0 && KeyResultCount(all, k, "1-0") == 0 && KeyResultCount(all, k, "0-1") == 0
  {
    if |all| > 0 {
      KeyCountAbsent(all[..|all| - 1], k);
    }
  }

  function TotalOf(m: Matchup): int { m.total }

  /** `getMatchupStats` as a value: the entries by total, descending, at most 10. */
  function MatchupStats(all: seq<GameEntry>): seq<Matchup> {
    var t := MatchupTable(all);
    MatchupTableMeaning(all);
    Take(SortDesc(t.Values(), TotalOf), MatchupLimit)
  }

  /** The matchup list: at most 10 consistent entries, the busiest first. */
  lemma MatchupStatsMeaning(all: seq<GameEntry>)
    ensures |MatchupStats(all)| <= MatchupLimit
    ensures SortedDesc(MatchupStats(all), TotalOf)
    ensures forall m :: m in MatchupStats(all) ==> Consistent(m) && m.total == KeyCount(all, m.matchup)
  {
    var t := MatchupTable(all);
    MatchupTableMeaning(all);
    var vs := t.Values();
    SortDescCorrect(vs, TotalOf);
    ValuesDescribed(t, all);
    forall m | m in MatchupStats(all) ensures Consistent(m) && m.total == KeyCount(all, m.matchup) {
      TakeSortedIn(vs, TotalOf, MatchupLimit, m);
    }
  }

  /** Every value of a table that describes the games is consistent and counts its key's games. */
  lemma ValuesDescribed(t: Table<Matchup>, all: seq<GameEntry>)
    requires t.Valid() && forall k :: k in t.entries ==> Describes(t.entries[k], all, k)
    ensures forall m :: m in t.Values() ==> Consistent(m) && m.total == KeyCount(all, m.matchup)
  {
    forall m | m in t.Values() ensures Consistent(m) && m.total == KeyCount(all, m.matchup) {
      var j :| 0 <= j < |t.keys| && t.Values()[j] == m;
      assert t.entries[t.keys[j]] == m;
    }
  }

  /** What the first n of the sorted sequence hold comes from the input. */
  lemma TakeSortedIn<T>(s: seq<T>, key: T -> int, n: nat, x: T)
    requires x in Take(SortDesc(s, key), n)
    ensures x in s
  {
    SortDescCorrect(s, key);
    var r := Take(SortDesc(s, key), n);
    var i :| 0 <= i < |r| && r[i] == x;
    assert x in multiset(SortDesc(s, key));
  }

  /** `getMatchupStats`: the counting loop, then values, filter, sort and slice. */
  method GetMatchupStats(all: seq<GameEntry>) returns (entries: seq<Matchup>)
    ensures entries == MatchupStats(all)
  {
    var matchups := CountMatchups(all);
    MatchupTableMeaning(all);
    var values := matchups.Values();
    MatchupValuesPlayed(matchups);
    var played := FilterPlayed(values);
    entries := Take(SortDesc(played, TotalOf), MatchupLimit);
  }

  /** Every stored entry has been played. */
  lemma MatchupValuesPlayed(t: Table<Matchup>)
    requires t.Valid() && forall k :: k in t.entries ==> Consistent(t.entries[k])
    ensures forall m :: m in t.Values() ==> m.total > 0
  {
    forall m | m in t.Values() ensures m.total > 0 {
      var i :| 0 <= i < |t.keys| && t.Values()[i] == m;
      assert t.entries[t.keys[i]] == m;
    }
  }

  /** The counting loop of `getMatchupStats`. */
  method CountMatchups(all: seq<GameEntry>) returns (matchups: Table<Matchup>)
    ensures matchups == MatchupTable(all)
  {
    matchups := EmptyTable();
    for i := 0 to |all|
      invariant matchups == MatchupTable(all[..i])
    {
      assert all[..i + 1][..i] == all[..i];
      matchups := CountMatchupGame(matchups, all[i]);
    }
    assert all[..|all|] == all;
  }

  /** The loop body of `getMatchupStats` for one game. */
  method CountMatchupGame(matchups0: Table<Matchup>, g: GameEntry) returns (matchups: Table<Matchup>)
    ensures matchups == AddMatchup(matchups0, g)
  {
    matchups := matchups0;
    var key := g.white + " vs " + g.black;
    if key !in matchups.entries {
      matchups := matchups.Put(key, Matchup(key, g.white, g.black, 0, 0, 0, 0));
    }
    var m := matchups.entries[key];
    m := m.(total := m.total + 1);
    if g.result == "1-0" {
      m := m.(p1Wins := m.p1Wins + 1);
    } else if g.result == "0-1" {
      m := m.(p2Wins := m.p2Wins + 1);
    } else {
      m := m.(draws := m.draws + 1);
    }
    matchups := matchups.Put(key, m);
  }

  /** `.filter((m) => m.total > 0)`: keeps everything, since every stored entry has a game. */
  function FilterPlayed(ms: seq<Matchup>): (r: seq<Matchup>)
    ensures (forall m :: m in ms ==> m.total > 0) ==> r == ms
  {
    if |ms| == 0 then []
    else FilterPlayed(ms[..|ms| - 1]) + (if ms[|ms| - 1].total > 0 then [ms[|ms| - 1]] else [])
  }

  // -----------------------------------------------------------------------
  // getRecentGames and the dashboard endpoint

  /** `getRecentGames`: by date, newest first, at most 20 (`time` reads a date as a timestamp). */
  function RecentGames(all: seq<GameEntry>, time: string -> int): (r: seq<GameEntry>)
    ensures |r| <= RecentLimit
  {
    Take(SortDesc(all, (g: GameEntry) => time(g.date)), RecentLimit)
  }

  /** The recent games are the newest games, newest first, and all of them when there are at most 20. */
  lemma RecentGamesMeaning(all: seq<GameEntry>, time: string -> int)
    ensures SortedDesc(RecentGames(all, time), (g: GameEntry) => time(g.date))
    ensures multiset(RecentGames(all, time)) <= multiset(all)
    ensures |all| <= RecentLimit ==> multiset(RecentGames(all, time)) == multiset(all)
  {
    var key := (g: GameEntry) => time(g.date);
    var sorted := SortDesc(all, key);
    SortDescCorrect(all, key);
    var r := RecentGames(all, time);
    if |all| > RecentLimit {
      assert sorted == r + sorted[RecentLimit..];
      assert multiset(sorted) == multiset(r) + multiset(sorted[RecentLimit..]);
    }
  }

  /**
   * The dashboard endpoint as written: `totalGames` is the length of the
   * recent-games list, which is capped at 20.
   */
  function DashboardAsWritten(all: seq<GameEntry>, time: string -> int): Dashboard {
    var recent := RecentGames(all, time);
    Dashboard(ModelStats(all), Take(recent, DashboardRecent), MatchupStats(all), |recent|)
  }

  /** With 21 games the endpoint as written reports 20. */
  lemma DashboardUndercounts(all: seq<GameEntry>, time: string -> int)
    requires |all| == RecentLimit + 1
    ensures DashboardAsWritten(all, time).totalGames == RecentLimit != |all|
  {
  }

  /** The dashboard endpoint with `totalGames` the number of games found. */
  function DashboardData(all: seq<GameEntry>, time: string -> int): (d: Dashboard)
    ensures d.totalGames == |all|
    ensures |d.recentGames| <= DashboardRecent && |d.matchupStats| <= MatchupLimit
  {
    MatchupStatsMeaning(all);
    Dashboard(ModelStats(all), Take(RecentGames(all, time), DashboardRecent), MatchupStats(all), |all|)
  }
}
