/**
 * The FastAPI arena engine: simulated battles between two models, all-play-all
 * tournaments built from battles, and the in-memory registry the API reads
 * them back from (fastapi_backend/arena_engine.py).
 *
 * The background thread of each battle or tournament is replaced by a method
 * that runs to completion; a call to `stop()` made while it runs is an input:
 * `stopRequests[k]` says that `stop()` arrived before the check made at the
 * start of game (or matchup) k + 1.  The SQLite table is the append-only
 * `Database.rows`; uuids are parameters.
 */
module ArenaEngine {
  import opened Wrappers
  import opened Strings
  import opened ChessRules

  /** `move_count < 60`: most simulated plies in one game. */
  const PlyCeiling: nat := 60
  /** Opening every tournament battle is created with. */
  const TournamentOpening: string := "1. e4"

  datatype Status = Playing | Stopped | Finished

  /** One entry of a battle's or tournament's `results` list. */
  datatype GameRecord = GameRecord(game: int, white: string, black: string, result: string)

  /** What `str(game)` renders: the headers that matter here and the move list. */
  datatype GameText = GameText(white: string, black: string, moves: seq<string>, result: string)

  /** One row written by `save_game_to_db`. */
  datatype SavedGame = SavedGame(white: string, black: string, result: string, pgn: GameText,
                                 moves: nat, opening: string, tournamentId: Option<string>)

  /** A game as `run_battle` plays it: final board, every move pushed, simulated plies. */
  datatype Outcome<P> = Outcome(board: P, moves: seq<string>, plies: nat)

  /** A Python list that callers may hold a reference to. */
  class ResultLog {
    var entries: seq<GameRecord>

    constructor ()
      ensures entries == []
    {
      entries := [];
    }
  }

  /** The `games` table. */
  class Database {
    var rows: seq<SavedGame>

    constructor ()
      ensures rows == []
    {
      rows := [];
    }
  }

  // -----------------------------------------------------------------------
  // Specification of one simulated game

  /** `range(1, n + 1)` has this many elements. */
  function GameCount(n: int): nat {
    if n > 0 then n else 0
  }

  /**
   * The move tried before the simulation: the last whitespace-separated token
   * of the opening, if python-chess parses it (an empty opening or a parse
   * error is swallowed by `except Exception: pass`).
   */
  function OpeningMove<P>(chess: PyChess<P>, p: P, opening: string): Option<string> {
    var tokens := Words(opening);
    if |tokens| == 0 then None else chess.parseSan(p, tokens[|tokens| - 1])
  }

  /** The plies played from `p` when `count` plies have been played already. */
  function Plies<P>(chess: PyChess<P>, p: P, count: nat): (P, seq<string>)
    decreases PlyCeiling - count
  {
    if chess.isGameOver(p) || count >= PlyCeiling then (p, [])
    else
      var legal := chess.legalMoves(p);
      if |legal| == 0 then (p, [])
      else
        var m := legal[count % |legal|];
        var r := Plies(chess, chess.push(p, m), count + 1);
        (r.0, [m] + r.1)
  }

  /** One complete game of a battle with this opening, from the initial board `start`. */
  function PlayOut<P>(chess: PyChess<P>, start: P, opening: string): Outcome<P> {
    var om := OpeningMove(chess, start, opening);
    var p := if om.Some? then chess.push(start, om.value) else start;
    var r := Plies(chess, p, 0);
    Outcome(r.0, (if om.Some? then [om.value] else []) + r.1, |r.1|)
  }

  /** Every move of `line` is legal in the position it is pushed in. */
  predicate LegalLine<P>(chess: PyChess<P>, p: P, line: seq<string>)
    decreases |line|
  {
    |line| == 0 ||
    (line[0] in chess.legalMoves(p) && LegalLine(chess, chess.push(p, line[0]), line[1..]))
  }

  /**
   * The simulation only plays legal moves (the `legal_moves[move_count % len]`
   * index is in range because an empty list leaves the loop first), plays at
   * most 60 plies in all, and ends in a game-over position, at the ceiling, or
   * in a position without legal moves.
   */
  lemma {:induction false} PliesAreLegalAndBounded<P>(chess: PyChess<P>, p: P, count: nat)
    requires count <= PlyCeiling
    ensures LegalLine(chess, p, Plies(chess, p, count).1)
    ensures |Plies(chess, p, count).1| <= PlyCeiling - count
    ensures var r := Plies(chess, p, count);
            chess.isGameOver(r.0) || count + |r.1| == PlyCeiling || |chess.legalMoves(r.0)| == 0
    decreases PlyCeiling - count
  {
    if !chess.isGameOver(p) && count < PlyCeiling && |chess.legalMoves(p)| > 0 {
      var legal := chess.legalMoves(p);
      var m := legal[count % |legal|];
      PliesAreLegalAndBounded(chess, chess.push(p, m), count + 1);
      var r := Plies(chess, chess.push(p, m), count + 1);
      assert ([m] + r.1)[1..] == r.1;
    }
  }

  /** The k-th simulated ply of a game is `legal_moves[k % len(legal_moves)]` of the position before it. */
  lemma {:induction false} PlyChoice<P>(chess: PyChess<P>, p: P, count: nat)
    requires count < PlyCeiling && !chess.isGameOver(p) && |chess.legalMoves(p)| > 0
    ensures var legal := chess.legalMoves(p);
            Plies(chess, p, count).1[0] == legal[count % |legal|]
  {
  }

  /** Only the last token of the opening is tried: "1. e4 e5" tries "e5" alone. */
  lemma OpeningUsesLastToken<P>(chess: PyChess<P>, p: P, opening: string, tokens: seq<string>)
    requires Words(opening) == tokens && |tokens| > 0
    ensures OpeningMove(chess, p, opening) == chess.parseSan(p, tokens[|tokens| - 1])
    ensures OpeningMove(chess, p, opening).Some? ==> PlayOut(chess, p, opening).moves[0] == OpeningMove(chess, p, opening).value
  {
  }

  // -----------------------------------------------------------------------
  // Specification of a battle

  /** `stop()` was called before the check at the start of game (or matchup) k + 1. */
  predicate StopArrives(requests: seq<bool>, k: nat) {
    k < |requests| && requests[k]
  }

  /**
   * The index of the first boundary at which the stop flag is seen, or `n` when
   * it is never seen; `k` boundaries have been passed already.
   */
  function StopPoint(stopped: bool, requests: seq<bool>, k: nat, n: nat): (g: nat)
    requires k <= n
    ensures k <= g <= n
    decreases n - k
  {
    if k == n || stopped || StopArrives(requests, k) then k
    else StopPoint(false, requests, k + 1, n)
  }

  /**
   * The stop point is the first boundary at which the flag is seen: every
   * boundary before it is passed without a stop, and when it falls short of n
   * the flag was already set or a request arrives exactly there.
   */
  lemma {:induction false} StopPointFirst(stopped: bool, requests: seq<bool>, k: nat, n: nat)
    requires k <= n
    ensures forall j :: k < j < StopPoint(stopped, requests, k, n) ==> !StopArrives(requests, j)
    ensures k < StopPoint(stopped, requests, k, n) ==> !stopped && !StopArrives(requests, k)
    ensures StopPoint(stopped, requests, k, n) < n ==>
              (StopPoint(stopped, requests, k, n) == k && stopped) || StopArrives(requests, StopPoint(stopped, requests, k, n))
    decreases n - k
  {
    if !(k == n || stopped || StopArrives(requests, k)) {
      StopPointFirst(false, requests, k + 1, n);
    }
  }

  /** Without stop requests every boundary is passed. */
  lemma {:induction false} StopPointNoRequests(k: nat, n: nat)
    requires k <= n
    ensures StopPoint(false, [], k, n) == n
    decreases n - k
  {
    if k < n {
      StopPointNoRequests(k + 1, n);
    }
  }

  /** The `results` entries of games 1..g of a battle whose games all end with `result`. */
  function BattleRecords(white: string, black: string, result: string, g: nat): (rs: seq<GameRecord>)
    ensures |rs| == g
    ensures forall k :: 0 <= k < g ==> rs[k] == GameRecord(k + 1, white, black, result)
  {
    seq(g, k requires 0 <= k < g => GameRecord(k + 1, white, black, result))
  }

  /** The rows saved for g games of a battle. */
  function BattleRows(row: SavedGame, g: nat): (rs: seq<SavedGame>)
    ensures |rs| == g
    ensures forall k :: 0 <= k < g ==> rs[k] == row
  {
    Repeat(row, g)
  }

  /** The result every game of a battle ends with: the simulation is deterministic. */
  function GameResult<P>(chess: PyChess<P>, start: P, opening: string): string {
    chess.result(PlayOut(chess, start, opening).board)
  }

  /** The row `save_game_to_db` writes for each game of a battle. */
  function BattleRow<P>(chess: PyChess<P>, start: P, white: string, black: string, opening: string,
                        tournamentId: Option<string>): SavedGame
  {
    var o := PlayOut(chess, start, opening);
    var r := chess.result(o.board);
    SavedGame(white, black, r, GameText(white, black, o.moves, r), o.plies, opening, tournamentId)
  }

  /** g copies of x. */
  function Repeat<T>(x: T, g: nat): (rs: seq<T>)
    ensures |rs| == g
    ensures forall k :: 0 <= k < g ==> rs[k] == x
  {
    seq(g, k requires 0 <= k < g => x)
  }

  /** Games a battle of `numGames` games completes, given the stop flag and the stop requests. */
  function GamesRun(stopped: bool, requests: seq<bool>, numGames: int): nat {
    StopPoint(stopped, requests, 0, GameCount(numGames))
  }

  /** The text `str(game)` of every game of a battle. */
  function BattleText<P>(chess: PyChess<P>, start: P, white: string, black: string, opening: string): GameText {
    GameText(white, black, PlayOut(chess, start, opening).moves, GameResult(chess, start, opening))
  }

  lemma BattleRecordsSnoc(white: string, black: string, result: string, g: nat)
    ensures BattleRecords(white, black, result, g + 1)
            == BattleRecords(white, black, result, g) + [GameRecord(g + 1, white, black, result)]
  {
    assert BattleRecords(white, black, result, g + 1)[g] == GameRecord(g + 1, white, black, result);
  }

  lemma RepeatSnoc<T>(x: T, g: nat)
    ensures Repeat(x, g + 1) == Repeat(x, g) + [x]
  {
    assert Repeat(x, g + 1)[g] == x;
  }

  // -----------------------------------------------------------------------
  // ArenaBattle

  class ArenaBattle {
    const id: string
    const white: string
    const black: string
    const opening: string
    const numGames: int
    const totalGames: int
    const tournamentId: Option<string>
    var currentGame: int
    const results: ResultLog
    var status: Status
    var stopFlag: bool
    var pgns: seq<GameText>
    var lastBoardFen: Option<string>
    var lastPgn: Option<GameText>

    /** `ArenaBattle.__init__` (the thread is not started here; see `RunBattle`). */
    constructor (id: string, white: string, black: string, opening: string, numGames: int,
                 tournamentId: Option<string>)
      ensures this.id == id && this.white == white && this.black == black
      ensures this.opening == opening && this.numGames == numGames && this.totalGames == numGames
      ensures this.tournamentId == tournamentId
      ensures currentGame == 0 && fresh(results) && results.entries == [] && status == Playing
      ensures !stopFlag && pgns == [] && lastBoardFen == None && lastPgn == None
    {
      this.id := id;
      this.white := white;
      this.black := black;
      this.opening := opening;
      this.numGames := numGames;
      this.totalGames := numGames;
      this.tournamentId := tournamentId;
      currentGame := 0;
      results := new ResultLog();
      status := Playing;
      stopFlag := false;
      pgns := [];
      lastBoardFen := None;
      lastPgn := None;
    }

    /** `stop()`: only raises the flag; the running battle sees it at the next game boundary. */
    method Stop()
      modifies this`stopFlag
      ensures stopFlag
    {
      stopFlag := true;
    }

    /**
     * One game of `run_battle`: the opening move, then up to 60 simulated
     * plies.  `last_board_fen`/`last_pgn` follow every simulated ply.
     */
    method PlayGame<P>(chess: PyChess<P>, start: P) returns (o: Outcome<P>)
      modifies this`lastBoardFen, this`lastPgn
      ensures o == PlayOut(chess, start, opening)
      ensures o.plies <= PlyCeiling
      ensures lastBoardFen == if o.plies > 0 then Some(chess.fen(o.board)) else old(lastBoardFen)
      ensures lastPgn == if o.plies > 0 then Some(GameText(white, black, o.moves, "*")) else old(lastPgn)
    {
      var board := start;
      var line: seq<string> := [];
      var om := OpeningMove(chess, start, opening);
      if om.Some? {
        board := chess.push(board, om.value);
        line := [om.value];
      }
      PliesAreLegalAndBounded(chess, board, 0);
      var final, played, plies := Simulate(chess, board, line);
      o := Outcome(final, played, plies);
    }

    /**
     * The `while not board.is_game_over() and move_count < 60` loop, from
     * `p` after the moves `line`: it plays `Plies(chess, p, 0)` and reports
     * the final board, the whole move list and the number of plies.
     */
    method Simulate<P>(chess: PyChess<P>, p: P, line0: seq<string>) returns (board: P, line: seq<string>, moveCount: nat)
      modifies this`lastBoardFen, this`lastPgn
      ensures board == Plies(chess, p, 0).0
      ensures line == line0 + Plies(chess, p, 0).1
      ensures moveCount == |Plies(chess, p, 0).1|
      ensures lastBoardFen == if moveCount > 0 then Some(chess.fen(board)) else old(lastBoardFen)
      ensures lastPgn == if moveCount > 0 then Some(GameText(white, black, line, "*")) else old(lastPgn)
    {
      board := p;
      line := line0;
      moveCount := 0;
      ghost var target := Plies(chess, p, 0);
      while !chess.isGameOver(board) && moveCount < PlyCeiling
        invariant moveCount <= PlyCeiling
        invariant |line| == |line0| + moveCount
        invariant Plies(chess, board, moveCount).0 == target.0
        invariant line + Plies(chess, board, moveCount).1 == line0 + target.1
        invariant lastBoardFen == if moveCount > 0 then Some(chess.fen(board)) else old(lastBoardFen)
        invariant lastPgn == if moveCount > 0 then Some(GameText(white, black, line, "*")) else old(lastPgn)
        decreases PlyCeiling - moveCount
      {
        var legal := chess.legalMoves(board);
        if |legal| == 0 {
          break;
        }
        var m := legal[moveCount % |legal|];
        ghost var rest := Plies(chess, chess.push(board, m), moveCount + 1);
        assert Plies(chess, board, moveCount) == (rest.0, [m] + rest.1);
        assert (line + [m]) + rest.1 == line + ([m] + rest.1);
        board := chess.push(board, m);
        line := line + [m];
        moveCount := moveCount + 1;
        lastBoardFen := Some(chess.fen(board));
        lastPgn := Some(GameText(white, black, line, "*"));
      }
      assert Plies(chess, board, moveCount) == (board, []);
      assert line == line0 + target.1;
    }

    /**
     * The body of one iteration of `run_battle` once the stop check has
     * passed: play game `gameNum`, then append its record, its text and its
     * database row, and make it the current game.
     */
    method RecordGame<P>(chess: PyChess<P>, start: P, gameNum: int, db: Database)
      modifies this`pgns, this`currentGame, this`lastBoardFen, this`lastPgn, results, db
      ensures results.entries == old(results.entries) + [GameRecord(gameNum, white, black, GameResult(chess, start, opening))]
      ensures pgns == old(pgns) + [BattleText(chess, start, white, black, opening)]
      ensures db.rows == old(db.rows) + [BattleRow(chess, start, white, black, opening, tournamentId)]
      ensures currentGame == gameNum
      ensures PlayOut(chess, start, opening).plies > 0 ==> lastBoardFen == Some(chess.fen(PlayOut(chess, start, opening).board))
    {
      var game := PlayGame(chess, start);
      var result := chess.result(game.board);
      var pgn := GameText(white, black, game.moves, result);
      results.entries := results.entries + [GameRecord(gameNum, white, black, result)];
      pgns := pgns + [pgn];
      currentGame := gameNum;
      db.rows := db.rows + [SavedGame(white, black, result, pgn, game.plies, opening, tournamentId)];
    }

    /**
     * `run_battle`: games 1..numGames, each checked against the stop flag
     * first.  Every game played appends one record to `results`, one text to
     * `pgns` and one row to the database, and sets `current_game`; the final
     * status is always `Finished`, because the `"stopped"` written before the
     * `break` is overwritten.
     */
    method RunBattle<P>(chess: PyChess<P>, start: P, stopRequests: seq<bool>, db: Database)
      modifies this, results, db
      ensures results.entries == old(results.entries)
                                 + BattleRecords(white, black, GameResult(chess, start, opening),
                                                 GamesRun(old(stopFlag), stopRequests, numGames))
      ensures pgns == old(pgns) + Repeat(BattleText(chess, start, white, black, opening),
                                         GamesRun(old(stopFlag), stopRequests, numGames))
      ensures db.rows == old(db.rows) + BattleRows(BattleRow(chess, start, white, black, opening, tournamentId),
                                                   GamesRun(old(stopFlag), stopRequests, numGames))
      ensures currentGame == (if GamesRun(old(stopFlag), stopRequests, numGames) > 0
                              then GamesRun(old(stopFlag), stopRequests, numGames) else old(currentGame))
      ensures stopFlag == (old(stopFlag) || GamesRun(old(stopFlag), stopRequests, numGames) < GameCount(numGames))
      ensures GamesRun(old(stopFlag), stopRequests, numGames) > 0 && PlayOut(chess, start, opening).plies > 0
              ==> lastBoardFen == Some(chess.fen(PlayOut(chess, start, opening).board))
      ensures status == Finished
    {
      ghost var n := GameCount(numGames);
      ghost var G := StopPoint(stopFlag, stopRequests, 0, n);
      ghost var stopped0 := stopFlag;
      ghost var r := GameResult(chess, start, opening);
      ghost var text := BattleText(chess, start, white, black, opening);
      ghost var row := BattleRow(chess, start, white, black, opening, tournamentId);
      ghost var log0, pgns0, rows0, current0 := results.entries, pgns, db.rows, currentGame;
      var gameNum := 1;
      while gameNum <= numGames
        invariant 1 <= gameNum <= n + 1
        invariant StopPoint(stopFlag, stopRequests, gameNum - 1, n) == G
        invariant stopFlag == stopped0
        invariant gameNum > 1 ==> !stopFlag
        invariant results.entries == log0 + BattleRecords(white, black, r, gameNum - 1)
        invariant pgns == pgns0 + Repeat(text, gameNum - 1)
        invariant db.rows == rows0 + BattleRows(row, gameNum - 1)
        invariant currentGame == (if gameNum > 1 then gameNum - 1 else current0)
        invariant gameNum > 1 && PlayOut(chess, start, opening).plies > 0
                  ==> lastBoardFen == Some(chess.fen(PlayOut(chess, start, opening).board))
        decreases numGames - gameNum
      {
        if StopArrives(stopRequests, gameNum - 1) {
          Stop();
        }
        if stopFlag {
          status := Stopped;
          break;
        }
        RecordGame(chess, start, gameNum, db);
        BattleRecordsSnoc(white, black, r, gameNum - 1);
        RepeatSnoc(text, gameNum - 1);
        RepeatSnoc(row, gameNum - 1);
        gameNum := gameNum + 1;
      }
      status := Finished;
    }
  }

  // -----------------------------------------------------------------------
  // Tournament matchups

  /** Pairs (i, j), j' from `j` up, of row i of an n-player all-play-all table, skipping j' == i. */
  function Row(n: nat, i: nat, j: nat): (ps: seq<(nat, nat)>)
    requires j <= n
    decreases n - j
  {
    if j == n then []
    else if j == i then Row(n, i, j + 1)
    else [(i, j)] + Row(n, i, j + 1)
  }

  /**
   * Row i from column j holds exactly the pairs (i, b) with j <= b < n and
   * b != i, by increasing b, and so n − j entries, less one if it skips i.
   */
  lemma {:induction false} RowFacts(n: nat, i: nat, j: nat)
    requires j <= n
    ensures forall a, b :: (a, b) in Row(n, i, j) <==> a == i && j <= b < n && b != i
    ensures forall x, y :: 0 <= x < y < |Row(n, i, j)| ==> Row(n, i, j)[x].1 < Row(n, i, j)[y].1
    ensures |Row(n, i, j)| == if j <= i < n then n - j - 1 else n - j
    decreases n - j
  {
    if j < n {
      RowFacts(n, i, j + 1);
      var rest := Row(n, i, j + 1);
      if j != i {
        var row := [(i, j)] + rest;
        assert Row(n, i, j) == row;
        forall x, y | 0 <= x < y < |row| ensures row[x].1 < row[y].1 {
          if x == 0 {
            assert row[y] == rest[y - 1] && rest[y - 1] in rest;
          } else {
            assert row[x] == rest[x - 1] && row[y] == rest[y - 1];
          }
        }
      }
    }
  }

  /** Rows i.. of the table, row after row. */
  function Rows(n: nat, i: nat): (ps: seq<(nat, nat)>)
    requires i <= n
    decreases n - i
  {
    if i == n then [] else Row(n, i, 0) + Rows(n, i + 1)
  }

  predicate LexLess(x: (nat, nat), y: (nat, nat)) {
    x.0 < y.0 || (x.0 == y.0 && x.1 < y.1)
  }

  /** Rows i.. hold exactly the ordered pairs (a, b) of distinct indices with a >= i. */
  lemma {:induction false} RowsMembers(n: nat, i: nat)
    requires i <= n
    ensures forall a: nat, b: nat :: (a, b) in Rows(n, i) <==> i <= a < n && b < n && a != b
    decreases n - i
  {
    if i < n {
      RowsMembers(n, i + 1);
      RowFacts(n, i, 0);
      var row := Row(n, i, 0);
      var rest := Rows(n, i + 1);
      assert Rows(n, i) == row + rest;
      forall a: nat, b: nat ensures (a, b) in Rows(n, i) <==> i <= a < n && b < n && a != b {
        assert (a, b) in row + rest <==> (a, b) in row || (a, b) in rest;
        assert (a, b) in row <==> a == i && b < n && b != i;
      }
    }
  }

  /** Rows i.. list their pairs in strictly increasing lexicographic (row-major) order. */
  lemma {:induction false} RowsSorted(n: nat, i: nat)
    requires i <= n
    ensures forall x, y :: 0 <= x < y < |Rows(n, i)| ==> LexLess(Rows(n, i)[x], Rows(n, i)[y])
    decreases n - i
  {
    if i < n {
      RowsSorted(n, i + 1);
      RowsMembers(n, i + 1);
      RowFacts(n, i, 0);
      var row := Row(n, i, 0);
      var rest := Rows(n, i + 1);
      var all := row + rest;
      assert Rows(n, i) == all;
      forall x, y | 0 <= x < y < |all| ensures LexLess(all[x], all[y]) {
        if y < |row| {
          assert all[x] == row[x] && all[y] == row[y];
        } else if x < |row| {
          assert all[x] == row[x] && row[x] in row;
          assert all[y] == rest[y - |row|] && rest[y - |row|] in rest;
        } else {
          assert all[x] == rest[x - |row|] && all[y] == rest[y - |row|];
        }
      }
    }
  }

  /** Each of the n − i rows from i on holds n − 1 pairs. */
  lemma {:induction false} RowsLength(n: nat, i: nat)
    requires i <= n
    ensures |Rows(n, i)| == (n - i) * (n - 1)
    decreases n - i
  {
    if i < n {
      RowsLength(n, i + 1);
      RowFacts(n, i, 0);
      MulSucc(n - (i + 1), n - 1);
    }
  }

  lemma MulSucc(m: nat, k: nat)
    ensures (m + 1) * k == m * k + k
  {
  }

  /** The comprehension of `run_tournament`: white runs over the list, black over every other entry. */
  function Matchups(models: seq<string>): seq<(string, string)> {
    Pairings(models, 0)
  }

  /** The matchups whose white is models[i] or a later entry. */
  function Pairings(models: seq<string>, i: nat): seq<(string, string)>
    decreases |models| - i
  {
    if i >= |models| then [] else Opponents(models, i, 0) + Pairings(models, i + 1)
  }

  /** models[i] as white against models[j], models[j + 1], ..., skipping itself. */
  function Opponents(models: seq<string>, i: nat, j: nat): seq<(string, string)>
    requires i < |models|
    decreases |models| - j
  {
    if j >= |models| then []
    else if j == i then Opponents(models, i, j + 1)
    else [(models[i], models[j])] + Opponents(models, i, j + 1)
  }

  predicate InTable(n: nat, idx: seq<(nat, nat)>) {
    forall k :: 0 <= k < |idx| ==> idx[k].0 < n && idx[k].1 < n
  }

  /** The entries named by a list of index pairs. */
  function Label(models: seq<string>, idx: seq<(nat, nat)>): (ms: seq<(string, string)>)
    requires InTable(|models|, idx)
    ensures |ms| == |idx|
    ensures forall k :: 0 <= k < |idx| ==> ms[k] == (models[idx[k].0], models[idx[k].1])
  {
    seq(|idx|, k requires 0 <= k < |idx| => (models[idx[k].0], models[idx[k].1]))
  }

  lemma {:induction false} OpponentsLabelRow(models: seq<string>, i: nat, j: nat)
    requires i < |models| && j <= |models|
    ensures InTable(|models|, Row(|models|, i, j))
    ensures Opponents(models, i, j) == Label(models, Row(|models|, i, j))
    decreases |models| - j
  {
    var n := |models|;
    if j == n {
      assert Row(n, i, j) == [];
    } else if j == i {
      OpponentsLabelRow(models, i, j + 1);
      assert Row(n, i, j) == Row(n, i, j + 1);
      assert Opponents(models, i, j) == Opponents(models, i, j + 1);
    } else {
      OpponentsLabelRow(models, i, j + 1);
      var rest := Row(n, i, j + 1);
      assert Row(n, i, j) == [(i, j)] + rest;
      assert Opponents(models, i, j) == [(models[i], models[j])] + Opponents(models, i, j + 1);
      LabelCons(models, (i, j), rest);
    }
  }

  lemma LabelCons(models: seq<string>, p: (nat, nat), idx: seq<(nat, nat)>)
    requires p.0 < |models| && p.1 < |models| && InTable(|models|, idx)
    ensures InTable(|models|, [p] + idx)
    ensures Label(models, [p] + idx) == [(models[p.0], models[p.1])] + Label(models, idx)
  {
    var whole := [p] + idx;
    assert forall k :: 0 < k < |whole| ==> whole[k] == idx[k - 1];
    assert Label(models, whole)[0] == (models[p.0], models[p.1]);
  }

  lemma {:induction false} PairingsLabelRows(models: seq<string>, i: nat)
    requires i <= |models|
    ensures InTable(|models|, Rows(|models|, i))
    ensures Pairings(models, i) == Label(models, Rows(|models|, i))
    decreases |models| - i
  {
    var n := |models|;
    if i < n {
      OpponentsLabelRow(models, i, 0);
      PairingsLabelRows(models, i + 1);
      var row := Row(n, i, 0);
      var rest := Rows(n, i + 1);
      assert Rows(n, i) == row + rest;
      assert InTable(n, row + rest) by {
        forall k | 0 <= k < |row + rest| ensures (row + rest)[k].0 < n && (row + rest)[k].1 < n {
          if k >= |row| {
            assert (row + rest)[k] == rest[k - |row|];
          }
        }
      }
    }
  }

  /**
   * The matchup list has `total_matches` = n·(n−1) entries, and its k-th entry
   * is (models[i], models[j]) for the k-th pair (i, j), i ≠ j, in row-major order.
   */
  lemma MatchupsCount(models: seq<string>)
    ensures |Matchups(models)| == |Rows(|models|, 0)| == |models| * (|models| - 1)
    ensures forall k :: 0 <= k < |Matchups(models)| ==>
              exists i, j :: 0 <= i < |models| && 0 <= j < |models| && i != j &&
                Rows(|models|, 0)[k] == (i, j) && Matchups(models)[k] == (models[i], models[j])
    ensures forall i, j :: 0 <= i < |models| && 0 <= j < |models| && i != j ==> (i, j) in Rows(|models|, 0)
  {
    RowsMembers(|models|, 0);
    RowsLength(|models|, 0);
    PairingsLabelRows(models, 0);
    var idx := Rows(|models|, 0);
    forall k | 0 <= k < |Matchups(models)|
      ensures exists i, j :: 0 <= i < |models| && 0 <= j < |models| && i != j &&
                Rows(|models|, 0)[k] == (i, j) && Matchups(models)[k] == (models[i], models[j])
    {
      assert idx[k] in idx;
      var (i, j) := idx[k];
      assert Matchups(models)[k] == (models[i], models[j]);
    }
  }

  /** The tournament's `results` after its first k matchups, each played as a full battle. */
  function TournamentRecords(pairs: seq<(string, string)>, gamesPerPair: nat, result: string): (rs: seq<GameRecord>)
  {
    if |pairs| == 0 then []
    else TournamentRecords(pairs[..|pairs| - 1], gamesPerPair, result)
         + BattleRecords(pairs[|pairs| - 1].0, pairs[|pairs| - 1].1, result, gamesPerPair)
  }

  // -----------------------------------------------------------------------
  // ArenaTournament

  class ArenaTournament {
    const id: string
    const models: seq<string>
    /** "1. e4", the opening every battle of the tournament is created with. */
    const opening: string
    const gamesPerPair: int
    var status: Status
    var currentMatch: nat
    const totalMatches: int
    const results: ResultLog
    var battles: seq<ArenaBattle>
    var stopFlag: bool

    /** `ArenaTournament.__init__` (the thread is not started here; see `RunTournament`). */
    constructor (id: string, models: seq<string>, gamesPerPair: int)
      ensures this.id == id && this.models == models && this.gamesPerPair == gamesPerPair
      ensures this.opening == TournamentOpening
      ensures status == Playing && currentMatch == 0 && totalMatches == |models| * (|models| - 1)
      ensures fresh(results) && results.entries == [] && battles == [] && !stopFlag
    {
      this.id := id;
      this.models := models;
      this.opening := TournamentOpening;
      this.gamesPerPair := gamesPerPair;
      status := Playing;
      currentMatch := 0;
      totalMatches := |models| * (|models| - 1);
      results := new ResultLog();
      battles := [];
      stopFlag := false;
    }

    /** `stop()`: raises the tournament's own flag only; running battles are not told. */
    method Stop()
      modifies this`stopFlag
      ensures stopFlag
    {
      stopFlag := true;
    }

    /**
     * One matchup of `run_tournament`: a new battle for (white, black) with
     * opening "1. e4" and this tournament's id, run to completion (the
     * busy-wait), and its results appended to the tournament's.
     */
    method PlayMatchup<P>(chess: PyChess<P>, start: P, white: string, black: string, battleId: string,
                          db: Database) returns (battle: ArenaBattle)
      modifies this`battles, results, db
      ensures fresh(battle) && battles == old(battles) + [battle]
      ensures battle.white == white && battle.black == black && battle.opening == opening
      ensures battle.tournamentId == Some(id) && battle.numGames == gamesPerPair && battle.status == Finished
      ensures results.entries == old(results.entries)
                                 + BattleRecords(white, black, GameResult(chess, start, opening), GameCount(gamesPerPair))
      ensures db.rows == old(db.rows) + BattleRows(BattleRow(chess, start, white, black, opening, Some(id)), GameCount(gamesPerPair))
    {
      battle := new ArenaBattle(battleId, white, black, opening, gamesPerPair, Some(id));
      battles := battles + [battle];
      StopPointNoRequests(0, GameCount(gamesPerPair));
      battle.RunBattle(chess, start, [], db);
      results.entries := results.entries + battle.results.entries;
    }

    /**
     * One pass of the `run_tournament` loop once the stop check has passed:
     * the battle of matchup k + 1 is created and run, its records and rows
     * follow those of the first k matchups, and `current_match` becomes k + 1.
     */
    method Advance<P>(chess: PyChess<P>, start: P, pairs: seq<(string, string)>, k: nat, battleId: string,
                      db: Database, ghost log0: seq<GameRecord>, ghost battles0: seq<ArenaBattle>,
                      ghost rows0: seq<SavedGame>)
      requires k < |pairs|
      requires results.entries == log0 + TournamentRecords(pairs[..k], GameCount(gamesPerPair), GameResult(chess, start, opening))
      requires db.rows == rows0 + TournamentRows(chess, start, opening, pairs[..k], GameCount(gamesPerPair), id)
      requires |battles| >= |battles0| && battles[..|battles0|] == battles0
      requires BattlePairs(battles[|battles0|..]) == pairs[..k]
      requires AllFinished(battles[|battles0|..], opening, id, gamesPerPair)
      modifies this`battles, this`currentMatch, results, db
      ensures results.entries == log0 + TournamentRecords(pairs[..k + 1], GameCount(gamesPerPair), GameResult(chess, start, opening))
      ensures db.rows == rows0 + TournamentRows(chess, start, opening, pairs[..k + 1], GameCount(gamesPerPair), id)
      ensures |battles| >= |battles0| && battles[..|battles0|] == battles0
      ensures BattlePairs(battles[|battles0|..]) == pairs[..k + 1]
      ensures AllFinished(battles[|battles0|..], opening, id, gamesPerPair)
      ensures currentMatch == k + 1
    {
      ghost var before := battles;
      var battle := PlayMatchup(chess, start, pairs[k].0, pairs[k].1, battleId, db);
      assert battles[|battles0|..] == before[|battles0|..] + [battle];
      assert battles[..|battles0|] == before[..|battles0|];
      FinishedSnoc(before[|battles0|..], battle, opening, id, gamesPerPair);
      TournamentRecordsSnoc(pairs, k, GameCount(gamesPerPair), GameResult(chess, start, opening));
      TournamentRowsSnoc(chess, start, opening, pairs, k, GameCount(gamesPerPair), id);
      BattlePairsSnoc(battles0, battles, k, pairs);
      currentMatch := k + 1;
    }

    /**
     * `run_tournament`: one battle per matchup, strictly one after another,
     * until the matchups run out or the tournament's stop flag is seen at a
     * matchup boundary; `battleIds(k)` is the uuid of the k-th battle created.
     * `results` then holds the records of the first k matchups' battles in
     * matchup order, `current_match` is k, and `status` is always `Finished`.
     */
    method RunTournament<P>(chess: PyChess<P>, start: P, stopRequests: seq<bool>,
                            battleIds: nat -> string, db: Database)
      modifies this, results, db
      ensures results.entries == old(results.entries)
                                 + TournamentRecords(Matchups(models)[..MatchesRun(old(stopFlag), stopRequests, models)],
                                                     GameCount(gamesPerPair), GameResult(chess, start, opening))
      ensures db.rows == old(db.rows)
                         + TournamentRows(chess, start, opening, Matchups(models)[..MatchesRun(old(stopFlag), stopRequests, models)],
                                          GameCount(gamesPerPair), id)
      ensures |battles| >= |old(battles)| && battles[..|old(battles)|] == old(battles)
      ensures BattlePairs(battles[|old(battles)|..]) == Matchups(models)[..MatchesRun(old(stopFlag), stopRequests, models)]
      ensures AllFinished(battles[|old(battles)|..], opening, id, gamesPerPair)
      ensures currentMatch == (if MatchesRun(old(stopFlag), stopRequests, models) > 0
                               then MatchesRun(old(stopFlag), stopRequests, models) else old(currentMatch))
      ensures status == Finished
    {
      var pairs := Matchups(models);
      ghost var n := |pairs|;
      ghost var K := StopPoint(stopFlag, stopRequests, 0, n);
      ghost var stopped0 := stopFlag;
      ghost var log0, battles0, rows0, current0 := results.entries, battles, db.rows, currentMatch;
      var idx := 1;
      while idx <= |pairs|
        invariant 1 <= idx <= n + 1
        invariant StopPoint(stopFlag, stopRequests, idx - 1, n) == K
        invariant stopFlag == stopped0
        invariant idx > 1 ==> !stopFlag
        invariant results.entries == log0 + TournamentRecords(pairs[..idx - 1], GameCount(gamesPerPair), GameResult(chess, start, opening))
        invariant db.rows == rows0 + TournamentRows(chess, start, opening, pairs[..idx - 1], GameCount(gamesPerPair), id)
        invariant |battles| >= |battles0| && battles[..|battles0|] == battles0
        invariant BattlePairs(battles[|battles0|..]) == pairs[..idx - 1]
        invariant AllFinished(battles[|battles0|..], opening, id, gamesPerPair)
        invariant currentMatch == (if idx > 1 then idx - 1 else current0)
        decreases n - idx
      {
        if StopArrives(stopRequests, idx - 1) {
          Stop();
        }
        if stopFlag {
          status := Stopped;
          break;
        }
        Advance(chess, start, pairs, idx - 1, battleIds(idx - 1), db, log0, battles0, rows0);
        idx := idx + 1;
      }
      assert K == idx - 1 == MatchesRun(stopped0, stopRequests, models);
      status := Finished;
    }
  }

  /** Every battle was created for this tournament with its opening and game count, and has finished. */
  predicate AllFinished(bs: seq<ArenaBattle>, opening: string, id: string, gamesPerPair: int)
    reads bs
  {
    forall b | b in bs ::
      b.opening == opening && b.tournamentId == Some(id) && b.numGames == gamesPerPair && b.status == Finished
  }

  lemma FinishedSnoc(bs: seq<ArenaBattle>, b: ArenaBattle, opening: string, id: string, gamesPerPair: int)
    requires AllFinished(bs, opening, id, gamesPerPair)
    requires b.opening == opening && b.tournamentId == Some(id) && b.numGames == gamesPerPair && b.status == Finished
    ensures AllFinished(bs + [b], opening, id, gamesPerPair)
  {
  }

  /** The (white, black) of each battle. */
  function BattlePairs(bs: seq<ArenaBattle>): (ps: seq<(string, string)>)
    ensures |ps| == |bs|
    ensures forall k :: 0 <= k < |bs| ==> ps[k] == (bs[k].white, bs[k].black)
  {
    seq(|bs|, k requires 0 <= k < |bs| => (bs[k].white, bs[k].black))
  }

  lemma BattlePairsSnoc(before: seq<ArenaBattle>, after: seq<ArenaBattle>, i: nat, pairs: seq<(string, string)>)
    requires i < |pairs| && |after| == |before| + i + 1 && after[..|before|] == before
    requires BattlePairs(after[|before|..|after| - 1]) == pairs[..i]
    requires (after[|after| - 1].white, after[|after| - 1].black) == pairs[i]
    ensures BattlePairs(after[|before|..]) == pairs[..i + 1]
  {
    assert after[|before|..] == after[|before|..|after| - 1] + [after[|after| - 1]];
  }

  /** How many matchups a tournament plays before a stop request ends it. */
  function MatchesRun(stopped: bool, requests: seq<bool>, models: seq<string>): (k: nat)
    ensures k <= |Matchups(models)|
  {
    StopPoint(stopped, requests, 0, |Matchups(models)|)
  }

  lemma TournamentRecordsSnoc(pairs: seq<(string, string)>, i: nat, g: nat, r: string)
    requires i < |pairs|
    ensures TournamentRecords(pairs[..i + 1], g, r)
            == TournamentRecords(pairs[..i], g, r) + BattleRecords(pairs[i].0, pairs[i].1, r, g)
  {
    assert pairs[..i + 1][..i] == pairs[..i];
  }

  /** The database rows the battles of the first k matchups save, battle after battle. */
  function TournamentRows<P>(chess: PyChess<P>, start: P, opening: string, pairs: seq<(string, string)>, gamesPerPair: nat,
                             id: string): seq<SavedGame>
  {
    if |pairs| == 0 then []
    else TournamentRows(chess, start, opening, pairs[..|pairs| - 1], gamesPerPair, id)
         + BattleRows(BattleRow(chess, start, pairs[|pairs| - 1].0, pairs[|pairs| - 1].1, opening, Some(id)), gamesPerPair)
  }

  lemma TournamentRowsSnoc<P>(chess: PyChess<P>, start: P, opening: string, pairs: seq<(string, string)>, i: nat, g: nat, id: string)
    requires i < |pairs|
    ensures TournamentRows(chess, start, opening, pairs[..i + 1], g, id)
            == TournamentRows(chess, start, opening, pairs[..i], g, id)
               + BattleRows(BattleRow(chess, start, pairs[i].0, pairs[i].1, opening, Some(id)), g)
  {
    assert pairs[..i + 1][..i] == pairs[..i];
  }

  /**
   * Every row a tournament saves carries its id and the opening its battles were created with, and
   * the battle of the m-th matchup saves `games_per_pair` rows for its pair.
   */
  lemma {:induction false} TournamentRowsTagged<P>(chess: PyChess<P>, start: P, opening: string, pairs: seq<(string, string)>,
                                                   g: nat, id: string)
    ensures |TournamentRows(chess, start, opening, pairs, g, id)| == |pairs| * g
    ensures forall k :: 0 <= k < |TournamentRows(chess, start, opening, pairs, g, id)| ==>
              TournamentRows(chess, start, opening, pairs, g, id)[k].tournamentId == Some(id)
              && TournamentRows(chess, start, opening, pairs, g, id)[k].opening == opening
  {
    if |pairs| > 0 {
      var init := pairs[..|pairs| - 1];
      TournamentRowsTagged(chess, start, opening, init, g, id);
      MulSucc(|init|, g);
      var last := pairs[|pairs| - 1];
      var front: seq<SavedGame> := TournamentRows(chess, start, opening, init, g, id);
      var back: seq<SavedGame> := BattleRows(BattleRow(chess, start, last.0, last.1, opening, Some(id)), g);
      forall k | 0 <= k < |front + back|
        ensures (front + back)[k].tournamentId == Some(id) && (front + back)[k].opening == opening
      {
        if k < |front| {
          assert (front + back)[k] == front[k];
        } else {
          assert (front + back)[k] == back[k - |front|];
        }
      }
    }
  }

  // -----------------------------------------------------------------------
  // Registry

  /** What `get_battle_status` returns; `results` is the battle's own list, not a copy. */
  datatype BattleStatus = BattleStatus(white: string, black: string, currentGame: int, totalGames: int,
                                       currentBoard: Option<string>, results: ResultLog,
                                       pgn: Option<GameText>, status: Status)

  /** What `get_tournament_status` returns; `results` is the tournament's own list. */
  datatype TournamentStatus = TournamentStatus(models: seq<string>, gamesPerPair: int, currentMatch: nat,
                                               totalMatches: int, results: ResultLog, status: Status)

  /** The module-level `_battles` and `_tournaments` dictionaries. */
  class Registry {
    var battles: map<string, ArenaBattle>
    var tournaments: map<string, ArenaTournament>

    constructor ()
      ensures battles == map[] && tournaments == map[]
    {
      battles := map[];
      tournaments := map[];
    }

    /** `start_battle`: creates the battle, runs it, registers it under its uuid and returns the uuid. */
    method StartBattle<P>(uuid: string, white: string, black: string, opening: string, numGames: int,
                          chess: PyChess<P>, start: P, db: Database) returns (id: string)
      modifies this, db
      ensures id == uuid && id in battles
      ensures battles == old(battles)[id := battles[id]] && tournaments == old(tournaments)
      ensures fresh(battles[id]) && battles[id].white == white && battles[id].black == black
      ensures battles[id].opening == opening && battles[id].totalGames == numGames
      ensures battles[id].tournamentId == None && battles[id].status == Finished
    {
      var battle := new ArenaBattle(uuid, white, black, opening, numGames, None);
      battle.RunBattle(chess, start, [], db);
      battles := battles[uuid := battle];
      id := uuid;
    }

    /** `start_tournament`: creates the tournament, runs it, registers it and returns its uuid. */
    method StartTournament<P>(uuid: string, models: seq<string>, gamesPerPair: int,
                              chess: PyChess<P>, start: P, battleIds: nat -> string, db: Database)
      returns (id: string)
      modifies this, db
      ensures id == uuid && id in tournaments
      ensures tournaments == old(tournaments)[id := tournaments[id]] && battles == old(battles)
      ensures fresh(tournaments[id]) && tournaments[id].models == models
      ensures tournaments[id].totalMatches == |models| * (|models| - 1)
      ensures tournaments[id].status == Finished
    {
      var tournament := new ArenaTournament(uuid, models, gamesPerPair);
      tournament.RunTournament(chess, start, [], battleIds, db);
      tournaments := tournaments[uuid := tournament];
      id := uuid;
    }

    /**
     * `get_battle_status`: None for an unknown id; otherwise a record of the
     * battle's current fields whose `results` is the very list the battle keeps
     * appending to, so later games show through a record fetched earlier.
     */
    function BattleStatusOf(id: string): (s: Option<BattleStatus>)
      reads this, battles.Values
      ensures s.None? <==> id !in battles
      ensures s.Some? ==> s.value.results == battles[id].results && s.value.status == battles[id].status
                          && s.value.currentGame == battles[id].currentGame
                          && s.value.currentBoard == battles[id].lastBoardFen
                          && s.value.white == battles[id].white && s.value.black == battles[id].black
                          && s.value.totalGames == battles[id].totalGames && s.value.pgn == battles[id].lastPgn
    {
      if id !in battles then None
      else
        var b := battles[id];
        Some(BattleStatus(b.white, b.black, b.currentGame, b.totalGames, b.lastBoardFen, b.results,
                          b.lastPgn, b.status))
    }

    /** `get_tournament_status`: None for an unknown id, otherwise the tournament's current fields. */
    function TournamentStatusOf(id: string): (s: Option<TournamentStatus>)
      reads this, tournaments.Values
      ensures s.None? <==> id !in tournaments
      ensures s.Some? ==> s.value.results == tournaments[id].results
                          && s.value.currentMatch == tournaments[id].currentMatch
                          && s.value.totalMatches == tournaments[id].totalMatches
                          && s.value.models == tournaments[id].models
                          && s.value.gamesPerPair == tournaments[id].gamesPerPair
                          && s.value.status == tournaments[id].status
    {
      if id !in tournaments then None
      else
        var t := tournaments[id];
        Some(TournamentStatus(t.models, t.gamesPerPair, t.currentMatch, t.totalMatches, t.results, t.status))
    }
  }
}
