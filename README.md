# LLM Chess Arena — a verified model of its game, tournament and statistics logic

The system pits large language models against each other (and against a
human) at chess. A Node/Express server and a FastAPI backend run games and
battles, browser pages replay and analyse games, and tournaments, rankings
and dashboards are built from the saved results. This project models the
sequential logic of that system in Dafny and proves what it promises. The
chess rules come from chess.js and python-chess, and the model answers come
from LLM providers. Both are parameters here, so every statement holds for
any rules library and any answer. The game runners ask for an answer (and a
random index) with the game id and the turn as well as the position and the
move history, so two games of one battle may be answered differently.

One module per source file or component:

- **Match and battle runners**
  - `ArenaServer` (server.js): asking a model for a move and extracting it
    from the answer, the 200-ply game loop, the result rule, the PGN text,
    the running statistics, battles with alternating colours, the
    human-move result rule and the PGN route path checks.
  - `ArenaManager` (public/js/chess_arena_manager.js): the browser battle
    runner with its move arbiter and tallies.
  - `ArenaEngine` (fastapi_backend/arena_engine.py): simulated 60-ply
    battles, all-play-all tournaments and the status registry, with the
    SQLite table as an append-only log.
  - `GameEngine` (fastapi_backend/game_engine.py): python-chess games and
    the judge choice.
  - `ModelsManager` (fastapi_backend/models_manager.py): the model registry.
- **Tournaments** (public/js/advanced_tournament_system.js)
  - `TournamentPairings`: the circle-method round robin with a `BYE`.
  - `TournamentSwiss`: greedy Swiss pairing.
  - `TournamentKnockout`: knockout halving with the Fisher–Yates shuffle.
  - `TournamentSchedule`: batching of a round into groups and the duration
    estimate.
  - `TournamentStandings`: the standings records and the final ranking.
  - `TournamentElo`: the Elo step, with the expected score abstract.
- **Statistics**
  - `Dashboard` (fastapi_backend/dashboard.py): the player and matchup
    tallies.
  - `DataRoutes` (routes/data.js): model and matchup statistics and recent
    games.
  - `Rankings` (public/js/rankings.js): the ranking table, with the stable
    descending sort in `Sorting`.
  - `ArenaPage` (public/js/arena.js): result labels and the matchup tally.
- **Board and replay**
  - `Chessboard` (public/js/chessboard.js): the position map, the
    blocker-free move geometry, moves and history, notation, square
    colours and events.
  - `App` (public/js/app.js): the FEN placement reader, move bookkeeping,
    cursors and move lists.
  - `PgnViewer` (public/js/pgn_viewer.js): the replay cursor, buttons and
    autoplay.
  - `GameAnalysis` (public/js/advanced_game_analysis.js): UCI `info` line
    parsing, move classification, accuracy and the game statistics.
- **Services**
  - `Settings` (routes/settings.js): the range and prefix checks,
    `mergeDeep`, validation, reset and import. The range checks compare
    text and arrays as JavaScript's `<` and `>` convert them.
  - `Api` (public/js/api.js): the cache, the retry loop and the
    online/fallback switch.
  - `LichessRag` (public/js/enhanced_lichess_api.js): NDJSON buffering,
    rate limiting and the knowledge base.
  - `HumanVsAi` (public/js/enhanced_human_vs_ai.js): session bookkeeping.
  - `Utils` (public/js/utils.js): the pure helpers.
- **Shared modules**
  - `Wrappers`: Option and Result.
  - `Strings`: JavaScript and Python string operations.
  - `Json`: JavaScript values and their conversion to a number.
  - `NumberText`: JavaScript's reading of text as a number.
  - `Tables`: insertion-ordered dictionaries.
  - `ChessRules`: the chess libraries as records of functions over an
    abstract position.

Objects whose fields the source updates in place are classes with
`modifies` clauses: battles, tournaments, registries, boards, viewers,
stores, caches, streams and sessions. Their methods are proved against
specification functions, and the lemmas beside those functions state the
source's promises.

Some behaviour of the source that the model keeps, and proves, as written:

- The round-robin duration estimate counts n·(n−1)·g games. That is twice
  the number of games the generator schedules, and for an odd field the
  estimate also shows one round fewer (`TournamentSchedule.EstimateVsRoundRobin`).
- A stopped battle or tournament of the FastAPI engine still ends with
  status "finished", because the "stopped" it writes is overwritten.
- An unrecognised result string makes both Elo ratings NaN.
- Explicit request headers replace the client's default Content-Type
  (`Api.ConfigHeadersReplaced`).
- API-key prefixes are checked on the untrimmed key (`Settings.UntrimmedPrefix`).
- Resetting the settings drops the `security` block (`Settings.ResetDropsSecurity`).

## Model

| member | source | states |
|---|---|---|
| ArenaServer.Clean | server.js:319 | the cleaned reply is no longer than the reply, keeps only word characters, `-`, `+`, `=` and blanks, and leaves a reply made only of those unchanged |
| ArenaServer.ExtractMove | server.js:307-342 | a move is only ever returned when it is legal; a trimmed quoted move that is legal is returned as is; no move means no pattern match is legal |
| ArenaServer.ExtractMoveContained | server.js:319-327 | with no legal quoted move, the answer is the first legal move, in chess.js order, that the cleaned reply contains |
| ArenaServer.ExtractMoveMatched | server.js:329-341 | with no legal quoted move and no legal move contained in the cleaned reply, the answer is the first pattern match that is legal, or null when no match is |
| ArenaServer.PatternMove | server.js:333-339 | the first pattern match that is a legal move, or null exactly when no match is legal; whatever it returns is legal |
| ArenaServer.MakeMove | server.js:113-172 | an error exactly when the model is unknown or inactive or there is no legal move; otherwise the move is legal, and it is the extracted move whenever a known provider answered with one |
| ArenaServer.NonBlank | server.js:356 | the filtered opening tokens are no more than the tokens and none is blank |
| ArenaServer.ApplyOpening | server.js:353-374 | the opening only appends to the history, at most one SAN per token |
| ArenaServer.EngineLoopBounded | server.js:376-434 | the engine loop makes at most 200 moves, each adding exactly one SAN, and stops only at game over, at the cap, or when no move could be made |
| ArenaServer.GameResult | server.js:437-453 | checkmate goes to the side not to move; stalemate, a draw or 200 moves is "1/2-1/2"; the result is "*" exactly when none of these holds |
| ArenaServer.HumanMoveResult | server.js:895-903 | the human-move route reports a result exactly when the game is over |
| ArenaServer.HumanResultAgrees | server.js:895-903 | on checkmate, stalemate or draw the human route gives the same result as `playGame`; any other game over is a draw |
| ArenaServer.GameOf | server.js:344-491 | the game record names the two models and its id, and its move count is the length of its move list |
| ArenaServer.GameOfBounded | server.js:344-491 | a game holds at most its opening tokens plus 200 moves, and its result is one of "1-0", "0-1", "1/2-1/2", "*" |
| ArenaServer.Pgn | server.js:504-526 | the PGN starts with the eight tag pairs and ends with a blank and the result |
| ArenaServer.MoveTextLines | server.js:517-522 | the move text splits at newlines into one line per pair of half-moves, ⌈n/2⌉ of them, followed by an empty rest |
| ArenaServer.BodiesFromAt | server.js:517-522 | line k holds the move number k + 1 with half-moves 2k and, when present, 2k + 1 |
| ArenaServer.GeneratePgn | server.js:504-526 | the loop builds exactly the PGN text `Pgn` describes |
| ArenaServer.AppendMovePair | server.js:518-521 | one pass appends the numbered line for half-moves i and i + 1 |
| ArenaServer.ReadDurationOf | server.js:581-585 | any minutes and seconds printed as "<m>m <s>s" read back as 60·m + s |
| ArenaServer.FormatDurationRoundTrip | server.js:581-585 | for a whole number of seconds the printed duration reads back to the same number |
| ArenaServer.ListGamesCheck | server.js:790-792 | the list-games route refuses a matchup exactly when it contains ".." |
| ArenaServer.PgnDataCheck | server.js:808-815 | the pgn-data route accepts exactly a ".."-free matchup and file with a file ending in ".pgn"; "Invalid path" exactly when either part contains ".." |
| ArenaServer.AcceptedPathHasNoDotDot | server.js:808-815 | a path the route accepts, joined with "/", contains no ".." |
| ArenaServer.StatsAfterGame | server.js:493-502 | one more game and one more completed game, its moves added, and the average duration the rounded half of old average plus duration |
| ArenaServer.Record | server.js:663-684 | game i sets the current game to i + 1, appends its result record, and raises exactly one of the three counters |
| ArenaServer.BattleGameOf | server.js:641-657 | game i of a battle is played by the configured models with colours swapped on odd games |
| ArenaServer.BattleGamesAlternate | server.js:640-644 | the games of a battle alternate colours |
| ArenaServer.BattleAccounted | server.js:640-692 | for two different models, after k games: whiteWins and blackWins count the games each configured model won with either colour, draws the rest, and the three add up to the number of recorded results |
| ArenaServer.BattleStats | server.js:635-705 | each game a battle finishes is counted once in the server statistics and once in the results |
| ArenaServer.Battle.constructor | server.js:614-626 | a new battle is running with no games, no results and zero counters |
| ArenaServer.RecordGame | server.js:663-684 | the battle's state after game i is the `Record` of its old state |
| ArenaServer.GameManager.constructor | server.js:46-58 | empty statistics, no active games, no battles |
| ArenaServer.GameManager.UpdateGameStats | server.js:493-502 | the statistics become `StatsAfterGame` of the old ones; nothing else changes |
| ArenaServer.GameManager.PlayGame | server.js:344-491 | the game returned is `GameOf` its inputs and the statistics are updated with it |
| ArenaServer.GameManager.RunBattle | server.js:635-705 | the battle ends "completed" with the tallies and statistics of `BattleAfter` over all its games |
| ArenaServer.GameManager.BattleGame | server.js:641-690 | one game of the battle is played, recorded and counted in the statistics |
| ArenaServer.GameManager.StartBattle | server.js:613-633 | a fresh battle registered under its id, then run to completion |
| ArenaServer.PlayOpening | server.js:353-374 | the loop computes exactly `ApplyOpening` |
| ArenaServer.Engine | server.js:376-434 | the loop computes exactly `EngineLoop` from the position after the opening |
| Utils.CoordsRoundTrip | public/js/utils.js:201-209 | for file and rank in 0..7 the square built from them is a valid square and converts back to the same coordinates |
| Utils.SquareCoords | public/js/utils.js:201-205 | a square's coordinates are its file letter less 'a' and its rank digit less one |
| Utils.SquareRoundTrip | public/js/utils.js:201-209 | every valid square converts to coordinates in 0..7 that convert back to the same square |
| Utils.RgbDigits | public/js/utils.js:221-223 | `rgbToHex` is "#" followed by two lower-case hex digits per channel, red first |
| Utils.ReadChannels | public/js/utils.js:212-219 | `hexToRgb` reads the three channels back from such a colour |
| Utils.ColorRoundTrip | public/js/utils.js:212-223 | for channels in 0..255 the colour has seven characters, six of them hex digits, and `hexToRgb` returns the same channels |
| Utils.DurationParts | public/js/utils.js:67-81 | a positive duration of h hours, m < 60 minutes and s < 60 seconds prints as "Hh Mm Ss", dropping leading zero units |
| Utils.FormatEloReadsBack | public/js/utils.js:90-93 | a number prints as an integer within one half of it; anything else prints "1500" |
| Utils.ResultLabels | public/js/utils.js:96-113 | the text and colour say "in progress" exactly for a result other than the three final ones, and different final results get different texts and colours |
| Utils.RequiredRefuses | public/js/utils.js:360-365 | the check throws exactly for a falsy value or a blank string |
| Utils.ValidateRange | public/js/utils.js:367-372 | the check passes exactly when min ≤ value ≤ max |
| Utils.FormatMoveSplit | public/js/utils.js:183-189 | split at blanks, the formatted move is the number with a dot, the white move and, when given, the black move |
| Utils.ParseUnnumberedMove | public/js/utils.js:177-180 | trailing annotation marks are stripped from a SAN without a move number |
| Utils.ParseNumberedMove | public/js/utils.js:177-180 | "<n>. " and trailing annotation marks are stripped, leaving the SAN |
| Utils.DeepCloneEqual | public/js/utils.js:143-156 | the clone of any value equals the value |
| App.ScanRanksOnBoard | public/js/app.js:1059-1072 | every square the FEN reader draws on is one of the 64 board squares |
| App.DigitRank | public/js/app.js:1062-1069 | a rank made only of digits draws nothing and advances the file by their sum |
| App.LetterRank | public/js/app.js:1062-1069 | a rank of at most eight piece letters draws piece f on file f of that rank |
| App.RankOrder | public/js/app.js:1059-1072 | the i-th rank of the placement field is drawn on board rank 8 − i |
| App.StatusTurns | public/js/app.js:1252-1266 | the status names White exactly after an even number of half-moves and ends with move number ⌊n/2⌋ + 1, which a white half-move keeps and a black one raises |
| App.PairingLines | public/js/app.js:461-474 | the move list has ⌈n/2⌉ lines and line k is numbered k + 1 with half-moves 2k and 2k + 1 (empty when missing) |
| App.UnpairPairing | public/js/app.js:461-474 | reading the lines back gives the moves, with one empty slot at the end of an odd list |
| App.MoveLines | public/js/app.js:461-474 | the step-2 loop writes exactly those lines |
| App.BattleRefusalCases | public/js/app.js:489-496 | a quick battle starts exactly when both models are chosen and different, with the "different models" warning for two equal models |
| App.Clamp | public/js/app.js:811 | the clamped cursor lies in 0..total, is the request when in range, else the nearer end |
| App.ClampButtons | public/js/app.js:808-813 | clamping is idempotent; a step back stops at 0 and a step forward stops at the last move |
| App.PgnReplay.constructor | public/js/app.js:7-17 | no PGN game is loaded and the cursor is 0 |
| App.PgnReplay.Load | public/js/app.js:725-735 | loading a game stores its moves and resets the cursor to 0 |
| App.PgnReplay.GoToPgnMove | public/js/app.js:808-813 | without a game nothing changes; otherwise the cursor becomes the clamped request |
| App.ProfessionalChessboard.constructor | public/js/app.js:944-959 | the board shows and records the initial position, with no history, cursor 0, not flipped, nothing selected |
| App.ProfessionalChessboard.SetPositionFromFen | public/js/app.js:1031-1073 | the board shows the FEN's placement; the recorded position, history, cursor and orientation are unchanged |
| App.ProfessionalChessboard.AttemptMove | public/js/app.js:1170-1218 | with no piece on the source square only the selection clears; otherwise the piece moves on screen and in the recorded position, one history entry with the capture flag is appended, and the cursor goes to the end |
| App.ProfessionalChessboard.AddToHistory | public/js/app.js:1229-1237 | one entry appended and the cursor set to the history's length |
| App.ProfessionalChessboard.GoToStart | public/js/app.js:1325-1331 | the cursor goes to 0 when there is history; the history and board are unchanged |
| App.ProfessionalChessboard.PreviousMove | public/js/app.js:1333-1339 | the cursor steps back unless it is at 0 |
| App.ProfessionalChessboard.NextMove | public/js/app.js:1341-1347 | the cursor steps forward unless it is at the end |
| App.ProfessionalChessboard.GoToEnd | public/js/app.js:1349-1355 | the cursor goes to the end when there is history |
| App.ProfessionalChessboard.FlipBoard | public/js/app.js:1268-1286 | only the orientation changes |
| App.ProfessionalChessboard.GameStatus | public/js/app.js:1252-1266 | the status names White exactly when the history has even length |
| Chessboard.InitialPlacement | public/js/chessboard.js:26-61 | the initial position has the white king on e1 and nothing on e4 |
| Chessboard.ValidMoveRefusals | public/js/chessboard.js:521-537 | a move to the same square, from an empty square, or onto a piece of the mover's colour is refused; onto an empty square it is valid exactly when the piece's movement is |
| Chessboard.Square | public/js/chessboard.js:544-547 | the square built from file f and rank r has file code 97 + f and rank r |
| Chessboard.Geometry | public/js/chessboard.js:539-573 | rooks move along a file or rank, bishops diagonally, queens either way, kings one step, knights in an L, and an unknown glyph never moves; blockers are ignored |
| Chessboard.PawnGeometry | public/js/chessboard.js:575-602 | a pawn moves one square forward to an empty square, two from its start rank through two empty squares, or one diagonally forward onto an occupied square |
| Chessboard.MovementSymmetric | public/js/chessboard.js:539-573 | for every piece but the pawn, a movement is valid exactly when its reverse is |
| Chessboard.AllSquares | public/js/chessboard.js:609-611 | the scan visits 64 squares |
| Chessboard.ValidTargetsMembers | public/js/chessboard.js:604-624 | a square is listed exactly when it is on the board and the move to it is valid |
| Chessboard.NoTargetsFromEmpty | public/js/chessboard.js:606-607 | an empty square has no possible moves |
| Chessboard.AllSquaresCover | public/js/chessboard.js:609-620 | every board square is visited, file by file and rank by rank |
| Chessboard.NotationParts | public/js/chessboard.js:630-637 | the notation ends with the target square and is the piece letter, an "x" for a capture and the square; a pawn has no letter |
| Chessboard.Symbol | public/js/chessboard.js:639-650 | the piece letter has at most one character |
| Chessboard.FlipRecolours | public/js/chessboard.js:217-230 | as written, flipping the board changes the colour of every square, and unflipped a1 is drawn light |
| Chessboard.LightSquares | public/js/chessboard.js:217-230 | the intended colouring has h1 and a8 light and a1 dark and alternates along ranks and files; the drawn board matches it only when flipped |
| Chessboard.IndexOf | public/js/chessboard.js:717 | the index found is the first occurrence of the callback, and there is none exactly when it is absent |
| Chessboard.RemoveFirstSpec | public/js/chessboard.js:715-722 | removing an absent callback changes nothing; otherwise exactly its first occurrence is spliced out |
| Chessboard.Failures | public/js/chessboard.js:724-734 | the callbacks that fail are exactly the called ones that throw |
| Chessboard.MoveFrame | public/js/chessboard.js:460-462 | after a move the piece stands on the target, the source is empty, and every other square is unchanged |
| Chessboard.Board.constructor | public/js/chessboard.js:69-105 | the board starts at the initial position with no history, no callbacks, nothing selected, flipped exactly for the black orientation |
| Chessboard.Board.SetPosition | public/js/chessboard.js:258-274 | the position is replaced and nothing else changes |
| Chessboard.Board.MakeMove | public/js/chessboard.js:437-488 | nothing happens when the source is empty; otherwise the piece moves, one record with the captured piece and the notation is appended, and the last move is set |
| Chessboard.Board.AttemptMove | public/js/chessboard.js:420-435 | the move is made exactly when it is valid; a refused move leaves position and history unchanged |
| Chessboard.Board.PossibleMoves | public/js/chessboard.js:604-624 | the nested loops list exactly the valid targets, in file-then-rank order |
| Chessboard.Board.ScanFile | public/js/chessboard.js:614-621 | one pass of the outer loop adds the valid targets of one file |
| Chessboard.Board.Flip | public/js/chessboard.js:661-673 | only the orientation changes |
| Chessboard.Board.Reset | public/js/chessboard.js:675-684 | the initial position, an empty history, nothing selected, no last move; callbacks and orientation kept |
| Chessboard.Board.On | public/js/chessboard.js:708-713 | the callback is appended to the event's list, which is created when missing |
| Chessboard.Board.Off | public/js/chessboard.js:715-722 | the first registration of the callback is removed; an unknown event changes nothing |
| Chessboard.Board.Emit | public/js/chessboard.js:724-734 | every registered callback is called in order and the ones that throw are reported without stopping the rest |
| PgnViewer.ButtonsDisabledWhenIdle | public/js/pgn_viewer.js:463-478 | each navigation button is disabled exactly when pressing it would leave the cursor where it is |
| PgnViewer.HistoryLines | public/js/pgn_viewer.js:433-461 | the history has one line per pair of half-moves, ⌈n/2⌉ lines |
| PgnViewer.HighlightMatchesInfo | public/js/pgn_viewer.js:433-461 | at the start nothing is highlighted and the panel shows the start position; otherwise exactly one cell is highlighted, on the line numbered as the panel's move, on the panel's side, holding the panel's SAN |
| PgnViewer.Viewer.constructor | public/js/pgn_viewer.js:3-18 | no game, no moves, cursor 0, autoplay off |
| PgnViewer.Viewer.GoToMove | public/js/pgn_viewer.js:480-506 | without a game nothing changes; otherwise the cursor becomes the clamped request and the history is redrawn for it |
| PgnViewer.Viewer.UpdateMoveHistory | public/js/pgn_viewer.js:433-461 | an empty game leaves the history as it was; otherwise it is redrawn for the cursor |
| PgnViewer.Viewer.Load | public/js/pgn_viewer.js:366-377 | a loaded game sets the moves, their count and cursor 0, and draws the history |
| PgnViewer.Viewer.StartAutoPlay | public/js/pgn_viewer.js:539-553 | autoplay starts only with a game and a cursor before the last move |
| PgnViewer.Viewer.StopAutoPlay | public/js/pgn_viewer.js:555-563 | autoplay and its timer stop; nothing else changes |
| PgnViewer.Viewer.ToggleAutoPlay | public/js/pgn_viewer.js:531-537 | a playing viewer stops; an idle one starts when it can |
| PgnViewer.Viewer.Tick | public/js/pgn_viewer.js:545-552 | a tick at the last move stops autoplay; otherwise it advances the cursor by one |
| PgnViewer.Viewer.KeyDown | public/js/pgn_viewer.js:268-294 | without a game keys do nothing; the arrows step the clamped cursor, Home and End jump to the ends, and the space bar toggles autoplay |
| GameEngine.JudgeName | fastapi_backend/game_engine.py:22-33 | a judge is chosen exactly when a model is registered: "Llama3-70B" when present, else "Mixtral-8x7B" when present, else the first registered model |
| GameEngine.AiMove | fastapi_backend/game_engine.py:35-45 | the stub plays exactly when the model's configuration is non-empty and there is a legal move, and then plays the first legal move |
| GameEngine.ExtractMove | fastapi_backend/game_engine.py:47-55 | a move is returned exactly when the reply has a "My move:" capture whose trimmed text parses as SAN, and it is the parsed move |
| GameEngine.EngineOpening | fastapi_backend/game_engine.py:82-91 | the opening plays its last word, or "e4" when that word does not parse; it fails exactly when there is no word or neither parses |
| GameEngine.EngineLineLegal | fastapi_backend/game_engine.py:93-105 | every engine move is legal where it is played, there are at most `max_moves` of them, and the loop stops only at game over, at the cap or when the side to move has no move |
| GameEngine.UnregisteredModelPlaysNothing | fastapi_backend/game_engine.py:37-39 | with no registered models the engine plays no move at all |
| GameEngine.GameEngine.constructor | fastapi_backend/game_engine.py:17-20 | a new engine has an empty model manager and no judge |
| GameEngine.GameEngine.InitializeJudge | fastapi_backend/game_engine.py:22-33 | the judge becomes the configuration of the chosen name, and stays as it was when no model is registered |
| GameEngine.GameEngine.PlayGame | fastapi_backend/game_engine.py:73-115 | an opening failure is reported; otherwise the report holds the opening move and the engine line, the board's result and FEN, and a move count within `max_moves` |
| GameEngine.Engine | fastapi_backend/game_engine.py:93-105 | the loop computes exactly the engine line, within the budget |
| ModelsManager.Config.constructor | fastapi_backend/models_manager.py:14-15 | a configuration holds the fields given |
| ModelsManager.ModelManager.constructor | fastapi_backend/models_manager.py:10-11 | no models |
| ModelsManager.ModelManager.AddModel | fastapi_backend/models_manager.py:14-15 | the name maps to the configuration; a new name is listed last, an existing one keeps its place |
| ModelsManager.ModelManager.GetModel | fastapi_backend/models_manager.py:17-18 | the stored configuration, or a fresh empty one for an unknown name |
| ModelsManager.ModelManager.ListModels | fastapi_backend/models_manager.py:20-21 | the names in insertion order, each once, exactly the registered ones |
| ModelsManager.ModelManager.ActivateModel | fastapi_backend/models_manager.py:23-25 | a registered model's configuration gets `active` set to true; an unknown name changes nothing |
| ModelsManager.ModelManager.DeactivateModel | fastapi_backend/models_manager.py:27-29 | a registered model's configuration gets `active` set to false |
| ModelsManager.AddThenActivate | fastapi_backend/models_manager.py:14-25 | activating a model after adding it writes through to the caller's own configuration object |
| TournamentElo.RoundHalfUp | public/js/advanced_tournament_system.js:909-910 | `Math.round` gives the integer n with n − ½ ≤ x < n + ½ |
| TournamentElo.RoundShift | public/js/advanced_tournament_system.js:909-910 | rounding a whole rating plus a change is the rating plus the rounded change |
| TournamentElo.RoundOpposite | public/js/advanced_tournament_system.js:909-910 | the rounded change and the rounded opposite change add up to 0 or 1, and to 1 exactly when the change is a half-integer |
| TournamentElo.EloZeroSum | public/js/advanced_tournament_system.js:895-911 | for a known result each player moves by the rounded ±K·(actual − expected); the two changes add up to 0, or to 1 exactly when the change is a half-integer |
| TournamentElo.EloBounded | public/js/advanced_tournament_system.js:895-911 | with an expected score strictly between 0 and 1, each rating moves by at most 32, the winner never loses points and the loser never gains |
| TournamentElo.EloNotANumber | public/js/advanced_tournament_system.js:899-904 | both ratings become NaN exactly for an unknown result or a NaN rating |
| TournamentElo.ScoresSumToOne | public/js/advanced_tournament_system.js:1253-1267 | the calculator knows the same results as the tournament and its two actual scores add up to 1 |
| TournamentElo.CalculatorAgrees | public/js/advanced_tournament_system.js:1249-1279 | `EloCalculator.updateRatings` keeps the players' names and computes the same ratings as `updateEloRatings` |
| Dashboard.Recorded | fastapi_backend/dashboard.py:34-40 | only files with all three tag matches count as games, so there are no more games than files |
| Dashboard.PreparedEffect | fastapi_backend/dashboard.py:41-46 | both players get an entry and each player's total rises by the number of sides it played |
| Dashboard.AddGameEffect | fastapi_backend/dashboard.py:41-55 | after one game the table holds exactly the old players and the two in the game, each under its own name, and each player's four counters rise by that game's share for it |
| Dashboard.AddGameValid | fastapi_backend/dashboard.py:41-55 | a game keeps the table's keys distinct and in step with its entries |
| Dashboard.TallyCounts | fastapi_backend/dashboard.py:21-56 | after any list of games the table holds exactly the seeded and the seen players, and each player's total, wins, losses and draws count its games, wins, losses and draws in the list |
| Dashboard.PlayedIffAppears | fastapi_backend/dashboard.py:41-46 | a player has a non-zero total exactly when it appears in some game |
| Dashboard.OutcomesWithinTotal | fastapi_backend/dashboard.py:45-55 | a player's wins, losses and draws add up to at most its total |
| Dashboard.AddGameSum | fastapi_backend/dashboard.py:45-55 | a game adds two to the sum of totals, and one win and one loss exactly when it is decisive |
| Dashboard.WinsBalanceLosses | fastapi_backend/dashboard.py:21-56 | over the whole table the wins and the losses both equal the number of decisive games, and the totals add up to twice the number of games |
| Dashboard.ParsePgnStats | fastapi_backend/dashboard.py:21-56 | the loops return the values of the tally over every game of every existing directory, in first-seen order |
| Dashboard.CountFiles | fastapi_backend/dashboard.py:27-55 | the loop over one directory's files extends the tally by that directory's games |
| Dashboard.RecordFile | fastapi_backend/dashboard.py:41-55 | one file's statements apply one game to the table |
| Dashboard.PairCountMeaning | fastapi_backend/dashboard.py:84-99 | for two different players, p1_wins counts p1's wins against p2 with either colour, p2_wins the reverse, total every game between them, and the outcomes fit in the total |
| Dashboard.CountWithinTotal | fastapi_backend/dashboard.py:84-99 | the three outcome counts add up to at most the total |
| Dashboard.MatchupEntriesWellFormed | fastapi_backend/dashboard.py:59-110 | at most one entry per directory, each named "p1 vs p2" with both names non-empty, at least one game, and outcomes within the total |
| Dashboard.ParseMatchupStats | fastapi_backend/dashboard.py:59-110 | the loops return exactly the matchup entries |
| Dashboard.CountDirectory | fastapi_backend/dashboard.py:69-99 | the loop over one directory counts exactly its pair's games |
| Dashboard.CountPairFile | fastapi_backend/dashboard.py:80-99 | one file's statements apply one game to the counts |
| ArenaEngine.ResultLog.constructor | fastapi_backend/arena_engine.py:52 | a results list starts empty |
| ArenaEngine.Database.constructor | fastapi_backend/arena_engine.py:15-32 | the games table starts empty |
| ArenaEngine.PliesAreLegalAndBounded | fastapi_backend/arena_engine.py:82-94 | every simulated ply is legal where it is played, there are at most 60, and the loop stops only at game over, at 60 plies or with no legal move |
| ArenaEngine.PlyChoice | fastapi_backend/arena_engine.py:85-88 | ply k plays the legal move at index k modulo the number of legal moves |
| ArenaEngine.OpeningUsesLastToken | fastapi_backend/arena_engine.py:76-81 | the opening plays the last word of the opening text when it parses, and it is then the game's first move |
| ArenaEngine.StopPoint | fastapi_backend/arena_engine.py:64-67 | the game at which a battle stops lies between the current game and the number of games |
| ArenaEngine.StopPointFirst | fastapi_backend/arena_engine.py:64-67 | no stop request arrives before the stop point, and the battle stops early only when a request arrived at that point or the flag was already set |
| ArenaEngine.StopPointNoRequests | fastapi_backend/arena_engine.py:64-67 | with no stop request every game is played |
| ArenaEngine.BattleRecords | fastapi_backend/arena_engine.py:97-102 | a battle of g games logs g records numbered 1..g with its two models and the (deterministic) result |
| ArenaEngine.BattleRows | fastapi_backend/arena_engine.py:106-116 | a battle of g games saves g identical rows |
| ArenaEngine.ArenaBattle.constructor | fastapi_backend/arena_engine.py:43-60 | a new battle holds its settings, game 0, an empty fresh results list, status playing, no stop request and no board yet |
| ArenaEngine.ArenaBattle.Stop | fastapi_backend/arena_engine.py:119-120 | the stop flag is set |
| ArenaEngine.ArenaBattle.PlayGame | fastapi_backend/arena_engine.py:68-96 | one game is the deterministic play-out of the opening and at most 60 plies; the last board and PGN change only when a ply was played |
| ArenaEngine.ArenaBattle.Simulate | fastapi_backend/arena_engine.py:82-94 | the loop computes exactly the simulated plies and records the last board and PGN after each |
| ArenaEngine.ArenaBattle.RecordGame | fastapi_backend/arena_engine.py:95-116 | one game appends its record, its PGN and its database row, and sets the current game |
| ArenaEngine.ArenaBattle.RunBattle | fastapi_backend/arena_engine.py:63-117 | the battle plays games until a stop arrives or all are played, appends one record, PGN and row per game played, and always ends "finished", overwriting "stopped" |
| ArenaEngine.RowsMembers | fastapi_backend/arena_engine.py:141-142 | the matchups are exactly the ordered pairs of different models |
| ArenaEngine.RowsSorted | fastapi_backend/arena_engine.py:141-142 | the matchups come in lexicographic order of the two indices |
| ArenaEngine.RowsLength | fastapi_backend/arena_engine.py:141-142 | there are n·(n − 1) matchups |
| ArenaEngine.PairingsLabelRows | fastapi_backend/arena_engine.py:141-142 | the list comprehension labels the index pairs with the models' names |
| ArenaEngine.MatchupsCount | fastapi_backend/arena_engine.py:132-142 | the n·(n − 1) matchups are the models at two different indices, and every such pair occurs, matching `total_matches` |
| ArenaEngine.ArenaTournament.constructor | fastapi_backend/arena_engine.py:126-137 | a new tournament holds its models, the opening "1. e4", match 0 of n·(n − 1), and no results or battles |
| ArenaEngine.ArenaTournament.Stop | fastapi_backend/arena_engine.py:156-157 | the stop flag is set |
| ArenaEngine.ArenaTournament.PlayMatchup | fastapi_backend/arena_engine.py:147-152 | one matchup adds a fresh finished battle between the two models, and its records and rows are appended to the tournament's |
| ArenaEngine.ArenaTournament.Advance | fastapi_backend/arena_engine.py:143-153 | one pass of the loop extends the results, rows and battles by the k-th matchup and sets the current match to k + 1 |
| ArenaEngine.ArenaTournament.RunTournament | fastapi_backend/arena_engine.py:140-154 | the tournament plays the matchups in order until a stop arrives, with one finished battle each and their records appended, and always ends "finished" |
| ArenaEngine.BattlePairs | fastapi_backend/arena_engine.py:149 | the battles' colour pairs, in order |
| ArenaEngine.MatchesRun | fastapi_backend/arena_engine.py:143-146 | no more matchups are run than there are |
| ArenaEngine.TournamentRowsTagged | fastapi_backend/arena_engine.py:106-116 | a tournament saves games-per-pair rows per matchup, each tagged with its id and the tournament opening |
| ArenaEngine.Registry.constructor | fastapi_backend/arena_engine.py:36-39 | no battles and no tournaments |
| ArenaEngine.Registry.StartBattle | fastapi_backend/arena_engine.py:162-166 | a fresh finished battle with the given models and opening is registered under its id; the tournaments are unchanged |
| ArenaEngine.Registry.StartTournament | fastapi_backend/arena_engine.py:186-190 | a fresh finished tournament over the models, with n·(n − 1) matches, is registered under its id |
| ArenaEngine.Registry.BattleStatusOf | fastapi_backend/arena_engine.py:169-183 | none exactly for an unknown id; otherwise every field of the battle: its two models, current game, total games, last board, results, last PGN and status |
| ArenaEngine.Registry.TournamentStatusOf | fastapi_backend/arena_engine.py:193-205 | none exactly for an unknown id; otherwise every field of the tournament: its models, games per pair, current match, total matches, results and status |
| ArenaManager.ValidateMove | public/js/chess_arena_manager.js:360-387 | the arbiter returns a legal move or "None", and always a legal move when the cleaned answer is itself legal |
| ArenaManager.ValidateMoveFirst | public/js/chess_arena_manager.js:366-371 | the first legal move, in chess.js order, that the cleaned answer contains is the answer |
| ArenaManager.ValidateMoveMatches | public/js/chess_arena_manager.js:373-386 | with no contained legal move the answer is the first regex match that is legal, or "None" when no match is |
| ArenaManager.OpeningMove | public/js/chess_arena_manager.js:183 | the opening move, when there is one, is a non-empty word without blanks |
| ArenaManager.OpeningMoveOf | public/js/chess_arena_manager.js:183 | the opening move is the second space-separated word |
| ArenaManager.OpeningPlaysOneMove | public/js/chess_arena_manager.js:183 | "1. e4 e5" plays only e4 |
| ArenaManager.AfterOpening | public/js/chess_arena_manager.js:180-202 | the opening adds at most one move to the history |
| ArenaManager.Added | public/js/chess_arena_manager.js:226-275 | a turn adds at most one SAN |
| ArenaManager.LoopBounded | public/js/chess_arena_manager.js:204-282 | the loop makes at most 200 turns, each adding at most one move, and stops only at game over, at the cap or on a break |
| ArenaManager.GameOf | public/js/chess_arena_manager.js:174-330 | the game record names its id and models, and its move count is the length of its move list |
| ArenaManager.GameOfBounded | public/js/chess_arena_manager.js:174-330 | a game holds at most one opening move plus 200 moves, starts with the opening's move when it was played, and ends with one of the four result strings |
| ArenaManager.PlayMoves | public/js/chess_arena_manager.js:207-282 | the loop computes exactly the move sequence `Loop` describes |
| ArenaManager.TakeTurn | public/js/chess_arena_manager.js:208-278 | one pass of the loop body computes exactly one `Turn`, or none where the loop breaks |
| ArenaManager.PlayOpening | public/js/chess_arena_manager.js:180-202 | the opening step computes exactly `AfterOpening` |
| ArenaManager.PlayGameBetweenModels | public/js/chess_arena_manager.js:174-330 | the method returns exactly `GameOf` its inputs |
| ArenaManager.GamesPerOpening | public/js/chess_arena_manager.js:80 | `numGames \|\| 1` is never 0 and keeps any non-zero count |
| ArenaManager.ScheduleLength | public/js/chess_arena_manager.js:108-109 | the nested loops play `openings.length × numGames` games |
| ArenaManager.ScheduleAt | public/js/chess_arena_manager.js:108-109 | game g + 1 of opening o is game o·n + g of the schedule |
| ArenaManager.UpdateBattleStats | public/js/chess_arena_manager.js:389-405 | exactly one tally rises, draws exactly for a result other than "1-0" and "0-1" |
| ArenaManager.RunNumbered | public/js/chess_arena_manager.js:105-145 | after any prefix of the schedule there is one result per game, numbered 1, 2, … and played with its slot's colours and opening |
| ArenaManager.RunCounted | public/js/chess_arena_manager.js:105-145 | for two different models, whiteWins and blackWins count each configured model's wins with either colour, draws the rest, and the three add up to the number of results |
| ArenaManager.BattleLength | public/js/chess_arena_manager.js:105-172 | a whole battle has `openings.length × numGames` results, so the progress ends at 100 % |
| ArenaManager.BattleGameAt | public/js/chess_arena_manager.js:108-129 | game g + 1 of opening o is result o·n + g with that opening and number, and the configured white model had White exactly on odd game numbers |
| ArenaManager.Battle.constructor | public/js/chess_arena_manager.js:76-90 | a new battle is running with `numGames \|\| 1` games per opening, the default openings when none are given, and empty tallies |
| ArenaManager.BattleGame | public/js/chess_arena_manager.js:116-138 | one game is played, pushed and counted as the next step of the schedule |
| ArenaManager.UpdateStats | public/js/chess_arena_manager.js:389-405 | the battle's tallies become `UpdateBattleStats` of the old ones |
| ArenaManager.RunBattle | public/js/chess_arena_manager.js:105-172 | the battle's state is the run of its whole schedule and its status is "completed" |
| ArenaManager.PlayOpeningGames | public/js/chess_arena_manager.js:109-160 | the inner loop extends the run by one opening's row of games |
| ArenaManager.PlaySlot | public/js/chess_arena_manager.js:110-159 | game gameNum extends the run by one slot |
| ArenaManager.ChessArenaManager.constructor | public/js/chess_arena_manager.js:3-19 | no battles and no current battle |
| ArenaManager.ChessArenaManager.StartBattle | public/js/chess_arena_manager.js:73-103 | a fresh battle registered under its id and made current, run to completion |
| DataRoutes.FromJson | routes/data.js:173-181 | a saved game keeps its id, players and result; moves are `totalMoves` when truthy, else the move list's length, else 0; the date is the end time, else the start time, else now; the duration is the saved one or 0 |
| DataRoutes.DotsToDashes | routes/data.js:219 | every '.' of the date becomes '-' and nothing else changes |
| DataRoutes.PgnDate | routes/data.js:218-220 | a date is read exactly when the Date header is truthy, with its dots replaced |
| DataRoutes.FromPgn | routes/data.js:217-231 | a PGN game is listed exactly when White, Black and Result are truthy and the date converts, with id "dir/file", its header values, its move count and duration 0 |
| DataRoutes.JsonEntries | routes/data.js:167-185 | at most one entry per JSON file |
| DataRoutes.PgnEntries | routes/data.js:206-235 | at most one entry per PGN file |
| DataRoutes.PgnEntriesIds | routes/data.js:223 | every PGN entry's id starts with its directory and a slash |
| DataRoutes.DirEntriesFromMatchupDirs | routes/data.js:194-239 | every PGN entry comes from a directory whose name contains " vs " |
| DataRoutes.Seeds | routes/data.js:43-53 | the six known models are seeded at zero |
| DataRoutes.Games | routes/data.js:55-79 | each listed game is read as its white, black and result |
| DataRoutes.PlayedRows | routes/data.js:82-94 | exactly the entries with a positive total become rows |
| DataRoutes.ModelTableCounted | routes/data.js:51-79 | after all games, every entry is named after its key and counts that model's games, wins, losses and draws, and every model that played has an entry |
| DataRoutes.ModelStatsMeaning | routes/data.js:37-100 | the rows are in descending win rate, each belongs to a model that played and counts its games exactly, and every model that played has a row |
| DataRoutes.GetModelStats | routes/data.js:37-100 | the loops return exactly `ModelStats` |
| DataRoutes.SeedKnown | routes/data.js:51-53 | the seeding loop builds exactly `Seeds` of the known models |
| DataRoutes.CountGames | routes/data.js:55-79 | the `forEach` over the games builds exactly the tallied table |
| DataRoutes.AddMatchup | routes/data.js:121-144 | one game adds its key "white vs black" and changes no other entry |
| DataRoutes.MatchupTableMeaning | routes/data.js:119-144 | every matchup entry is keyed by its name, counts the games with that key, and counts "1-0" as p1's wins, "0-1" as p2's and everything else as draws |
| DataRoutes.AddMatchupMeaning | routes/data.js:121-144 | adding the last game keeps every entry described by the games |
| DataRoutes.MatchupStatsMeaning | routes/data.js:146-149 | at most 10 entries, busiest first, each consistent and counting its key's games |
| DataRoutes.GetMatchupStats | routes/data.js:116-154 | the loops return exactly `MatchupStats` |
| DataRoutes.CountMatchups | routes/data.js:121-144 | the loop builds exactly the matchup table |
| DataRoutes.CountMatchupGame | routes/data.js:122-143 | one pass adds one game |
| DataRoutes.FilterPlayed | routes/data.js:147 | the `total > 0` filter keeps every entry, since each has a positive total |
| DataRoutes.RecentGames | routes/data.js:103-113 | at most 20 games |
| DataRoutes.RecentGamesMeaning | routes/data.js:106-108 | the recent games are newest first and drawn from the games, all of them when there are at most 20 |
| DataRoutes.DashboardUndercounts | routes/data.js:16 | as written, with 21 games the dashboard reports 20 games |
| DataRoutes.DashboardData | routes/data.js:8-34 | the corrected dashboard reports the number of all games, at most 10 recent games and at most 10 matchups |
| Settings.MergeDeep | routes/settings.js:534-550 | the merge is always a plain object |
| Settings.MergeFieldsGet | routes/settings.js:537-547 | after the loop over the source's keys, a key the source holds gets the merged value (a plain object is merged recursively into the old value or `{}`, anything else replaces it) and every other key keeps the target's value |
| Settings.MergeFieldsKeys | routes/settings.js:535-547 | the merge holds exactly the target's keys and the source's keys |
| Settings.MergeDeepGet | routes/settings.js:534-550 | each key of `mergeDeep(target, source)` is the merged value where the source has the key and the target's value elsewhere, and the keys are those of either side |
| Settings.MergeDeepEmpty | routes/settings.js:534-550 | merging an empty object gives a copy of the target |
| Settings.CheckUpdateRanges | routes/settings.js:107-144 | an update is accepted exactly when none of the temperature, the maximum tokens and the Stockfish depth converts, as JavaScript's `<` and `>` convert it, to a number outside 0-2, 1-4000 and 1-30. Text such as "3" or "" and arrays such as `[5]` are converted, and NaN passes. The errors are reported in the order temperature, tokens, depth, each with its own message |
| Settings.AcceptedTemperature | routes/settings.js:107-146 | after an accepted update the stored temperature does not convert to a number outside 0-2 (a string "3" cannot be stored), and it equals the one sent unless that was an object |
| Settings.StoredSection | routes/settings.js:146 | a section the update sends is stored as that section merged into the old one |
| Settings.ValidateSettings | routes/settings.js:552-572 | the validated settings are a plain object |
| Settings.ValidatedRanges | routes/settings.js:552-572 | after validation neither the temperature nor the maximum tokens converts to a number outside 0-2 or 1-4000, with text converted as JavaScript converts it (so "3" is reset). Values already in range and every other field are kept, and only `modelParams` is touched |
| Settings.TextRangesChecked | routes/settings.js:108-131 | the text of an integer temperature is accepted exactly when the integer lies in 0-2. Blank text or an empty array sent as the maximum tokens reads as 0 and is refused |
| Settings.TemperatureChecked | routes/settings.js:108-118 | a temperature sent alone is refused with its message exactly when it converts to a number outside 0-2 |
| Settings.TokensChecked | routes/settings.js:120-131 | a maximum-tokens value sent alone is refused with its message exactly when it converts to a number outside 1-4000 |
| Settings.TextTemperatureReset | routes/settings.js:556-562 | `validateSettings` resets the text of an integer temperature outside 0-2 to 0.1 |
| Settings.TemperatureReset | routes/settings.js:556-562 | any temperature that converts to a number outside 0-2 is reset to 0.1 |
| Json.TextComparesAsNumber | routes/settings.js:110-113 | in `<` and `>`, the text of an integer compares as the integer and blank text as 0 (like `[]`). A one-element array compares as its string or number element |
| Json.CommaIsNaN | routes/settings.js:110-113 | an array of two or more elements, and any text holding a comma, compares as NaN, so neither comparison is true |
| NumberText.BlankIsZero | routes/settings.js:110-113 | blank text converts to 0 |
| NumberText.NatTextReadsBack | routes/settings.js:110-113 | the decimal text of a natural number converts back to that number |
| NumberText.IntTextReadsBack | routes/settings.js:110-113 | the decimal text of an integer, with its minus sign, converts back to that integer |
| NumberText.ForeignCharIsNaN | routes/settings.js:110-113 | trimmed text holding a character that no numeric literal has converts to NaN |
| NumberText.RadixTenAgrees | routes/settings.js:110-113 | the base-n digit reader used for `0x`, `0o` and `0b` literals agrees with the decimal reader in base ten |
| Settings.CheckKeysResult | routes/settings.js:227-288 | the keys are checked in order and the first badly prefixed one is refused with its own message; with no refusal the reply lists the accepted keys, or refuses when no key was given |
| Settings.UntrimmedPrefix | routes/settings.js:234-243 | the prefix is tested on the untrimmed key, so any non-blank OpenAI key that starts with whitespace, such as " sk-abc", is refused with the OpenAI message |
| Settings.ResetDropsSecurity | routes/settings.js:165-210 | the reset restores every default section but leaves out `security`, which the initial settings hold |
| Settings.SettingsStore.constructor | routes/settings.js:7-51 | the store starts with the initial settings |
| Settings.SettingsStore.Update | routes/settings.js:103-162 | a refused update answers 400 with the range error of `CheckUpdate`, which converts text and arrays as JavaScript does, and keeps the settings. An accepted one stores the deep merge and returns it |
| Settings.SettingsStore.Reset | routes/settings.js:165-221 | the settings become the reset defaults and are returned |
| Settings.SettingsStore.Import | routes/settings.js:503-531 | a body without truthy `settings` is refused with "Invalid settings file format" and keeps the settings. Otherwise the validated settings are stored and returned, so an imported temperature "3" is reset |
| GameAnalysis.Tokens | public/js/advanced_game_analysis.js:354-374 | each word of the info line is read as one token |
| GameAnalysis.ApplyOther | public/js/advanced_game_analysis.js:356-374 | a word that is not a given keyword leaves that field as it was |
| GameAnalysis.ApplyWrites | public/js/advanced_game_analysis.js:356-374 | a keyword word sets its field from what follows it (the next word's integer, the centipawns over 100, or the rest of the line for `pv`) |
| GameAnalysis.LastKeywordWins | public/js/advanced_game_analysis.js:356-374 | when a keyword occurs several times, the field holds what its last occurrence wrote |
| GameAnalysis.AbsentKeyword | public/js/advanced_game_analysis.js:353-376 | a keyword that never occurs leaves its field unset |
| GameAnalysis.Switch | public/js/advanced_game_analysis.js:357-373 | one pass of the `switch` on word i moves the parse from i words to i + 1 |
| GameAnalysis.ParseStockfishInfo | public/js/advanced_game_analysis.js:352-377 | the parse of a line split on spaces is the fold of all its words |
| GameAnalysis.ParseParts | public/js/advanced_game_analysis.js:356-374 | the loop over the words gives the fold of all of them |
| GameAnalysis.CentipawnBands | public/js/advanced_game_analysis.js:413-421 | a centipawn score maps to excellent, good, inaccuracy, mistake or blunder at the 10, 30, 60 and 100 thresholds, and a larger score is never a milder band |
| GameAnalysis.ClassifyCases | public/js/advanced_game_analysis.js:402-422 | no move or no best line is unknown, the engine's first move is best, anything else is classified, and a missing evaluation counts as 0, so excellent |
| GameAnalysis.AccuracyOrder | public/js/advanced_game_analysis.js:490-501 | each accuracy lies between 0.2 and 1, a milder classification always weighs more, and unknown weighs the same as a missing label |
| GameAnalysis.CountStep | public/js/advanced_game_analysis.js:431-481 | one analysed move adds one move to one side, keeps the sums in range, and adds one entry to exactly the list of its classification |
| GameAnalysis.TallyFacts | public/js/advanced_game_analysis.js:431-481 | after n moves the sides' move counts add up to the analysed moves, and the blunder, mistake and inaccuracy lists are as long as the moves with that label |
| GameAnalysis.AccuracyPercent | public/js/advanced_game_analysis.js:484-485 | each side's accuracy lies between 0 and 100, and is at least 20 when that side has an analysed move |
| GameAnalysis.PercentBounds | public/js/advanced_game_analysis.js:484-485 | a sum of per-move accuracies between 0.2 and 1 each gives a percentage between 20 and 100 |
| GameAnalysis.CalculateGameStatistics | public/js/advanced_game_analysis.js:424-488 | the `forEach` returns the statistics of the full tally |
| GameAnalysis.Analysis.constructor | public/js/advanced_game_analysis.js:3-16 | no game is loaded, no analysis runs and the position is the start |
| GameAnalysis.Analysis.GoToMove | public/js/advanced_game_analysis.js:503-533 | the position is clamped to the game's moves and nothing else changes |
| GameAnalysis.Analysis.KeyDown | public/js/advanced_game_analysis.js:947-968 | while typing, or for other keys, nothing moves; left and right step by one within the game, Home goes to the start and End past the last move |
| GameAnalysis.Analysis.StartFullAnalysis | public/js/advanced_game_analysis.js:243-298 | without a game nothing starts; a running analysis is not restarted; otherwise every position up to a stop request is analysed and the analysis ends not running |
| GameAnalysis.Analysis.StopAnalysis | public/js/advanced_game_analysis.js:841-845 | the analysis stops and the game and position are kept |
| TournamentKnockout.ShufflePermutes | public/js/advanced_tournament_system.js:757-762 | the shuffle keeps the length and rearranges the same participants |
| TournamentKnockout.ShuffleFromPermutes | public/js/advanced_tournament_system.js:758-761 | each pass of the swapping loop rearranges the array without losing or adding anyone |
| TournamentKnockout.ShuffleStep | public/js/advanced_tournament_system.js:758-761 | one pass swaps position i with a drawn position j ≤ i and goes on at i - 1 |
| TournamentKnockout.ShuffleArray | public/js/advanced_tournament_system.js:757-762 | the in-place loop leaves the array as the shuffle of its old contents |
| TournamentKnockout.ShuffledCopy | public/js/advanced_tournament_system.js:726-727 | shuffling a copy gives the shuffle of the list |
| TournamentKnockout.Advancing | public/js/advanced_tournament_system.js:679-701 | half the field, rounded up, goes on to the next round |
| TournamentKnockout.PairUp | public/js/advanced_tournament_system.js:679-701 | the inner loop pairs neighbours 2i and 2i + 1 and sends on the first of each pair plus the odd one out |
| TournamentKnockout.GenerateEliminationPairings | public/js/advanced_tournament_system.js:667-709 | the `while` loop builds exactly the knockout rounds from round 1 |
| TournamentKnockout.KnockoutCons | public/js/advanced_tournament_system.js:672-706 | a round with more than one player shuffles them, pairs the shuffle and goes on with those advancing |
| TournamentKnockout.KnockoutLength | public/js/advanced_tournament_system.js:672-706 | there are ⌈log2 n⌉ rounds for n participants |
| TournamentKnockout.KnockoutRoundSize | public/js/advanced_tournament_system.js:679-692 | round r holds half its field, rounded down, times the games per pairing |
| TournamentKnockout.KnockoutTotal | public/js/advanced_tournament_system.js:667-709 | a knockout of n participants plays (n - 1) pairings of the given number of games |
| TournamentKnockout.KnockRoundSource | public/js/advanced_tournament_system.js:679-692 | every game of a round comes from one neighbouring pair |
| TournamentKnockout.KnockoutGame | public/js/advanced_tournament_system.js:683-691 | every game pairs two of the original participants, is marked elimination and carries its round number |
| TournamentKnockout.KnockRoundGame | public/js/advanced_tournament_system.js:683-691 | every game of a round pairs two players of that round |
| TournamentKnockout.AdvancingFrom | public/js/advanced_tournament_system.js:695-701 | only players of a round advance from it |
| TournamentPairings.Games | public/js/advanced_tournament_system.js:594-602 | a pairing plays exactly the given number of games |
| TournamentPairings.GamesAt | public/js/advanced_tournament_system.js:594-602 | game k puts the first player on white when k is even and the second otherwise, and is numbered k + 1 |
| TournamentPairings.GamesPlayers | public/js/advanced_tournament_system.js:594-602 | every game of a pairing is between its two players and carries its round |
| TournamentPairings.PushGames | public/js/advanced_tournament_system.js:594-602 | the game loop appends exactly the pairing's games |
| TournamentPairings.Padded | public/js/advanced_tournament_system.js:579-582 | an odd field gets one "BYE", so the field is even and grows by at most one |
| TournamentPairings.RoundRobin | public/js/advanced_tournament_system.js:575-614 | an empty field has no rounds, any other has one round fewer than its padded size |
| TournamentPairings.GenerateRoundRobinPairings | public/js/advanced_tournament_system.js:575-614 | the nested loops build exactly the round-robin rounds |
| TournamentPairings.RoundRobinRound | public/js/advanced_tournament_system.js:587-610 | one pass of the round loop adds the round of the current arrangement and rotates it |
| TournamentPairings.PairRound | public/js/advanced_tournament_system.js:589-604 | the inner loop pairs seat i with seat n - 1 - i over the first half, skipping a "BYE" |
| TournamentPairings.PushMeeting | public/js/advanced_tournament_system.js:590-603 | one seat appends the games of its meeting, or nothing when a "BYE" is involved |
| TournamentPairings.RotateSplice | public/js/advanced_tournament_system.js:608-610 | popping the last seat and splicing it in at 1 is the rotation |
| TournamentPairings.ArrangementFixesFirst | public/js/advanced_tournament_system.js:608-610 | the rotation never moves the first participant |
| TournamentPairings.ArrangementAt | public/js/advanced_tournament_system.js:608-610 | after r rotations every other participant sits at its seat shifted by r around the circle |
| TournamentPairings.ArrangementIndex | public/js/advanced_tournament_system.js:608-610 | with distinct participants, a participant sits at seat k after r rotations exactly when k is its computed position |
| TournamentPairings.ArrangementDistinct | public/js/advanced_tournament_system.js:608-610 | rotating keeps the participants distinct |
| TournamentPairings.PaddedAt | public/js/advanced_tournament_system.js:580-582 | the padded field is the field with "BYE" at the end when odd |
| TournamentPairings.PaddedDistinct | public/js/advanced_tournament_system.js:580-582 | padding distinct participants without a "BYE" keeps them distinct |
| TournamentPairings.MeetAtIff | public/js/advanced_tournament_system.js:586-611 | two seats face each other in round r exactly when r is their meeting round |
| TournamentPairings.MeetingMember | public/js/advanced_tournament_system.js:590-603 | a game of a meeting is between seat i and its mirror seat, neither of them "BYE", in that round |
| TournamentPairings.RoundPairsSource | public/js/advanced_tournament_system.js:589-604 | every game of a round comes from one seat's meeting |
| TournamentPairings.RoundPairsInclude | public/js/advanced_tournament_system.js:589-604 | every game of every meeting is in the round |
| TournamentPairings.RoundRobinMeetsOnce | public/js/advanced_tournament_system.js:575-614 | with distinct participants and at least one game per pairing, any two players meet in exactly one round |
| TournamentPairings.RoundRobinOneOpponent | public/js/advanced_tournament_system.js:586-611 | within one round a player meets a single opponent |
| TournamentPairings.RoundRobinNoBye | public/js/advanced_tournament_system.js:593-601 | no game involves "BYE", and round r's games are numbered r + 1 |
| TournamentPairings.RoundOfCount | public/js/advanced_tournament_system.js:589-604 | each round holds half the padded field, less one pairing when a "BYE" sits in it, times the games per pairing |
| TournamentPairings.RoundRobinTotal | public/js/advanced_tournament_system.js:575-614 | the whole round-robin plays n(n - 1)/2 pairings of the given number of games |
| TournamentPairings.TotalGamesConst | public/js/advanced_tournament_system.js:586-611 | rounds of equal size hold rounds times that size games |
| TournamentSchedule.Batches | public/js/advanced_tournament_system.js:795-808 | the batches concatenate back to the round's pairings, every batch but the last is full, none is empty or over the limit, and there are ⌈games / concurrent⌉ of them |
| TournamentSchedule.EstimateTime | public/js/advanced_tournament_system.js:419-463 | fewer than two participants get the message instead of an estimate; otherwise the time is the least whole number of minutes covering all games at 15 minutes over the concurrent slots, shown as hours and minutes under 60 |
| TournamentSchedule.EstimateMatchesKnockout | public/js/advanced_tournament_system.js:443-446 | the elimination estimate gives exactly the games and rounds the knockout pairings produce |
| TournamentSchedule.EstimateVsRoundRobin | public/js/advanced_tournament_system.js:434-437 | the round-robin estimate counts twice the games the round-robin pairings produce, and one round too few for an odd field |
| TournamentSchedule.RoundRobinFigures | public/js/advanced_tournament_system.js:434-437 | the round-robin estimate is n(n - 1) times the games per pairing over n - 1 rounds |
| TournamentSwiss.CeilLog2Bounds | public/js/advanced_tournament_system.js:621 | the number of Swiss rounds is the least k with n ≤ 2^k |
| TournamentSwiss.HavePlayedBefore | public/js/advanced_tournament_system.js:745-755 | the loops answer true exactly when some earlier game was between the two players, in either colour |
| TournamentSwiss.FindOpponent | public/js/advanced_tournament_system.js:638-658 | the inner loop stops at the first later player who is unpaired and has not met player i, and everyone it skipped is paired or has met them |
| TournamentSwiss.SwissRound | public/js/advanced_tournament_system.js:624-661 | a round pairs only participants, each at most once, never two who met before, and numbers its games with the round; with at least one game per pairing, any two different entrants it leaves idle have met before, and a first round of an even field of different entrants leaves nobody idle |
| TournamentSwiss.GenerateSwissPairings | public/js/advanced_tournament_system.js:616-665 | there are ⌈log2 n⌉ rounds, each of them sound and, with at least one game per pairing, maximal given the rounds before it; for an even field of different entrants the first round pairs everyone |
| TournamentSwiss.GreedyMaximal | public/js/advanced_tournament_system.js:633-658 | once the loop has passed every position, or has paired all but one entrant, two different idle entrants have met before |
| TournamentSwiss.FirstRoundPairsAll | public/js/advanced_tournament_system.js:633-658 | with no earlier rounds, a maximal round of an even field of different entrants gives every entrant a game |
| TournamentSwiss.IdleCount | public/js/advanced_tournament_system.js:633-658 | an idle entrant in such a first round would make the field odd: all the others are paired, two per pair |
| TournamentSwiss.GreedySwissSnoc | public/js/advanced_tournament_system.js:623-662 | appending a maximal round keeps every round maximal |
| TournamentSwiss.ChosenSound | public/js/advanced_tournament_system.js:643-655 | the games of pairs chosen that way make a sound round |
| TournamentSwiss.SoundSwissSnoc | public/js/advanced_tournament_system.js:623-662 | appending a sound round keeps the schedule sound |
| TournamentSwiss.SwissNoRepeat | public/js/advanced_tournament_system.js:642-643 | no two players meet in two different Swiss rounds |
| TournamentSwiss.SamePair | public/js/advanced_tournament_system.js:632-657 | in one round two games that share a player are between the same two players |
| TournamentStandings.TallyCounts | public/js/advanced_tournament_system.js:869-889 | a game adds one game to the row and the points its result earns, raises exactly one of wins, draws and losses for a known result and none for any other, and leaves the rating |
| TournamentStandings.Find | public/js/advanced_tournament_system.js:864-865 | `find` returns the first row of that participant, and nothing exactly when none has the name |
| TournamentStandings.UpdateTotals | public/js/advanced_tournament_system.js:863-893 | a game between two listed players adds two games to the table and one point when decided (half each for a draw); a game with an unlisted player changes neither total |
| TournamentStandings.PlayAllStep | public/js/advanced_tournament_system.js:849-861 | completing one more game applies its update to the table so far |
| TournamentStandings.PlayAllTotals | public/js/advanced_tournament_system.js:849-893 | after a list of games the table holds two games per counted game and one point per decided one |
| TournamentStandings.PlayRoundsStep | public/js/advanced_tournament_system.js:913-928 | each completed round applies its games to the table after the earlier rounds |
| TournamentStandings.PlayRoundsTotals | public/js/advanced_tournament_system.js:764-928 | after all rounds the table holds two games per counted game and one point per decided game |
| TournamentStandings.InsertRanked | public/js/advanced_tournament_system.js:938-942 | inserting a row into the ranking adds exactly that row |
| TournamentStandings.Ranked | public/js/advanced_tournament_system.js:938-942 | the ranking is a rearrangement of the rows |
| TournamentStandings.NotOutrankedTransitive | public/js/advanced_tournament_system.js:938-942 | with numeric ratings the comparison by points, then Buchholz, then rating is transitive |
| TournamentStandings.InsertRankedOrder | public/js/advanced_tournament_system.js:938-942 | inserting a row with a numeric rating into an ordered ranking keeps it ordered |
| TournamentStandings.RankedSorted | public/js/advanced_tournament_system.js:938-942 | with numeric ratings, the ranking is ordered by points, then Buchholz, then rating, and holds the same rows |
| TournamentStandings.RankedObjects | public/js/advanced_tournament_system.js:938-942 | sorting the standings keeps the same standings, and orders them whenever every rating is a number |
| TournamentStandings.Standing.constructor | public/js/advanced_tournament_system.js:540-553 | a new standing has its participant, no games or points and a 1500 rating |
| TournamentStandings.UpdateEloRatings | public/js/advanced_tournament_system.js:895-911 | the two ratings become the rounded Elo update of the old ones, the black one written last, and nothing else in the rows changes |
| TournamentStandings.TallyGame | public/js/advanced_tournament_system.js:869-889 | white's row and black's row each take the tally for their side, both tallies landing on one row when a player meets themself |
| TournamentStandings.PlayGame | public/js/advanced_tournament_system.js:869-892 | the two rows become the tally followed by the rating update |
| TournamentStandings.Tournament.constructor | public/js/advanced_tournament_system.js:505-518 | a created tournament has its participants' initial standings, its pairings, round 0 and status "created" |
| TournamentStandings.Tournament.UpdateStandings | public/js/advanced_tournament_system.js:863-893 | the table becomes the update for the game, and nothing happens when either player has no standing |
| TournamentStandings.Tournament.ApplyGame | public/js/advanced_tournament_system.js:869-892 | the standings of the two players are played against each other |
| TournamentStandings.Tournament.PlayBatch | public/js/advanced_tournament_system.js:799-802 | a batch applies its games one after another, in pairing order |
| TournamentStandings.Tournament.StartRound | public/js/advanced_tournament_system.js:787-812 | a round past the last changes nothing; otherwise all its games are applied, batch by batch |
| TournamentStandings.Tournament.CompleteTournament | public/js/advanced_tournament_system.js:930-951 | the status becomes "completed" and the standings are the ranking of the old ones: the same standings, ordered whenever every rating is a number |
| TournamentStandings.Tournament.PlayAllRounds | public/js/advanced_tournament_system.js:911-928 | the rounds are applied one after another |
| TournamentStandings.Tournament.StartTournament | public/js/advanced_tournament_system.js:764-785 | the tournament runs from round 1; with no rounds it stays "running", otherwise it ends "completed" with every round's games applied and the standings ranked |
| LichessRag.NonBlankKeeps | public/js/enhanced_lichess_api.js:502-503 | a line is parsed exactly when it is one of the lines and is not blank |
| LichessRag.NonBlankAppend | public/js/enhanced_lichess_api.js:502-510 | dropping blank lines distributes over concatenation |
| LichessRag.SplitAppend | public/js/enhanced_lichess_api.js:498-500 | splitting a text on newlines after appending a chunk joins the last piece of the first split with the first piece of the second |
| LichessRag.ChunkSplit | public/js/enhanced_lichess_api.js:497-500 | keeping the last piece as the buffer and splitting buffer plus chunk gives the same complete lines as splitting everything received |
| LichessRag.LineGames | public/js/enhanced_lichess_api.js:503-509 | a line yields at most one game, and a line that fails to parse yields none |
| LichessRag.ParseNonBlankSnoc | public/js/enhanced_lichess_api.js:502-510 | handling one more line appends that line's game, if any |
| LichessRag.PushGames | public/js/enhanced_lichess_api.js:502-510 | the `forEach` appends the games of the non-blank lines in order |
| LichessRag.NdjsonStream.constructor | public/js/enhanced_lichess_api.js:494-495 | a stream starts with no games and an empty buffer |
| LichessRag.NdjsonStream.OnData | public/js/enhanced_lichess_api.js:497-511 | a chunk is added to what was received, with the complete lines parsed and the incomplete one buffered |
| LichessRag.NdjsonStream.OnEnd | public/js/enhanced_lichess_api.js:513-522 | at the end the games are those of every non-blank line of everything received, in order |
| LichessRag.ParseNdjsonStream | public/js/enhanced_lichess_api.js:492-526 | however the text is cut into chunks, the games are those of the non-blank lines of the whole text |
| LichessRag.HandedLines | public/js/enhanced_lichess_api.js:499-516 | the lines parsed are exactly the non-blank newline-separated lines, and none contains a newline |
| LichessRag.Wait | public/js/enhanced_lichess_api.js:26-31 | the wait is 1000 ms minus the time since the last call when that is under a second, else none, so calls are at least a second apart |
| LichessRag.RateLimiter.constructor | public/js/enhanced_lichess_api.js:10-21 | no endpoint has been called |
| LichessRag.RateLimiter.CheckRateLimit | public/js/enhanced_lichess_api.js:24-34 | the call waits as long as the last call of that endpoint (0 when none) requires, then records the time after waiting for it alone |
| LichessRag.DetermineGamePhase | public/js/enhanced_lichess_api.js:215-222 | moves up to 15 are the opening; later, 12 or fewer pieces is the endgame and more is the middlegame |
| LichessRag.MovesOf | public/js/enhanced_lichess_api.js:130 | a truthy move text splits on spaces into words without spaces, and a missing one gives no moves |
| LichessRag.EntryForShaped | public/js/enhanced_lichess_api.js:158-186 | an entry records the position before the move, the move and its number and colour, the phase after it, the three moves before and after it, and the analysis of that ply when there is one |
| LichessRag.MovedIndices | public/js/enhanced_lichess_api.js:149-194 | the moves that produce entries are increasing positions of the move list |
| LichessRag.WalkShape | public/js/enhanced_lichess_api.js:149-194 | each entry is shaped from its own move's position in the list |
| LichessRag.WalkAcceptsAll | public/js/enhanced_lichess_api.js:149-194 | when every move is accepted, there is one entry per move, in order |
| LichessRag.ProcessGameForRag | public/js/enhanced_lichess_api.js:128-202 | the move count is the number of words, and the entries are those of the walk, stopping at the first move that throws and skipping a move that is refused |
| LichessRag.GroupAllLookup | public/js/enhanced_lichess_api.js:269-296 | after grouping, each key holds its old entries followed by the new matching ones, and a key exists exactly when it existed or gained an entry |
| LichessRag.GroupAllKeys | public/js/enhanced_lichess_api.js:273-294 | grouping keeps the old keys and records each key once |
| LichessRag.TacticalKeyShape | public/js/enhanced_lichess_api.js:280-281 | a move is a tactical motif exactly when it captures, checks or mates, keyed "piece_capture" for a capture and "piece_tactic" otherwise |
| LichessRag.SplitFirstIsPrefix | public/js/enhanced_lichess_api.js:290 | the endgame key is the placement field: the part of the position before its first space |
| LichessRag.RagKnowledge.constructor | public/js/enhanced_lichess_api.js:10-21 | the three knowledge maps start empty |
| LichessRag.RagKnowledge.UpdateRagKnowledge | public/js/enhanced_lichess_api.js:266-311 | each map gains the entries with its key, and the reply gives the three map sizes |
| LichessRag.RagKnowledge.FindRelevantOpenings | public/js/enhanced_lichess_api.js:368-389 | the reply is the first three openings by descending frequency among those with a relevant entry |
| LichessRag.RelevantEntries | public/js/enhanced_lichess_api.js:373-376 | the relevant entries are those whose move is in the history or whose earlier moves share a move with it |
| LichessRag.Dedupe | public/js/enhanced_lichess_api.js:379 | the `Set` keeps each move once and loses none |
| LichessRag.HintFor | public/js/enhanced_lichess_api.js:373-385 | an opening is listed exactly when it has a relevant entry, with at most five distinct moves all played in relevant entries and its count of relevant entries |
| LichessRag.HintsMembers | public/js/enhanced_lichess_api.js:371-386 | a hint is listed exactly for an opening key whose hint it is |
| LichessRag.TopThree | public/js/enhanced_lichess_api.js:388 | at most three hints, in descending frequency, all listed, and none left out has a higher frequency than one kept |
| LichessRag.Upper | public/js/enhanced_lichess_api.js:403 | the upper-case text keeps the length and upper-cases each letter |
| LichessRag.AsWrittenMisreadsFlags | public/js/enhanced_lichess_api.js:407-419 | as written, a plain capture (flag "c") is also reported as a check, and a checkmate is never reported |
| LichessRag.MovePatternsCorrect | public/js/enhanced_lichess_api.js:399-420 | corrected: a move reports a capture exactly when it captures, a check exactly when its SAN has '+', and a checkmate exactly when it has '#' |
| LichessRag.PatternsOfMembers | public/js/enhanced_lichess_api.js:399-420 | every reported pattern comes from one of the moves |
| LichessRag.FindTacticalPatternsAsWritten | public/js/enhanced_lichess_api.js:392-423 | at most three patterns |
| LichessRag.FindTacticalPatterns | public/js/enhanced_lichess_api.js:392-423 | at most three patterns |
| LichessRag.FindTacticalPatternsSound | public/js/enhanced_lichess_api.js:392-423 | every pattern comes from a legal move, and all patterns are kept when there are fewer than three |
| LichessRag.HttpTextStatus | public/js/enhanced_lichess_api.js:550 | the HTTP message starts with "HTTP " and its status reads back |
| LichessRag.HttpTextDetail | public/js/enhanced_lichess_api.js:550 | the HTTP message ends with ": " and the detail |
| LichessRag.ParseErrorHttp | public/js/enhanced_lichess_api.js:549-550 | with a response, the message gives its status and the server's error, or the error's own message when that is missing |
| LichessRag.ParseErrorNoResponse | public/js/enhanced_lichess_api.js:551-555 | without a response, ECONNABORTED gives the timeout text, otherwise the error's message, or the unknown-error text when it has none |
| Api.CacheKeySeparatesUrls | public/js/api.js:28-30 | for the same method and body, two requests share a cache key exactly when their URLs are equal |
| Api.ConfigHeadersReplaced | public/js/api.js:18-25 | because `...options` comes after the merged headers, headers passed by the caller replace the default ones entirely, so "Content-Type" is sent only when the caller passes no headers or passes it |
| Api.QueryString | public/js/api.js:89 | the query string is empty exactly when there are no parameters |
| Api.GetUrlShape | public/js/api.js:88-92 | the URL of `get` is the endpoint, followed by '?' and the query only when there are parameters |
| Api.CacheRoundTrip | public/js/api.js:120-138 | a stored entry is returned while at most five minutes old and removed on lookup after that; storing or looking up one key never changes another key's lookup |
| Api.RetryFrom | public/js/api.js:42-83 | a request fetches between once and three times and sleeps once fewer |
| Api.RetryFromMeaning | public/js/api.js:42-85 | the outcome is that of the last fetch, every earlier fetch failed without a 4xx status, a failure is returned only on a 4xx or after the last attempt, and sleep k lasts 1000·2^k ms |
| Api.RetryStep | public/js/api.js:54-82 | a success, a 4xx or the last attempt ends the loop with no sleep; any other failure sleeps 1000·2^attempt ms and tries again |
| Api.RetryLoop | public/js/api.js:42-85 | the `for` loop returns the outcome and sleeps of the retries |
| Api.ClientErrorStopsAtOnce | public/js/api.js:73-76 | a 4xx on the first attempt is returned after one fetch and no sleep |
| Api.AllAttemptsFail | public/js/api.js:42-85 | when every attempt fails with a non-4xx error the request fetches three times, sleeps 1000 and 2000 ms and fails with the third error |
| Api.ApiManager.constructor | public/js/api.js:4-13 | the cache starts empty |
| Api.ApiManager.SetCache | public/js/api.js:120-125 | the key now holds the data with the current time, and no other key changes |
| Api.ApiManager.GetFromCache | public/js/api.js:127-138 | the reply is the lookup and an expired entry is removed |
| Api.ApiManager.ClearCache | public/js/api.js:140-142 | the cache becomes empty |
| Api.ApiManager.Request | public/js/api.js:16-86 | a GET with a truthy unexpired cached value answers from the cache without fetching; otherwise the outcome and sleeps are those of the retries, and a successful GET is cached under its key |
| Api.SmartResultSource | public/js/api.js:486-510 | online and not switching gives the real reply; offline or after a status-0 or 5xx error the fallback answers when it has the method; otherwise the real error stands, or offline a 503 |
| Api.OnlineAfterCalls | public/js/api.js:486-510 | once offline the API stays offline, and it stays online exactly while no call fails with status 0 or 5xx |
| Api.SmartApi.constructor | public/js/api.js:480-484 | the smart API starts online |
| Api.SmartApi.Request | public/js/api.js:486-510 | the reply is chosen as above and a status-0 or 5xx error switches to the fallback |
| Api.SmartApi.Reconnect | public/js/api.js:575-585 | the reply is whether the health check passed, and a passing check goes back online while a failing one changes nothing |
| Api.SliceEnd | public/js/api.js:362 | `slice(0, limit)` ends at the limit capped at the length, and a negative limit counts from the end |
| Api.FallbackRecentGamesPrefix | public/js/api.js:361-363 | the fallback's recent games are a prefix of its games, ten by default, as many as the limit allows |
| HumanVsAi.IsPlayerTurnMeaning | public/js/enhanced_human_vs_ai.js:635-640 | without a game it is never the player's turn; a missing turn counts as white's; otherwise it is the player's turn exactly when the turn is their colour |
| HumanVsAi.OutcomeForMeaning | public/js/enhanced_human_vs_ai.js:743-812 | the player wins exactly with "1-0" as white or "0-1" as black, anything else but a decisive result is a draw, and the summary title and the end message agree on a win and on a draw |
| HumanVsAi.DecisiveHasOneWinner | public/js/enhanced_human_vs_ai.js:747-750 | in a decisive game white wins exactly when black loses, and neither side draws |
| HumanVsAi.TwoDigitSeconds | public/js/enhanced_human_vs_ai.js:824 | padding the seconds to two characters gives two digits that read as the seconds |
| HumanVsAi.ClockReadsBack | public/js/enhanced_human_vs_ai.js:821-824 | the "m:ss" text reads back as the duration in seconds and ends with a colon and two digits |
| HumanVsAi.GameDurationMeaning | public/js/enhanced_human_vs_ai.js:814-825 | an empty history shows "0:00"; otherwise the text reads back as the whole seconds between the first and the last move |
| HumanVsAi.DifficultyName | public/js/enhanced_human_vs_ai.js:723-730 | levels 1 to 10 get their names and any other level "Desconhecido" |
| HumanVsAi.TimeControlName | public/js/enhanced_human_vs_ai.js:732-741 | the five known time controls get their labels and any other is shown as given |
| HumanVsAi.TaggedSnoc | public/js/enhanced_human_vs_ai.js:442-447 | adding a move tagged "human" or "ai" keeps every history entry tagged with one of them |
| HumanVsAi.HumanVsAiSession.constructor | public/js/enhanced_human_vs_ai.js:3-21 | no game, an empty history, no hints used and the player on white |
| HumanVsAi.HumanVsAiSession.StartGame | public/js/enhanced_human_vs_ai.js:323-330 | the game and colour from a successful start are kept, and the history and hints reset when the board is ready |
| HumanVsAi.HumanVsAiSession.SetupGameBoard | public/js/enhanced_human_vs_ai.js:351-367 | with a board and a game the history and hint count are cleared; otherwise nothing changes |
| HumanVsAi.HumanVsAiSession.HandlePlayerMove | public/js/enhanced_human_vs_ai.js:416-472 | out of turn, an incomplete move or a refused reply change nothing; an accepted move replaces the game, appends a "human" entry with its SAN and time, and ends the game exactly when the status is "finished" |
| HumanVsAi.HumanVsAiSession.RequestAiMove | public/js/enhanced_human_vs_ai.js:474-531 | a move is added exactly when there is a game, it is not the player's turn and the reply succeeds, replacing the game and appending an "ai" entry; otherwise nothing changes |
| HumanVsAi.HumanVsAiSession.GetAdvancedHint | public/js/enhanced_human_vs_ai.js:533-568 | a hint is counted exactly when it is the player's turn and the server gives one |
| Rankings.EloClass | public/js/rankings.js:98-103 | 1800 and up is master, 1600 up to 1800 expert, 1400 up to 1600 intermediate, and everything lower or missing is beginner |
| Rankings.StarredIffTopBands | public/js/rankings.js:77-100 | a row is starred exactly when its rating is in the expert or master band |
| Rankings.SortKey | public/js/rankings.js:62 | the sort key is the rating, or 1500 when it is missing or zero |
| Rankings.SortRankings | public/js/rankings.js:62 | sorting in place leaves the array as the descending sort of its old contents |
| Rankings.SortedRankings | public/js/rankings.js:62 | the sorted rankings descend by key, hold the same rankings, and keep rankings with equal keys in their old order |
| Rankings.PositionLabelPlace | public/js/rankings.js:68-71 | every position label ends with the 1-based place, the first three carry a medal, and from the fourth on the label is the place alone |
| Rankings.RowsOf | public/js/rankings.js:64-95 | one row per ranking, row i showing the i-th ranking at position i |
| Rankings.RankingsTableRows | public/js/rankings.js:50-96 | no rankings show the message; otherwise there is one row per ranking, in descending key order over a rearrangement of the rankings |
| Rankings.ModelColorCycle | public/js/rankings.js:181-193 | the colours repeat every eight models |
| Rankings.PaletteDistinct | public/js/rankings.js:182-191 | models in different places of a cycle of eight get different colours |
| Sorting.SortDescCorrect | public/js/rankings.js:62 | the sort descends by key, rearranges the same items, and keeps items with equal keys in their input order, as JavaScript's stable `sort` does |
| ArenaPage.ArenaLabelsAgree | public/js/arena.js:421-445 | both labels announce a winner exactly for "1-0" and "0-1", naming the winner's model when it is known; they agree on every other result, and anything but the three results reads as in progress |
| ArenaPage.Complexity | public/js/arena.js:301-304 | more than 40 moves is "Alta", 26 to 40 "Média" and 25 or fewer "Baixa" |
| ArenaPage.ComplexityMonotone | public/js/arena.js:303-304 | a longer game is never rated less complex |
| ArenaPage.SplitOnJoin | public/js/arena.js:154 | joining the pieces of the split with " vs " gives back the matchup name |
| ArenaPage.SplitOnClean | public/js/arena.js:154 | no piece of the split contains " vs " |
| ArenaPage.Sample | public/js/arena.js:157-161 | the sample is the first ten games, or all of them when there are fewer |
| ArenaPage.TallyAddsUp | public/js/arena.js:159-170 | the three counters add up to at most the sample, and to exactly the sample when every sampled game loaded with one of the three results |
| ArenaPage.LoadArenaConfrontoStats | public/js/arena.js:147-180 | the display gets the split model names, the number of games, and the counts of "1-0", "0-1" and "1/2-1/2" among the sampled games, a game that fails to load counting for none |

## Left out

- Threads, daemon threads, the registry locks and the 0.5 s busy-wait of fastapi_backend/arena_engine.py. A battle runs to completion inside the tournament loop, and a stop request is an input read at game and matchup boundaries.
- Every `time.sleep`, `setTimeout` and `setInterval` pause, and the `Promise.all` waits of a round. Only the batching arithmetic is kept. An autoplay tick is a method call.
- The chess rules of chess.js and python-chess: legality, SAN parsing, game-over detection, FEN and PGN export. They are records of functions over an abstract position, so every result holds for any rules library.
- LLM provider calls, prompts and the judge prompt. A model's answer is an input, and so are the matches of the move regular expressions and of the PGN header regular expressions.
- Persistence and files: the SQLite database, which is an append-only list of rows; `saveGame` and `getRecentGames` in server.js; directory scans and file reads in routes/data.js and fastapi_backend/dashboard.py; `data/settings.json`; localStorage. What a read yields is an input.
- `Math.random`, uuids, `Date.now()` and date parsing are parameters: an index below the list length, a draw function or a timestamp.
- Floating point: the `10^x` Elo expected score is an abstract real in (0, 1). Accuracy averages are exact reals. `toFixed` strings are not modelled. The win rate of routes/data.js is compared in tenths of a percent, rounded half up, as `toFixed(1)` followed by `parseFloat` orders it. NaN and the infinities are not modelled for JSON numbers, and fractional Elo ratings are not modelled in the rankings table. When the settings routes compare text with a number, decimal text is read as an exact real. Its rounding to the nearest double is not modelled: that rounding matters only for text within rounding distance of a range bound, or for exponents beyond the double range. The trimming applied before the conversion knows ASCII whitespace only.
- DOM rendering, modals, toasts, sounds, animation, charts, Socket.IO emits and Express wiring, throughout.
- Text handling: whitespace is ASCII only; `toUpperCase` is not modelled beyond ASCII; the `JSON.stringify` escaping inside a cache key; the percent-encoding of query strings.
- The remaining operations of public/js/enhanced_lichess_api.js: `testConnection`, `importUserGames`, `analyzeGamePatterns`, `generateRAGPrompt`, `findEndgameKnowledge`, `saveRAGData`, `loadRAGData`, `reconstructPGN` and the Express routes, all of them network or file I/O or prompt text. Also left out: the stream's `error` event, the outer `catch` of `processGameForRAG`, and the `pgn` and `analysis` fields of a knowledge entry.
- The tournament dispatcher `generatePairings`, the double-elimination and arena generators, `calculateTournamentStatistics`, `simulateGameResult` (results are inputs) and the display code of public/js/advanced_tournament_system.js.
- `TournamentSwiss.GenerateSwissPairings`: the standings sort before each round is the identity. Standings do not change while pairings are generated, so the generator pairs the participants in their given order. Maximality is stated for at least one game per pairing: with zero games, a pairing leaves no game to show it in the round.
- `TournamentStandings.Tournament.PlayBatch`: applies the games of a batch in pairing order. In public/js/advanced_tournament_system.js:826-841 each game completes after its own random 10-40 s timer, so the games of one batch are applied in timer order. The Elo updates of two games with a common player do not commute, so other orders can give other ratings. A game whose `startBattle` call fails is marked `error` and never applied; that path is not modelled either.
- `TournamentStandings.Tournament.StartRound`: plays its batches through `PlayBatch`, so it has the same two limits: games within a batch are applied in pairing order, and failed starts are not modelled.
- `TournamentStandings.Tournament.PlayAllRounds`: runs every round through `StartRound`, with the same two limits.
- `TournamentStandings.Tournament.StartTournament`: runs every round through `StartRound`, with the same two limits.
- `LichessRag.ParseNdjsonStream`: chunks are modelled as text. The source decodes each network chunk with `chunk.toString()` (public/js/enhanced_lichess_api.js:498), so a UTF-8 character split across two chunks turns into replacement characters. The model does not capture that corruption; its chunk-independence statement holds only for chunks cut at character boundaries.
- `LichessRag.NdjsonStream.OnData`: takes its chunk as text, with the same limit as `ParseNdjsonStream`.
- `Settings.ValidateSettings`: returns the validated settings as a value. Because of its shallow copy, the source also writes into the caller's `modelParams` object; that write is not modelled.
- `TournamentSchedule.Batches`: requires at least one concurrent game. With 0, the source's `for` loop never advances.
- `TournamentSchedule.EstimateTime`: requires at least one concurrent game. With 0, the source divides by zero and shows an infinite time.
- `HumanVsAi.GameDurationMeaning`: requires the first history timestamp to be no later than the last. The negative-duration text the source would print is not described.
- `TournamentStandings.RankedSorted`: requires every rating to be a number. With a NaN rating, the comparator of the source sort is inconsistent, and no order is stated.
- `TournamentElo.EloZeroSum`: stated for the three recognised results. The unrecognised case, which gives NaN to both players, has its own contract.
- `TournamentPairings.RoundRobinMeetsOnce`: stated for distinct participants none of whom is named `BYE`. With a repeated name, one name can be paired with itself or meet the same opponent in several rounds.
- The stubs and mock endpoints of the FastAPI backend and the Node routes, which have no behaviour to state.

## Findings

| source | as written | input that shows it | evidently intended | confidence | as-written member | corrected member |
|---|---|---|---|---|---|---|
| routes/data.js:16 | `totalGames` is the length of the recent-games list, which is capped at 20 | 21 saved games give a total of 20 | the number of all games | not executed | DataRoutes.DashboardUndercounts | DataRoutes.DashboardData |
| public/js/chessboard.js:222 | a square is light iff rank plus on-screen file index is odd | unflipped a1 (file index 0, rank 1) is drawn light, and flipping the board recolours every square | a1 dark and h1 light in either orientation | not executed | Chessboard.FlipRecolours | Chessboard.LightSquares |
| public/js/enhanced_lichess_api.js:407-419 | checks are read from chess.js flag `c` and checkmates from flag `#` | a plain capture such as exd5 (flags "c") is reported as a check, and no checkmate is ever reported | read check and checkmate from the SAN suffixes `+` and `#` | not executed | LichessRag.AsWrittenMisreadsFlags | LichessRag.MovePatternsCorrect |
