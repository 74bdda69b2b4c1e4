/**
 * The browser-side battle runner (public/js/chess_arena_manager.js): the
 * arbiter that turns a model's answer into a legal move, one game between two
 * models, and a battle that plays every opening `numGames` times with
 * alternating colours and keeps the win/draw tallies.
 *
 * The result rule, the PGN text and the answer cleaning are the same as the
 * Node server's and are taken from `ArenaServer`.  The model's answer is an
 * input (`ArenaEnv.reply`, None when the answer has no `move` field), so are
 * the matches of the SAN regular expression in the cleaned answer
 * (`ArenaEnv.matches`), `Math.random` (`ArenaEnv.pick`) and the clock
 * (`ArenaEnv.clock`).  The answer and the random index are indexed by the
 * game id and the turn number as well as the position and the history, so
 * each call of a battle may get its own answer, and a game repeated from the
 * same opening need not repeat the first.
 * Socket.IO emits, logging, pauses and the HTTP calls that save games and
 * battles are left out.
 */
module ArenaManager {
  import opened Wrappers
  import opened Strings
  import opened ChessRules
  import ArenaServer

  const MaxMoves: nat := ArenaServer.MaxMoves
  const WhiteWin: string := ArenaServer.WhiteWin
  const BlackWin: string := ArenaServer.BlackWin

  /** The arbiter's answer when no legal move was found. */
  const NoMove: string := "None"

  /** The openings of a battle whose configuration names none. */
  const DefaultOpenings: seq<string> := ["1. e4", "1. d4", "1. c4", "1. Nf3"]

  /** Everything outside the manager that a game depends on. */
  datatype ArenaEnv<!P> = ArenaEnv(chess: ChessJs<P>, start: P,
                                   reply: (string, nat, string, P, seq<string>) -> Option<string>,
                                   matches: string -> seq<string>,
                                   pick: (string, nat, P, seq<string>) -> nat,
                                   clock: string -> ArenaServer.Stamp)

  /** The `gameData` object of one game (the move details are left out). */
  datatype GameData = GameData(id: string, white: string, black: string, result: string, reason: string,
                               moves: seq<string>, pgn: string, fen: string, duration: int, totalMoves: nat)

  // -----------------------------------------------------------------------
  // validateMove

  /**
   * `validateMove`: the first legal move (in `validMoves` order) that the
   * cleaned answer contains or equals; else the first regex match of the
   * cleaned answer that is legal; else "None".
   */
  function ValidateMove(proposed: string, valid: seq<string>, matches: seq<string>): (r: string)
    ensures r in valid || r == NoMove
    ensures Trim(ArenaServer.Clean(proposed)) in valid ==> r in valid
  {
    var clean := Trim(ArenaServer.Clean(proposed));
    match ArenaServer.FirstWhere(valid, m => Includes(clean, m) || m == clean)
    case Some(i) => valid[i]
    case None =>
      match ArenaServer.FirstWhere(matches, c => c in valid)
      case Some(i) => matches[i]
      case None => NoMove
  }

  /** The contained-move stage wins, and it picks the first contained legal move. */
  lemma ValidateMoveFirst(proposed: string, valid: seq<string>, matches: seq<string>, i: nat)
    requires i < |valid| && Includes(Trim(ArenaServer.Clean(proposed)), valid[i])
    requires forall j :: 0 <= j < i ==> !Includes(Trim(ArenaServer.Clean(proposed)), valid[j])
    ensures ValidateMove(proposed, valid, matches) == valid[i]
  {
    var clean := Trim(ArenaServer.Clean(proposed));
    forall j | 0 <= j < i ensures valid[j] != clean {
      IncludesSelf(clean);
    }
    var r := ArenaServer.FirstWhere(valid, m => Includes(clean, m) || m == clean);
    assert r.Some? && r.value == i;
  }

  /** Without a contained legal move, the answer is the first legal match, or "None". */
  lemma ValidateMoveMatches(proposed: string, valid: seq<string>, matches: seq<string>)
    requires forall j :: 0 <= j < |valid| ==> !Includes(Trim(ArenaServer.Clean(proposed)), valid[j])
    ensures forall k :: 0 <= k < |matches| && matches[k] in valid && (forall l :: 0 <= l < k ==> matches[l] !in valid) ==>
              ValidateMove(proposed, valid, matches) == matches[k]
    ensures (forall k :: 0 <= k < |matches| ==> matches[k] !in valid) ==> ValidateMove(proposed, valid, matches) == NoMove
  {
    var clean := Trim(ArenaServer.Clean(proposed));
    forall j | 0 <= j < |valid| ensures valid[j] != clean {
      IncludesSelf(clean);
    }
  }

  lemma IncludesSelf(s: string)
    ensures Includes(s, s)
  {
    assert s[0..] == s;
    assert StartsWith(s[0..], s);
  }

  // -----------------------------------------------------------------------
  // playGameBetweenModels

  /** `opening.split(" ")[1]`, when it is there and not empty. */
  function OpeningMove(opening: string): (m: Option<string>)
    ensures m.Some? ==> m.value != "" && ' ' !in m.value
  {
    var parts := Split(opening, ' ');
    if |parts| >= 2 && parts[1] != "" then Some(parts[1]) else None
  }

  /** Only the second space-separated token of an opening is played. */
  lemma OpeningMoveOf(parts: seq<string>)
    requires |parts| >= 2 && parts[1] != ""
    requires forall i :: 0 <= i < |parts| ==> ' ' !in parts[i]
    ensures OpeningMove(Join(parts, ' ')) == Some(parts[1])
  {
    SplitJoin(parts, ' ');
  }

  /** "1. e4 e5" plays just e4. */
  lemma OpeningPlaysOneMove()
    ensures OpeningMove("1. e4 e5") == Some("e4")
  {
    var parts := ["1.", "e4", "e5"];
    assert Join(parts, ' ') == "1. e4 e5";
    OpeningMoveOf(parts);
  }

  /**
   * The position and history after the opening: the opening's move is
   * recorded when chess.js plays it; a rejected or throwing move, a missing
   * token, an empty opening and "random" leave the start position.
   */
  function AfterOpening<P>(chess: ChessJs<P>, start: P, opening: string): (r: (P, seq<string>))
    ensures |r.1| <= 1
  {
    if opening == "" || opening == "random" then (start, [])
    else match OpeningMove(opening)
      case None => (start, [])
      case Some(m) =>
        match chess.move(start, m)
        case Played(q, san) => (q, [san])
        case _ => (start, [])
  }

  /**
   * One turn of the loop.  None means the loop breaks: the answer had no
   * move (cleaning it throws), or chess.js did not play the arbiter's move.
   * Otherwise the new position and the SAN of the move played, if any: when
   * the arbiter found no move the random legal move is tried, and a
   * rejected random move leaves the position as it was (the turn still
   * counts).
   */
  function Turn<P>(env: ArenaEnv<P>, id: string, white: string, black: string, p: P, history: seq<string>, count: nat)
    : Option<(P, Option<string>)>
  {
    var model := if env.chess.turn(p) == White then white else black;
    match env.reply(id, count, model, p, history)
    case None => None
    case Some(text) =>
      var legal := env.chess.moves(p);
      var v := ValidateMove(text, legal, env.matches(Trim(ArenaServer.Clean(text))));
      if v != "" && v != NoMove then
        match env.chess.move(p, v)
        case Played(q, san) => Some((q, Some(san)))
        case _ => None
      else if |legal| == 0 then None
      else
        match env.chess.move(p, legal[env.pick(id, count, p, history) % |legal|])
        case Played(q, san) => Some((q, Some(san)))
        case Rejected => Some((p, None))
        case Threw => None
  }

  /** The turns of one game, as a function of the position and the history. */
  function TurnOf<P>(env: ArenaEnv<P>, id: string, white: string, black: string)
    : (P, seq<string>, nat) -> Option<(P, Option<string>)>
  {
    (p: P, history: seq<string>, count: nat) => Turn(env, id, white, black, p, history, count)
  }

  /** The move a turn played, as a list of at most one SAN. */
  function Added(san: Option<string>): (ms: seq<string>)
    ensures |ms| <= 1
  {
    if san.Some? then [san.value] else []
  }

  /**
   * The loop from p after `count` turns, for any turn function: it stops at
   * game over, after 200 turns, or when the turn breaks.
   */
  function LoopWith<P>(over: P -> bool, turn: (P, seq<string>, nat) -> Option<(P, Option<string>)>, p: P,
                       history: seq<string>, count: nat): (P, seq<string>, nat)
    decreases MaxMoves - count
  {
    if over(p) || count >= MaxMoves then (p, history, count)
    else
      match turn(p, history, count)
      case None => (p, history, count)
      case Some(next) => LoopWith(over, turn, next.0, history + Added(next.1), count + 1)
  }

  /** The loop of `playGameBetweenModels`. */
  function Loop<P>(env: ArenaEnv<P>, id: string, white: string, black: string, p: P, history: seq<string>, count: nat)
    : (P, seq<string>, nat)
  {
    LoopWith(env.chess.isGameOver, TurnOf(env, id, white, black), p, history, count)
  }

  /**
   * The loop makes at most 200 turns, each adding at most one move to the
   * history, and it stops only at game over, at the cap, or on a break.
   */
  lemma LoopBounded<P>(over: P -> bool, turn: (P, seq<string>, nat) -> Option<(P, Option<string>)>, p: P,
                       history: seq<string>, count: nat)
    requires count <= MaxMoves
    ensures var r := LoopWith(over, turn, p, history, count);
            count <= r.2 <= MaxMoves && |history| <= |r.1| <= |history| + (r.2 - count) &&
            r.1[..|history|] == history &&
            (over(r.0) || r.2 == MaxMoves || turn(r.0, r.1, r.2).None?)
  {
    LoopGrows(over, turn, p, history, count);
    LoopStops(over, turn, p, history, count);
  }

  lemma {:induction false} LoopGrows<P>(over: P -> bool, turn: (P, seq<string>, nat) -> Option<(P, Option<string>)>,
                                        p: P, history: seq<string>, count: nat)
    requires count <= MaxMoves
    ensures var r := LoopWith(over, turn, p, history, count);
            count <= r.2 <= MaxMoves && |history| <= |r.1| <= |history| + (r.2 - count) &&
            r.1[..|history|] == history
    decreases MaxMoves - count
  {
    if !over(p) && count < MaxMoves && turn(p, history, count).Some? {
      var next := turn(p, history, count).value;
      var h := history + Added(next.1);
      LoopGrows(over, turn, next.0, h, count + 1);
      var r := LoopWith(over, turn, next.0, h, count + 1);
      assert r.1[..|history|] == r.1[..|h|][..|history|];
    }
  }

  lemma {:induction false} LoopStops<P>(over: P -> bool, turn: (P, seq<string>, nat) -> Option<(P, Option<string>)>,
                                        p: P, history: seq<string>, count: nat)
    requires count <= MaxMoves
    ensures var r := LoopWith(over, turn, p, history, count);
            over(r.0) || r.2 == MaxMoves || turn(r.0, r.1, r.2).None?
    decreases MaxMoves - count
  {
    if !over(p) && count < MaxMoves && turn(p, history, count).Some? {
      var next := turn(p, history, count).value;
      LoopStops(over, turn, next.0, history + Added(next.1), count + 1);
    }
  }

  /** The game `playGameBetweenModels` produces. */
  function GameOf<P>(env: ArenaEnv<P>, white: string, black: string, opening: string, id: string): (g: GameData)
    ensures g.id == id && g.white == white && g.black == black && g.totalMoves == |g.moves|
  {
    var o := AfterOpening(env.chess, env.start, opening);
    var e := Loop(env, id, white, black, o.0, o.1, 0);
    var res := ArenaServer.GameResult(env.chess, e.0, e.2);
    var stamp := env.clock(id);
    GameData(id, white, black, res.0, res.1, e.1, ArenaServer.Pgn(white, black, res.0, e.1, res.1, stamp.date),
             env.chess.fen(e.0), stamp.duration, |e.1|)
  }

  /**
   * A game holds at most the one opening move and then at most 200 moves,
   * begins with the opening's move when it was played, and ends with one of
   * the four result strings.
   */
  lemma GameOfBounded<P>(env: ArenaEnv<P>, white: string, black: string, opening: string, id: string)
    ensures var g := GameOf(env, white, black, opening, id);
            g.totalMoves <= 1 + MaxMoves && |AfterOpening(env.chess, env.start, opening).1| <= g.totalMoves &&
            g.moves[..|AfterOpening(env.chess, env.start, opening).1|] == AfterOpening(env.chess, env.start, opening).1 &&
            g.result in {WhiteWin, BlackWin, ArenaServer.Draw, ArenaServer.Unfinished}
  {
    var o := AfterOpening(env.chess, env.start, opening);
    LoopBounded(env.chess.isGameOver, TurnOf(env, id, white, black), o.0, o.1, 0);
  }

  /** The move loop of `playGameBetweenModels`, from the position after the opening. */
  method PlayMoves<P>(env: ArenaEnv<P>, id: string, white: string, black: string, p0: P, h0: seq<string>)
    returns (board: P, history: seq<string>, moveCount: nat)
    ensures (board, history, moveCount) == Loop(env, id, white, black, p0, h0, 0)
  {
    board := p0;
    history := h0;
    moveCount := 0;
    while !env.chess.isGameOver(board) && moveCount < MaxMoves
      invariant moveCount <= MaxMoves
      invariant LoopWith(env.chess.isGameOver, TurnOf(env, id, white, black), board, history, moveCount) ==
                Loop(env, id, white, black, p0, h0, 0)
      decreases MaxMoves - moveCount
    {
      var next := TakeTurn(env, id, white, black, board, history, moveCount);
      if next.None? {
        break;
      }
      board, history := next.value.0, history + Added(next.value.1);
      moveCount := moveCount + 1;
    }
  }

  /** The body of the `playGameBetweenModels` loop; None where it breaks. */
  method TakeTurn<P>(env: ArenaEnv<P>, id: string, white: string, black: string, board: P, history: seq<string>,
                     moveCount: nat)
    returns (next: Option<(P, Option<string>)>)
    ensures next == Turn(env, id, white, black, board, history, moveCount)
  {
    var currentModel := if env.chess.turn(board) == White then white else black;
    var move := env.reply(id, moveCount, currentModel, board, history);
    if move.None? {
      return None;
    }
    var legal := env.chess.moves(board);
    var validated := ValidateMove(move.value, legal, env.matches(Trim(ArenaServer.Clean(move.value))));
    if validated != "" && validated != NoMove {
      match env.chess.move(board, validated) {
        case Played(q, san) =>
          next := Some((q, Some(san)));
        case Rejected =>
          next := None;
        case Threw =>
          next := None;
      }
    } else if |legal| == 0 {
      next := None;
    } else {
      var randomMove := legal[env.pick(id, moveCount, board, history) % |legal|];
      match env.chess.move(board, randomMove) {
        case Played(q, san) =>
          next := Some((q, Some(san)));
        case Rejected =>
          next := Some((board, None));
        case Threw =>
          next := None;
      }
    }
  }

  /** The opening step of `playGameBetweenModels`. */
  method PlayOpening<P>(chess: ChessJs<P>, start: P, opening: string) returns (board: P, history: seq<string>)
    ensures (board, history) == AfterOpening(chess, start, opening)
  {
    board := start;
    history := [];
    if opening != "" && opening != "random" {
      var openingMove := OpeningMove(opening);
      if openingMove.Some? {
        match chess.move(board, openingMove.value) {
          case Played(q, san) =>
            board := q;
            history := [san];
          case Rejected =>
          case Threw =>
        }
      }
    }
  }

  /** `playGameBetweenModels`. */
  method PlayGameBetweenModels<P>(env: ArenaEnv<P>, white: string, black: string, opening: string, id: string)
    returns (game: GameData)
    ensures game == GameOf(env, white, black, opening, id)
  {
    var board, history := PlayOpening(env.chess, env.start, opening);
    var moveCount;
    board, history, moveCount := PlayMoves(env, id, white, black, board, history);
    var res := ArenaServer.GameResult(env.chess, board, moveCount);
    var stamp := env.clock(id);
    var pgn := ArenaServer.GeneratePgn(white, black, res.0, history, res.1, stamp.date);
    game := GameData(id, white, black, res.0, res.1, history, pgn, env.chess.fen(board), stamp.duration, |history|);
  }

  // -----------------------------------------------------------------------
  // Battles

  /** A battle's configuration; `numGames` 0 stands for a missing count, `openings` None for missing openings. */
  datatype BattleConfig = BattleConfig(id: string, whiteModel: string, blackModel: string, numGames: int,
                                       openings: Option<seq<string>>)

  /** `config.numGames || 1`. */
  function GamesPerOpening(numGames: int): (n: int)
    ensures n != 0 && (numGames != 0 ==> n == numGames)
  {
    if numGames == 0 then 1 else numGames
  }

  /** `config.openings || [...]`: an empty list is kept. */
  function OpeningsOf(openings: Option<seq<string>>): seq<string> {
    if openings.Some? then openings.value else DefaultOpenings
  }

  /** One element of `battle.results`. */
  datatype BattleResult = BattleResult(gameNumber: nat, white: string, black: string, result: string, moves: nat,
                                       duration: int, opening: string, pgn: string, gameId: string)

  /** The battle's state that `runBattle` changes. */
  datatype Tally = Tally(currentGame: nat, results: seq<BattleResult>, whiteWins: nat, blackWins: nat, draws: nat)

  /** A game of the schedule: its opening and its number within that opening (from 1). */
  datatype Slot = Slot(opening: string, gameNum: nat)

  /** The games one opening gets: numbers 1 to g. */
  function Row(opening: string, g: int): (r: seq<Slot>)
    ensures |r| == if g > 0 then g else 0
  {
    if g <= 0 then [] else Row(opening, g - 1) + [Slot(opening, g)]
  }

  /** Game j of a row is game number j + 1 of its opening. */
  lemma {:induction false} RowAt(opening: string, g: int, j: nat)
    requires j < g
    ensures Row(opening, g)[j] == Slot(opening, j + 1)
  {
    if j < g - 1 {
      RowAt(opening, g - 1, j);
    }
  }

  /** The games `runBattle` attempts, in order: each opening, and within it games 1 to n. */
  function Schedule(openings: seq<string>, n: int): (s: seq<Slot>)
  {
    if |openings| == 0 then []
    else Schedule(openings[..|openings| - 1], n) + Row(openings[|openings| - 1], n)
  }

  /** The games one opening gets when `numGames` is n: none for n <= 0. */
  function Width(n: int): nat {
    if n > 0 then n else 0
  }

  /** The schedule has `openings.length * numGames` games. */
  lemma {:induction false} ScheduleLength(openings: seq<string>, n: int)
    ensures |Schedule(openings, n)| == |openings| * Width(n)
    decreases |openings|
  {
    if |openings| > 0 {
      var m := |openings|;
      ScheduleLength(openings[..m - 1], n);
      assert (m - 1) * Width(n) + Width(n) == m * Width(n);
    }
  }

  /** Game g + 1 of opening o is game o * n + g of the schedule (counted from 0). */
  lemma {:induction false} ScheduleAt(openings: seq<string>, n: int, o: nat, g: nat)
    requires o < |openings| && g < n
    ensures o * n + g < |Schedule(openings, n)| && Schedule(openings, n)[o * n + g] == Slot(openings[o], g + 1)
    decreases |openings|
  {
    var m := |openings|;
    var init := openings[..m - 1];
    ScheduleLength(init, n);
    ScheduleLength(openings, n);
    MulBelow(o, g, n, m);
    var a := Schedule(init, n);
    var r := Row(openings[m - 1], n);
    assert Schedule(openings, n) == a + r;
    if o < m - 1 {
      MulBelow(o, g, n, m - 1);
      ScheduleAt(init, n, o, g);
      assert init[o] == openings[o];
    } else {
      assert o * n + g - |a| == g;
      RowAt(openings[m - 1], n, g);
    }
  }

  /** o * n + g < k * n when o < k and g < n. */
  lemma MulBelow(o: nat, g: nat, n: nat, k: nat)
    requires o < k && g < n
    ensures o * n + g < k * n
  {
    MulMono(o + 1, k, n);
    assert (o + 1) * n == o * n + n;
  }

  lemma MulMono(a: nat, b: nat, n: nat)
    requires a <= b
    ensures a * n <= b * n
  {
    assert b * n == a * n + (b - a) * n;
  }

  /** The colours of game number gameNum: the battle's white model is White in the odd games. */
  function WhiteFor(cfg: BattleConfig, gameNum: nat): string {
    if gameNum % 2 == 1 then cfg.whiteModel else cfg.blackModel
  }

  function BlackFor(cfg: BattleConfig, gameNum: nat): string {
    if gameNum % 2 == 1 then cfg.blackModel else cfg.whiteModel
  }

  /** `updateBattleStats`: the game's result raises exactly one tally. */
  function UpdateBattleStats(t: Tally, cfg: BattleConfig, white: string, black: string, result: string): (t': Tally)
    ensures t'.currentGame == t.currentGame && t'.results == t.results
    ensures t'.whiteWins + t'.blackWins + t'.draws == t.whiteWins + t.blackWins + t.draws + 1
    ensures t'.draws == t.draws + 1 <==> result != WhiteWin && result != BlackWin
  {
    if result == WhiteWin then
      if white == cfg.whiteModel then t.(whiteWins := t.whiteWins + 1) else t.(blackWins := t.blackWins + 1)
    else if result == BlackWin then
      if black == cfg.blackModel then t.(blackWins := t.blackWins + 1) else t.(whiteWins := t.whiteWins + 1)
    else t.(draws := t.draws + 1)
  }

  /** The id of the next game of a battle. */
  function GameId(battleId: string, currentGame: nat): string {
    battleId + "_game_" + NatToString(currentGame + 1)
  }

  /** One game of the schedule: played, recorded under the next number, and tallied. */
  function Play(t: Tally, cfg: BattleConfig, games: (string, string, string, string) -> GameData, slot: Slot): Tally {
    var white := WhiteFor(cfg, slot.gameNum);
    var black := BlackFor(cfg, slot.gameNum);
    var g := games(white, black, slot.opening, GameId(cfg.id, t.currentGame));
    var t1 := t.(currentGame := t.currentGame + 1,
                 results := t.results + [BattleResult(t.currentGame + 1, white, black, g.result, g.totalMoves,
                                                      g.duration, slot.opening, g.pgn, g.id)]);
    UpdateBattleStats(t1, cfg, white, black, g.result)
  }

  /** The battle's state after the games of `slots`, in order. */
  function Run(t: Tally, cfg: BattleConfig, games: (string, string, string, string) -> GameData, slots: seq<Slot>): Tally
  {
    if |slots| == 0 then t else Play(Run(t, cfg, games, slots[..|slots| - 1]), cfg, games, slots[|slots| - 1])
  }

  lemma RunSnoc(t: Tally, cfg: BattleConfig, games: (string, string, string, string) -> GameData, slots: seq<Slot>,
                x: Slot)
    ensures Run(t, cfg, games, slots + [x]) == Play(Run(t, cfg, games, slots), cfg, games, x)
  {
    assert (slots + [x])[..|slots|] == slots;
  }

  /** The games `playGameBetweenModels` produces, by colours, opening and id. */
  function GamesOf<P>(env: ArenaEnv<P>): (string, string, string, string) -> GameData {
    (white, black, opening, id) => GameOf(env, white, black, opening, id)
  }

  /** Games in `results` won by model m, whichever colour it had. */
  function WinsOf(results: seq<BattleResult>, m: string): nat {
    if |results| == 0 then 0
    else
      var r := results[|results| - 1];
      WinsOf(results[..|results| - 1], m) +
      (if (r.result == WhiteWin && r.white == m) || (r.result == BlackWin && r.black == m) then 1 else 0)
  }

  /** Games in `results` that are neither "1-0" nor "0-1". */
  function Undecided(results: seq<BattleResult>): nat {
    if |results| == 0 then 0
    else
      var r := results[|results| - 1];
      Undecided(results[..|results| - 1]) + (if r.result != WhiteWin && r.result != BlackWin then 1 else 0)
  }

  /** The tallies count the recorded games by winning model, and every other game as a draw. */
  predicate Counted(t: Tally, cfg: BattleConfig) {
    t.whiteWins == WinsOf(t.results, cfg.whiteModel) && t.blackWins == WinsOf(t.results, cfg.blackModel) &&
    t.draws == Undecided(t.results) && t.whiteWins + t.blackWins + t.draws == |t.results|
  }

  /** Result j is game j + 1 and was played as slot j says. */
  predicate Numbered(t: Tally, cfg: BattleConfig, slots: seq<Slot>) {
    t.currentGame == |t.results| == |slots| &&
    forall j :: 0 <= j < |t.results| ==>
      t.results[j].gameNumber == j + 1 && t.results[j].opening == slots[j].opening &&
      t.results[j].white == WhiteFor(cfg, slots[j].gameNum) && t.results[j].black == BlackFor(cfg, slots[j].gameNum)
  }

  /**
   * From a new battle, after the games of any prefix of the schedule: one
   * result per game, numbered 1, 2, ... and played with the colours and
   * opening of its slot.
   */
  lemma {:induction false} RunNumbered(cfg: BattleConfig, games: (string, string, string, string) -> GameData,
                                       slots: seq<Slot>)
    ensures Numbered(Run(Tally(0, [], 0, 0, 0), cfg, games, slots), cfg, slots)
    decreases |slots|
  {
    if |slots| > 0 {
      var init := slots[..|slots| - 1];
      RunNumbered(cfg, games, init);
      PlayNumbered(Run(Tally(0, [], 0, 0, 0), cfg, games, init), cfg, games, init, slots[|slots| - 1]);
      assert init + [slots[|slots| - 1]] == slots;
    }
  }

  lemma PlayNumbered(t: Tally, cfg: BattleConfig, games: (string, string, string, string) -> GameData,
                     slots: seq<Slot>, x: Slot)
    requires Numbered(t, cfg, slots)
    ensures Numbered(Play(t, cfg, games, x), cfg, slots + [x])
  {
    var t' := Play(t, cfg, games, x);
    assert forall j :: 0 <= j < |t.results| ==> t'.results[j] == t.results[j];
  }

  /**
   * For two different models, after any number of games: whiteWins and
   * blackWins count the games each model won with either colour, and draws
   * counts the rest (unfinished "*" games included), so the three add up to
   * the number of results.
   */
  lemma {:induction false} RunCounted(cfg: BattleConfig, games: (string, string, string, string) -> GameData,
                                      slots: seq<Slot>)
    requires cfg.whiteModel != cfg.blackModel
    ensures Counted(Run(Tally(0, [], 0, 0, 0), cfg, games, slots), cfg)
    decreases |slots|
  {
    if |slots| > 0 {
      var init := slots[..|slots| - 1];
      RunCounted(cfg, games, init);
      PlayCounted(Run(Tally(0, [], 0, 0, 0), cfg, games, init), cfg, games, slots[|slots| - 1]);
    }
  }

  lemma PlayCounted(t: Tally, cfg: BattleConfig, games: (string, string, string, string) -> GameData, x: Slot)
    requires cfg.whiteModel != cfg.blackModel && Counted(t, cfg)
    ensures Counted(Play(t, cfg, games, x), cfg)
  {
    var t' := Play(t, cfg, games, x);
    assert t'.results[..|t'.results| - 1] == t.results;
  }

  /** The state of a new battle once `runBattle` has played its whole schedule. */
  function WholeBattle(cfg: BattleConfig, games: (string, string, string, string) -> GameData): Tally {
    Run(Tally(0, [], 0, 0, 0), cfg, games, Schedule(OpeningsOf(cfg.openings), GamesPerOpening(cfg.numGames)))
  }

  /**
   * A whole battle from a new one has `openings.length * numGames` results
   * (none for a non-positive count), so the progress `currentGame /
   * (numGames * openings.length)` ends at 1.
   */
  lemma BattleLength(cfg: BattleConfig, games: (string, string, string, string) -> GameData)
    ensures var t := WholeBattle(cfg, games);
            t.currentGame == |t.results| == |OpeningsOf(cfg.openings)| * Width(GamesPerOpening(cfg.numGames))
  {
    var n := GamesPerOpening(cfg.numGames);
    ScheduleLength(OpeningsOf(cfg.openings), n);
    RunNumbered(cfg, games, Schedule(OpeningsOf(cfg.openings), n));
  }

  /**
   * In a whole battle, game g + 1 of opening o is result o * numGames + g,
   * numbered o * numGames + g + 1, and for two different models the
   * battle's white model had White in it exactly when g + 1 is odd.
   */
  lemma BattleGameAt(cfg: BattleConfig, games: (string, string, string, string) -> GameData, o: nat, g: nat)
    requires o < |OpeningsOf(cfg.openings)| && g < GamesPerOpening(cfg.numGames)
    ensures var n := GamesPerOpening(cfg.numGames);
            var t := WholeBattle(cfg, games);
            o * n + g < |t.results| && t.results[o * n + g].opening == OpeningsOf(cfg.openings)[o] &&
            t.results[o * n + g].gameNumber == o * n + g + 1 &&
            (cfg.whiteModel != cfg.blackModel ==> (t.results[o * n + g].white == cfg.whiteModel <==> g % 2 == 0))
  {
    var n := GamesPerOpening(cfg.numGames);
    var s := Schedule(OpeningsOf(cfg.openings), n);
    RunNumbered(cfg, games, s);
    ScheduleAt(OpeningsOf(cfg.openings), n, o, g);
    SlotRecorded(Run(Tally(0, [], 0, 0, 0), cfg, games, s), cfg, s, OpeningsOf(cfg.openings), n, o, g);
  }

  /** Result o * n + g of a numbered tally was played as that slot says. */
  lemma SlotRecorded(t: Tally, cfg: BattleConfig, slots: seq<Slot>, openings: seq<string>, n: nat, o: nat, g: nat)
    requires Numbered(t, cfg, slots) && o < |openings|
    requires o * n + g < |slots| && slots[o * n + g] == Slot(openings[o], g + 1)
    ensures o * n + g < |t.results| && t.results[o * n + g].opening == openings[o] &&
            t.results[o * n + g].gameNumber == o * n + g + 1 &&
            (cfg.whiteModel != cfg.blackModel ==> (t.results[o * n + g].white == cfg.whiteModel <==> g % 2 == 0))
  {
    var j := o * n + g;
    assert t.results[j].white == WhiteFor(cfg, g + 1);
    assert (g + 1) % 2 == 1 <==> g % 2 == 0;
  }

  /** A battle, as `startBattle` creates it and `runBattle` updates it in place. */
  class Battle {
    const config: BattleConfig
    const numGames: int
    const openings: seq<string>
    var currentGame: nat
    var results: seq<BattleResult>
    var status: string
    var whiteWins: nat
    var blackWins: nat
    var draws: nat

    constructor (config: BattleConfig)
      ensures this.config == config && status == "running"
      ensures numGames == GamesPerOpening(config.numGames) && openings == OpeningsOf(config.openings)
      ensures State() == Tally(0, [], 0, 0, 0)
    {
      this.config := config;
      numGames := GamesPerOpening(config.numGames);
      openings := OpeningsOf(config.openings);
      currentGame := 0;
      results := [];
      status := "running";
      whiteWins := 0;
      blackWins := 0;
      draws := 0;
    }

    function State(): Tally
      reads this
    {
      Tally(currentGame, results, whiteWins, blackWins, draws)
    }
  }

  /** One game of `runBattle`: play it, push its record and update the tallies. */
  method BattleGame<P>(env: ArenaEnv<P>, battle: Battle, opening: string, gameNum: nat)
    modifies battle
    ensures battle.State() == Play(old(battle.State()), battle.config, GamesOf(env), Slot(opening, gameNum))
    ensures battle.status == old(battle.status)
  {
    var cfg := battle.config;
    var whiteModel := if gameNum % 2 == 1 then cfg.whiteModel else cfg.blackModel;
    var blackModel := if gameNum % 2 == 1 then cfg.blackModel else cfg.whiteModel;
    var game := PlayGameBetweenModels(env, whiteModel, blackModel, opening, GameId(cfg.id, battle.currentGame));
    battle.currentGame := battle.currentGame + 1;
    battle.results := battle.results + [BattleResult(battle.currentGame, whiteModel, blackModel, game.result,
                                                     game.totalMoves, game.duration, opening, game.pgn, game.id)];
    UpdateStats(battle, whiteModel, blackModel, game.result);
  }

  /** `updateBattleStats`, in place. */
  method UpdateStats(battle: Battle, whiteModel: string, blackModel: string, result: string)
    modifies battle
    ensures battle.State() == UpdateBattleStats(old(battle.State()), battle.config, whiteModel, blackModel, result)
    ensures battle.status == old(battle.status)
  {
    if result == WhiteWin {
      if whiteModel == battle.config.whiteModel {
        battle.whiteWins := battle.whiteWins + 1;
      } else {
        battle.blackWins := battle.blackWins + 1;
      }
    } else if result == BlackWin {
      if blackModel == battle.config.blackModel {
        battle.blackWins := battle.blackWins + 1;
      } else {
        battle.whiteWins := battle.whiteWins + 1;
      }
    } else {
      battle.draws := battle.draws + 1;
    }
  }

  /** `runBattle`: every opening, and for each games 1 to `numGames`, then "completed". */
  method RunBattle<P>(env: ArenaEnv<P>, battle: Battle)
    modifies battle
    ensures battle.State() == Run(old(battle.State()), battle.config, GamesOf(env),
                                  Schedule(battle.openings, battle.numGames))
    ensures battle.status == "completed"
  {
    ghost var t0 := battle.State();
    var oi := 0;
    while oi < |battle.openings|
      invariant oi <= |battle.openings|
      invariant battle.State() == Run(t0, battle.config, GamesOf(env), Schedule(battle.openings[..oi], battle.numGames))
    {
      PlayOpeningGames(env, battle, battle.openings[oi], t0, Schedule(battle.openings[..oi], battle.numGames));
      assert battle.openings[..oi + 1][..oi] == battle.openings[..oi];
      oi := oi + 1;
    }
    assert battle.openings[..oi] == battle.openings;
    battle.status := "completed";
  }

  /** The inner loop of `runBattle`: games 1 to `numGames` with one opening. */
  method PlayOpeningGames<P>(env: ArenaEnv<P>, battle: Battle, opening: string, ghost t0: Tally, ghost done: seq<Slot>)
    requires battle.State() == Run(t0, battle.config, GamesOf(env), done)
    modifies battle
    ensures battle.State() == Run(t0, battle.config, GamesOf(env), done + Row(opening, battle.numGames))
  {
    var gameNum := 1;
    assert done + Row(opening, 0) == done;
    while gameNum <= battle.numGames
      invariant 1 <= gameNum <= Width(battle.numGames) + 1
      invariant battle.State() == Run(t0, battle.config, GamesOf(env), done + Row(opening, gameNum - 1))
    {
      PlaySlot(env, battle, opening, gameNum, t0, done);
      gameNum := gameNum + 1;
    }
    assert Row(opening, gameNum - 1) == Row(opening, battle.numGames);
  }

  /** Game gameNum of the inner loop, as the next step of the battle's schedule. */
  method PlaySlot<P>(env: ArenaEnv<P>, battle: Battle, opening: string, gameNum: nat, ghost t0: Tally,
                     ghost done: seq<Slot>)
    requires gameNum > 0
    requires battle.State() == Run(t0, battle.config, GamesOf(env), done + Row(opening, gameNum - 1))
    modifies battle
    ensures battle.State() == Run(t0, battle.config, GamesOf(env), done + Row(opening, gameNum))
  {
    BattleGame(env, battle, opening, gameNum);
    RunSnoc(t0, battle.config, GamesOf(env), done + Row(opening, gameNum - 1), Slot(opening, gameNum));
    RowSnoc(done, opening, gameNum);
  }

  lemma RowSnoc(done: seq<Slot>, opening: string, g: nat)
    requires g > 0
    ensures done + Row(opening, g - 1) + [Slot(opening, g)] == done + Row(opening, g)
  {
  }

  /** The manager: battles by id and the current one. */
  class ChessArenaManager {
    var battles: map<string, Battle>
    var currentBattle: Option<Battle>

    constructor ()
      ensures battles == map[] && currentBattle == None
    {
      battles := map[];
      currentBattle := None;
    }

    /**
     * `startBattle`: a new running battle, registered under its id and made
     * current, then run to completion (the id's clock and random parts are
     * an input).
     */
    method StartBattle<P>(env: ArenaEnv<P>, config: BattleConfig) returns (battle: Battle)
      modifies this
      ensures fresh(battle) && battle.config == config
      ensures battles == old(battles)[config.id := battle] && currentBattle == Some(battle)
      ensures battle.State() == WholeBattle(config, GamesOf(env))
      ensures battle.status == "completed"
    {
      battle := new Battle(config);
      battles := battles[config.id := battle];
      currentBattle := Some(battle);
      RunBattle(env, battle);
    }
  }
}
