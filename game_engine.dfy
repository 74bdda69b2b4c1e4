/**
 * The FastAPI game engine (fastapi_backend/game_engine.py): one game between
 * two registered models on a python-chess board.  The model call is the
 * backend stub, which plays the first legal move of any model whose
 * configuration is non-empty; the date header is a clock value and is not
 * modelled.
 */
module GameEngine {
  import opened Wrappers
  import opened Strings
  import opened ChessRules
  import opened ModelsManager

  /** The dict `play_game` returns (the PGN is given by its move list). */
  datatype GameReport = GameReport(moves: seq<string>, result: string, moveCount: nat,
                                   white: string, black: string, fen: string)

  /** Preferred judges, in order. */
  const FirstJudge: string := "Llama3-70B"
  const SecondJudge: string := "Mixtral-8x7B"

  /**
   * `_initialize_judge`'s choice among the registered names: the first
   * preferred name present, else the first name listed, else none.
   */
  function JudgeName(names: seq<string>): (r: Option<string>)
    ensures r.Some? <==> |names| > 0
    ensures r.Some? ==> r.value in names
    ensures FirstJudge in names ==> r == Some(FirstJudge)
    ensures r.Some? && r.value != FirstJudge && r.value != SecondJudge ==>
              FirstJudge !in names && SecondJudge !in names && r.value == names[0]
  {
    if FirstJudge in names then Some(FirstJudge)
    else if SecondJudge in names then Some(SecondJudge)
    else if |names| > 0 then Some(names[0])
    else None
  }

  /**
   * `get_ai_move` for a model whose looked-up config is `config`: nothing for
   * an empty (falsy) config or a position without legal moves, otherwise the
   * first legal move.
   */
  function AiMove<P>(chess: PyChess<P>, p: P, config: map<string, Setting>): (m: Option<string>)
    ensures m.Some? <==> |config| > 0 && |chess.legalMoves(p)| > 0
    ensures m.Some? ==> m.value in chess.legalMoves(p) && m.value == chess.legalMoves(p)[0]
  {
    if |config| == 0 then None
    else
      var legal := chess.legalMoves(p);
      if |legal| > 0 then Some(legal[0]) else None
  }

  /**
   * `_extract_move_from_response`, given what the `My move:` pattern
   * captured (None when it does not match): the stripped capture parsed as
   * SAN, or None when there is no match or the text does not parse.
   */
  function ExtractMove<P>(chess: PyChess<P>, p: P, capture: Option<string>): (m: Option<string>)
    ensures m.Some? <==> capture.Some? && chess.parseSan(p, Trim(capture.value)).Some?
    ensures m.Some? ==> m == chess.parseSan(p, Trim(capture.value))
  {
    match capture
    case None => None
    case Some(text) => chess.parseSan(p, Trim(text))
  }

  /**
   * The opening move `play_game` pushes: the last whitespace token of the
   * opening, or "e4" when that does not parse.  A blank opening raises
   * IndexError, and an unparsable "e4" lets the ValueError escape.
   */
  function EngineOpening<P>(chess: PyChess<P>, start: P, opening: string): (r: Result<string, string>)
    ensures r.Err? <==> |Words(opening)| == 0 ||
                        (chess.parseSan(start, Words(opening)[|Words(opening)| - 1]).None? &&
                         chess.parseSan(start, "e4").None?)
    ensures r.Ok? && |Words(opening)| > 0 && chess.parseSan(start, Words(opening)[|Words(opening)| - 1]).Some? ==>
              r.value == chess.parseSan(start, Words(opening)[|Words(opening)| - 1]).value
  {
    var tokens := Words(opening);
    if |tokens| == 0 then Err("IndexError")
    else match chess.parseSan(start, tokens[|tokens| - 1])
      case Some(m) => Ok(m)
      case None =>
        match chess.parseSan(start, "e4")
        case Some(m) => Ok(m)
        case None => Err("ValueError")
  }

  /** `while ... move_count < max_moves` admits this many engine moves. */
  function Budget(maxMoves: int): nat {
    if maxMoves > 0 then maxMoves else 0
  }

  /**
   * The engine moves played from `p` with at most `budget` moves left: the
   * side to move uses the black model's config exactly when python-chess says
   * Black is to move; the game stops at game over, when the budget is spent,
   * or at the first missing move.
   */
  function EngineLine<P>(chess: PyChess<P>, p: P, whiteConfig: map<string, Setting>,
                         blackConfig: map<string, Setting>, budget: nat): (P, seq<string>)
    decreases budget
  {
    if budget == 0 || chess.isGameOver(p) then (p, [])
    else
      var config := if chess.turn(p) == Black then blackConfig else whiteConfig;
      match AiMove(chess, p, config)
      case None => (p, [])
      case Some(m) =>
        var r := EngineLine(chess, chess.push(p, m), whiteConfig, blackConfig, budget - 1);
        (r.0, [m] + r.1)
  }

  /** Every move of `line` is legal where it is pushed. */
  predicate LegalLine<P>(chess: PyChess<P>, p: P, line: seq<string>)
    decreases |line|
  {
    |line| == 0 ||
    (line[0] in chess.legalMoves(p) && LegalLine(chess, chess.push(p, line[0]), line[1..]))
  }

  /**
   * The engine plays only legal moves, at most `budget` of them, and stops
   * at game over, at the budget, or where the side to move has no move.
   */
  lemma {:induction false} EngineLineLegal<P>(chess: PyChess<P>, p: P, whiteConfig: map<string, Setting>,
                                              blackConfig: map<string, Setting>, budget: nat)
    ensures var r := EngineLine(chess, p, whiteConfig, blackConfig, budget);
            LegalLine(chess, p, r.1) && |r.1| <= budget &&
            (chess.isGameOver(r.0) || |r.1| == budget ||
             AiMove(chess, r.0, if chess.turn(r.0) == Black then blackConfig else whiteConfig).None?)
    decreases budget
  {
    if budget > 0 && !chess.isGameOver(p) {
      var config := if chess.turn(p) == Black then blackConfig else whiteConfig;
      if AiMove(chess, p, config).Some? {
        var m := AiMove(chess, p, config).value;
        EngineLineLegal(chess, chess.push(p, m), whiteConfig, blackConfig, budget - 1);
        var r := EngineLine(chess, chess.push(p, m), whiteConfig, blackConfig, budget - 1);
        assert ([m] + r.1)[1..] == r.1;
      }
    }
  }

  /**
   * With an unregistered model to move (its config is the empty dict) the
   * game ends at once: a fresh engine's registry is empty, so `play_game`
   * stops right after the opening with no engine move.
   */
  lemma UnregisteredModelPlaysNothing<P>(chess: PyChess<P>, p: P, budget: nat)
    ensures EngineLine(chess, p, map[], map[], budget) == (p, [])
  {
  }

  class GameEngine {
    const manager: ModelManager
    var judge: Option<Config>

    /** A new engine over a new, empty registry, then `_initialize_judge`. */
    constructor ()
      ensures fresh(manager) && manager.models == map[] && manager.names == [] && manager.Valid()
      ensures judge == None
    {
      manager := new ModelManager();
      judge := None;
      new;
      InitializeJudge();
    }

    /** The config `get_model(name)` yields, as a dict value. */
    function ConfigOf(name: string): map<string, Setting>
      reads manager, manager.models.Values
    {
      if name in manager.models then manager.models[name].fields else map[]
    }

    /** `_initialize_judge`: the registered config chosen by `JudgeName`, or none. */
    method InitializeJudge()
      requires manager.Valid()
      modifies this`judge
      ensures judge == if JudgeName(manager.names).Some?
                       then Some(manager.models[JudgeName(manager.names).value]) else old(judge)
    {
      var names := manager.ListModels();
      var choice := JudgeName(names);
      if choice.Some? {
        judge := Some(manager.models[choice.value]);
      }
    }

    /**
     * `play_game`: the opening move, then engine moves until game over, the
     * `max_moves` budget or a missing move.  The move count leaves out the
     * opening; the moves listed include it.
     */
    method PlayGame<P>(chess: PyChess<P>, start: P, white: string, black: string, opening: string,
                       maxMoves: int) returns (r: Result<GameReport, string>)
      ensures EngineOpening(chess, start, opening).Err? ==> r == Err(EngineOpening(chess, start, opening).error)
      ensures EngineOpening(chess, start, opening).Ok? ==>
                var m := EngineOpening(chess, start, opening).value;
                var line := EngineLine(chess, chess.push(start, m), ConfigOf(white), ConfigOf(black), Budget(maxMoves));
                r == Ok(GameReport([m] + line.1, chess.result(line.0), |line.1|, white, black, chess.fen(line.0)))
      ensures r.Ok? ==> r.value.moveCount <= Budget(maxMoves) && |r.value.moves| == r.value.moveCount + 1
    {
      var first := EngineOpening(chess, start, opening);
      if first.Err? {
        return Err(first.error);
      }
      var board, played := Engine(chess, chess.push(start, first.value), ConfigOf(white), ConfigOf(black),
                                  Budget(maxMoves));
      r := Ok(GameReport([first.value] + played, chess.result(board), |played|, white, black, chess.fen(board)));
    }
  }

  /**
   * The engine loop of `play_game` from `p0`, the configs of the two models
   * already looked up: it plays exactly `EngineLine`.
   */
  method Engine<P>(chess: PyChess<P>, p0: P, whiteConfig: map<string, Setting>, blackConfig: map<string, Setting>,
                   budget: nat) returns (board: P, played: seq<string>)
    ensures (board, played) == EngineLine(chess, p0, whiteConfig, blackConfig, budget)
    ensures |played| <= budget
  {
    board := p0;
    played := [];
    var moveCount: nat := 0;
    ghost var target := EngineLine(chess, p0, whiteConfig, blackConfig, budget);
    while !chess.isGameOver(board) && moveCount < budget
      invariant moveCount <= budget && |played| == moveCount
      invariant EngineLine(chess, board, whiteConfig, blackConfig, budget - moveCount).0 == target.0
      invariant played + EngineLine(chess, board, whiteConfig, blackConfig, budget - moveCount).1 == target.1
      decreases budget - moveCount
    {
      var config := if chess.turn(board) == Black then blackConfig else whiteConfig;
      var move := AiMove(chess, board, config);
      if move.None? {
        assert EngineLine(chess, board, whiteConfig, blackConfig, budget - moveCount) == (board, []);
        break;
      }
      ghost var rest := EngineLine(chess, chess.push(board, move.value), whiteConfig, blackConfig, budget - moveCount - 1);
      assert EngineLine(chess, board, whiteConfig, blackConfig, budget - moveCount) == (rest.0, [move.value] + rest.1);
      assert (played + [move.value]) + rest.1 == played + ([move.value] + rest.1);
      board := chess.push(board, move.value);
      played := played + [move.value];
      moveCount := moveCount + 1;
    }
    assert EngineLine(chess, board, whiteConfig, blackConfig, budget - moveCount) == (board, []);
    assert played + [] == played;
  }
}
