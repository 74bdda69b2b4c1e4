/**
 * The chess libraries the system delegates to (chess.js on the Node side,
 * python-chess on the Python side), seen only through their interfaces.
 * Legality, move parsing, notation and game-over detection are not modelled:
 * a library is a record of functions over an abstract position type `P`, and
 * every statement about the system holds for every such record.
 */
module ChessRules {
  import opened Wrappers

  datatype Color = White | Black {
    function Opponent(): (c: Color)
      ensures c != this
    {
      if this == White then Black else White
    }
  }

  /** Outcome of chess.js `move(text)`: the new position and the move's SAN, or a rejection. */
  datatype MoveOutcome<P> =
    | Played(pos: P, san: string)
    | Rejected   // `move` returned null
    | Threw      // `move` raised an exception

  /** chess.js, as used by the Node server and the browser code. */
  datatype ChessJs<!P> = ChessJs(
    moves: P -> seq<string>,                 // `moves()`: SAN of every legal move
    move: (P, string) -> MoveOutcome<P>,     // `move(text)`
    turn: P -> Color,                        // `turn()` ("w" / "b")
    isCheckmate: P -> bool,
    isStalemate: P -> bool,
    isDraw: P -> bool,
    isGameOver: P -> bool,
    fen: P -> string)

  /** python-chess, as used by the FastAPI backend. */
  datatype PyChess<!P> = PyChess(
    legalMoves: P -> seq<string>,            // `list(board.legal_moves)`
    parseSan: (P, string) -> Option<string>, // `board.parse_san(text)`; None when it raises
    push: (P, string) -> P,                  // `board.push(move)`
    turn: P -> Color,                        // `board.turn`
    isGameOver: P -> bool,                   // `board.is_game_over()`
    result: P -> string,                     // `board.result()`
    fen: P -> string)                        // `board.fen()`
}
