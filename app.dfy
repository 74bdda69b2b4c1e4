/**
 * The main client application (public/js/app.js): the professional board's
 * FEN reader, its move bookkeeping and move cursor, the status line, the
 * two-moves-per-line move lists, the PGN replay cursor and the guard in
 * front of a quick arena battle. The DOM is modelled as the map from square
 * names to the pieces drawn on them; styling, animation, sockets and toasts
 * are left out.
 */
module App {
  import opened Wrappers
  import opened Strings
  import Chessboard

  type Piece = Chessboard.Piece

  // ---------------------------------------------------------------------
  // FEN piece placement
  // ---------------------------------------------------------------------

  /**
   * `pieceMap`: the twelve FEN letters to glyphs. The element drawn for any
   * other character carries the `data-piece` text "undefined".
   */
  function PieceGlyph(c: char): string
  {
    match c
    case 'r' => Chessboard.BlackRook
    case 'n' => Chessboard.BlackKnight
    case 'b' => Chessboard.BlackBishop
    case 'q' => Chessboard.BlackQueen
    case 'k' => Chessboard.BlackKing
    case 'p' => Chessboard.BlackPawn
    case 'R' => Chessboard.WhiteRook
    case 'N' => Chessboard.WhiteKnight
    case 'B' => Chessboard.WhiteBishop
    case 'Q' => Chessboard.WhiteQueen
    case 'K' => Chessboard.WhiteKing
    case 'P' => Chessboard.WhitePawn
    case _ => "undefined"
  }

  /** `char === char.toUpperCase() ? "white" : "black"`: only lower-case letters are black. */
  function PieceColor(c: char): string
  {
    if IsLower(c) then "black" else "white"
  }

  /** `isNaN(char)`: a character that does not read as a number, hence a piece letter. */
  predicate IsPieceChar(c: char)
  {
    !IsDigit(c) && !IsWhitespace(c)
  }

  /**
   * The state of the scan inside one rank: the pieces drawn so far and
   * `fileIndex`, which is `None` once it has become NaN (a blank character
   * passes the `isNaN` test but `parseInt` of it is NaN).
   */
  datatype Scan = Scan(placed: Chessboard.Position, file: Option<nat>)

  /**
   * One character of a rank: a digit advances the file by its value; a piece
   * letter is drawn at the current file, when that names a square, and
   * advances the file by one.
   */
  function Step(s: Scan, c: char, rank: int): Scan
  {
    if IsPieceChar(c) then
      match s.file
      case None => s
      case Some(f) =>
        var placed := if f < 8 && 1 <= rank <= 8
          then s.placed[Chessboard.Square(f, rank) := Chessboard.Piece(PieceGlyph(c), PieceColor(c))]
          else s.placed;
        Scan(placed, Some(f + 1))
    else if IsDigit(c) then
      Scan(s.placed, if s.file.Some? then Some(s.file.value + DigitValue(c)) else None)
    else
      Scan(s.placed, None)
  }

  /** The scan of one rank, started at file 0 over the pieces already drawn. */
  function ScanRank(start: Chessboard.Position, rank: string, rankIndex: int): Scan
    decreases |rank|
  {
    if |rank| == 0 then Scan(start, Some(0))
    else Step(ScanRank(start, rank[..|rank| - 1], rankIndex), rank[|rank| - 1], rankIndex)
  }

  /** The ranks in order, the first on rank 8, the next on rank 7, and so on. */
  function ScanRanks(ranks: seq<string>): Chessboard.Position
    decreases |ranks|
  {
    if |ranks| == 0 then map[]
    else ScanRank(ScanRanks(ranks[..|ranks| - 1]), ranks[|ranks| - 1], 8 - (|ranks| - 1)).placed
  }

  /** The `/`-separated ranks of the first space-separated field of a FEN string. */
  function FenRanks(fen: string): seq<string>
  {
    Split(Split(fen, ' ')[0], '/')
  }

  /** The pieces `setPositionFromFen` draws. */
  function FenPlacement(fen: string): Chessboard.Position
  {
    ScanRanks(FenRanks(fen))
  }

  lemma ScanRankStep(start: Chessboard.Position, rank: string, rankIndex: int, j: nat)
    requires j < |rank|
    ensures ScanRank(start, rank[..j + 1], rankIndex) == Step(ScanRank(start, rank[..j], rankIndex), rank[j], rankIndex)
  {
    assert rank[..j + 1][..j] == rank[..j];
  }

  lemma ScanRanksStep(ranks: seq<string>, i: nat)
    requires i < |ranks|
    ensures ScanRanks(ranks[..i + 1]) == ScanRank(ScanRanks(ranks[..i]), ranks[i], 8 - i).placed
  {
    assert ranks[..i + 1][..i] == ranks[..i];
  }

  /** A square name drawn by the scan: a file letter a–h and a rank digit 1–8. */
  predicate OnBoard(square: string)
  {
    Chessboard.FileCode(square).Some? && 97 <= Chessboard.FileCode(square).value < 105 &&
    Chessboard.RankOf(square).Some? && 1 <= Chessboard.RankOf(square).value <= 8
  }

  /**
   * Scanning a rank draws only on that rank: the pieces drawn before stay
   * where they were, every square of another rank is untouched, and every
   * new square is on the board.
   */
  lemma {:induction false} ScanRankFrame(start: Chessboard.Position, rank: string, rankIndex: int)
    ensures var placed := ScanRank(start, rank, rankIndex).placed;
      start.Keys <= placed.Keys &&
      (forall k :: k in placed && k !in start ==> OnBoard(k) && Chessboard.RankOf(k) == Some(rankIndex)) &&
      (forall k :: k in start && Chessboard.RankOf(k) != Some(rankIndex) ==> placed[k] == start[k])
    decreases |rank|
  {
    if |rank| > 0 {
      ScanRankFrame(start, rank[..|rank| - 1], rankIndex);
    }
  }

  lemma KeptByOtherRank(start: Chessboard.Position, rank: string, rankIndex: int, square: string)
    requires square in start && Chessboard.RankOf(square) != Some(rankIndex)
    ensures var placed := ScanRank(start, rank, rankIndex).placed;
      square in placed && placed[square] == start[square]
  {
    ScanRankFrame(start, rank, rankIndex);
  }

  /** Every piece `setPositionFromFen` draws stands on one of the 64 squares. */
  lemma {:induction false} ScanRanksOnBoard(ranks: seq<string>)
    ensures forall k :: k in ScanRanks(ranks) ==> OnBoard(k)
    decreases |ranks|
  {
    if |ranks| > 0 {
      var n := |ranks| - 1;
      ScanRanksOnBoard(ranks[..n]);
      ScanRankFrame(ScanRanks(ranks[..n]), ranks[n], 8 - n);
    }
  }

  /** A rank of digits draws nothing and moves the file on by the sum of its digits. */
  lemma {:induction false} DigitRank(start: Chessboard.Position, rank: string, rankIndex: int)
    requires AllDigits(rank)
    ensures ScanRank(start, rank, rankIndex) == Scan(start, Some(DigitSum(rank)))
    decreases |rank|
  {
    if |rank| > 0 {
      DigitRank(start, rank[..|rank| - 1], rankIndex);
    }
  }

  /** The sum of the digits of a string, from its last character back. */
  function DigitSum(s: string): nat
    requires AllDigits(s)
    decreases |s|
  {
    if |s| == 0 then 0 else DigitSum(s[..|s| - 1]) + DigitValue(s[|s| - 1])
  }

  /** The letters of `rank` stand, one per file from a, on rank `rankIndex` of `position`. */
  ghost predicate Drawn(position: Chessboard.Position, rank: string, rankIndex: int)
    requires |rank| <= 8 && 1 <= rankIndex <= 8
  {
    forall f :: 0 <= f < |rank| ==>
      Chessboard.Square(f, rankIndex) in position &&
      position[Chessboard.Square(f, rankIndex)] == Chessboard.Piece(PieceGlyph(rank[f]), PieceColor(rank[f]))
  }

  /**
   * A rank of at most eight piece letters draws the i-th letter's piece on
   * file i and leaves the file just after the last letter.
   */
  lemma {:induction false} LetterRank(start: Chessboard.Position, rank: string, rankIndex: int)
    requires |rank| <= 8 && 1 <= rankIndex <= 8
    requires forall i :: 0 <= i < |rank| ==> IsPieceChar(rank[i])
    ensures ScanRank(start, rank, rankIndex).file == Some(|rank|)
    ensures Drawn(ScanRank(start, rank, rankIndex).placed, rank, rankIndex)
    decreases |rank|
  {
    if |rank| > 0 {
      var n := |rank| - 1;
      var init := rank[..n];
      LetterRank(start, init, rankIndex);
      var prev := ScanRank(start, init, rankIndex);
      var last := Chessboard.Square(n, rankIndex);
      var placed := prev.placed[last := Chessboard.Piece(PieceGlyph(rank[n]), PieceColor(rank[n]))];
      assert ScanRank(start, rank, rankIndex) == Scan(placed, Some(n + 1));
      forall i | 0 <= i < n
        ensures Chessboard.Square(i, rankIndex) in placed
        ensures placed[Chessboard.Square(i, rankIndex)] == Chessboard.Piece(PieceGlyph(rank[i]), PieceColor(rank[i]))
      {
        assert init[i] == rank[i];
        assert Chessboard.FileCode(Chessboard.Square(i, rankIndex)) != Chessboard.FileCode(last);
      }
    }
  }

  /**
   * The ranks are drawn from rank 8 downwards: the i-th rank of at most
   * eight piece letters ends up, letter by letter, on rank 8 - i, and the
   * ranks after it do not disturb it.
   */
  lemma {:induction false} RankOrder(ranks: seq<string>, i: nat)
    requires i < |ranks| <= 8
    requires |ranks[i]| <= 8 && forall f :: 0 <= f < |ranks[i]| ==> IsPieceChar(ranks[i][f])
    ensures Drawn(ScanRanks(ranks), ranks[i], 8 - i)
    decreases |ranks|
  {
    var n := |ranks| - 1;
    var before := ScanRanks(ranks[..n]);
    var after := ScanRank(before, ranks[n], 8 - n).placed;
    assert ScanRanks(ranks) == after;
    if i == n {
      LetterRank(before, ranks[n], 8 - n);
      assert Drawn(after, ranks[i], 8 - i);
    } else {
      var rank := ranks[i];
      assert ranks[..n][i] == rank;
      RankOrder(ranks[..n], i);
      forall f | 0 <= f < |rank|
        ensures Chessboard.Square(f, 8 - i) in after
        ensures after[Chessboard.Square(f, 8 - i)] == Chessboard.Piece(PieceGlyph(rank[f]), PieceColor(rank[f]))
      {
        var square := Chessboard.Square(f, 8 - i);
        assert square in before && before[square] == Chessboard.Piece(PieceGlyph(rank[f]), PieceColor(rank[f]));
        assert Chessboard.RankOf(square) != Some(8 - n);
        KeptByOtherRank(before, ranks[n], 8 - n, square);
      }
      assert Drawn(after, rank, 8 - i);
    }
  }

  // ---------------------------------------------------------------------
  // The status line and the move lists
  // ---------------------------------------------------------------------

  /** `updateGameStatus`: whose turn it is and the current move number. */
  function Status(moveCount: nat): string
  {
    (if moveCount % 2 == 0 then "Brancas" else "Pretas") + " jogam - Lance " + NatToString(moveCount / 2 + 1)
  }

  /**
   * White is to move exactly after an even number of half-moves; a white
   * half-move keeps the move number and a black one raises it by one.
   */
  lemma StatusTurns(moveCount: nat)
    ensures StartsWith(Status(moveCount), "Brancas") <==> moveCount % 2 == 0
    ensures EndsWith(Status(moveCount), NatToString(moveCount / 2 + 1))
    ensures moveCount % 2 == 0 ==> (moveCount + 1) / 2 + 1 == moveCount / 2 + 1
    ensures moveCount % 2 == 1 ==> (moveCount + 1) / 2 + 1 == moveCount / 2 + 2
  {
    var s := Status(moveCount);
    var tail := " jogam - Lance " + NatToString(moveCount / 2 + 1);
    if moveCount % 2 == 0 {
      assert s == "Brancas" + tail;
      assert s[..7] == "Brancas";
    } else {
      assert s == "Pretas" + tail;
      assert s[6] == ' ';
      assert s[..7] != "Brancas" by { assert s[..7][6] != "Brancas"[6]; }
    }
    assert s[|s| - |NatToString(moveCount / 2 + 1)|..] == NatToString(moveCount / 2 + 1);
  }

  /** One line of a move list: its number, the white half-move and the black one. */
  datatype MoveLine = MoveLine(number: nat, white: string, black: string)

  /** Two half-moves per line, numbered from `number`; an odd list ends with an empty black slot. */
  function Pairing(moves: seq<string>, number: nat): seq<MoveLine>
    decreases |moves|
  {
    if |moves| == 0 then []
    else if |moves| == 1 then [MoveLine(number, moves[0], "")]
    else [MoveLine(number, moves[0], moves[1])] + Pairing(moves[2..], number + 1)
  }

  /** Line k holds half-moves 2k and 2k+1 under the number k+1 (from 1). */
  lemma {:induction false} PairingLines(moves: seq<string>, number: nat)
    ensures |Pairing(moves, number)| == (|moves| + 1) / 2
    ensures forall k :: 0 <= k < (|moves| + 1) / 2 ==>
      Pairing(moves, number)[k] ==
        MoveLine(number + k, moves[2 * k], if 2 * k + 1 < |moves| then moves[2 * k + 1] else "")
    decreases |moves|
  {
    if |moves| >= 2 {
      PairingLines(moves[2..], number + 1);
      forall k | 1 <= k < (|moves| + 1) / 2
        ensures Pairing(moves, number)[k] ==
          MoveLine(number + k, moves[2 * k], if 2 * k + 1 < |moves| then moves[2 * k + 1] else "")
      {
        assert Pairing(moves, number)[k] == Pairing(moves[2..], number + 1)[k - 1];
      }
    }
  }

  /** The half-moves of a move list read line by line, white before black. */
  function Unpair(lines: seq<MoveLine>): seq<string>
  {
    if |lines| == 0 then [] else [lines[0].white, lines[0].black] + Unpair(lines[1..])
  }

  /** Reading the lines back gives the moves, followed by the empty slot of an odd list. */
  lemma {:induction false} UnpairPairing(moves: seq<string>, number: nat)
    ensures Unpair(Pairing(moves, number)) == if |moves| % 2 == 0 then moves else moves + [""]
    decreases |moves|
  {
    if |moves| >= 2 {
      UnpairPairing(moves[2..], number + 1);
      assert moves == [moves[0], moves[1]] + moves[2..];
    }
  }

  /**
   * `updateMoveHistory`: the loop with step 2 that writes the move list
   * line by line.
   */
  method MoveLines(moves: seq<string>) returns (lines: seq<MoveLine>)
    ensures lines == Pairing(moves, 1)
  {
    lines := [];
    var i := 0;
    while i < |moves|
      invariant i % 2 == 0 && 0 <= i <= |moves| + 1
      invariant |lines| == i / 2
      invariant forall k :: 0 <= k < i / 2 ==>
        lines[k] == MoveLine(k + 1, moves[2 * k], if 2 * k + 1 < |moves| then moves[2 * k + 1] else "")
    {
      var whiteMove := moves[i];
      var blackMove := if i + 1 < |moves| then moves[i + 1] else "";
      lines := lines + [MoveLine(i / 2 + 1, whiteMove, blackMove)];
      i := i + 2;
    }
    PairingLines(moves, 1);
  }

  // ---------------------------------------------------------------------
  // Starting a quick battle
  // ---------------------------------------------------------------------

  /** `startArenaBattle`'s guard: the warning shown, or `None` to go on. */
  function BattleRefusal(whiteModel: string, blackModel: string): (r: Option<string>)
  {
    if whiteModel == "" || blackModel == "" then Some("Por favor, selecione ambos os modelos.")
    else if whiteModel == blackModel then Some("Os modelos devem ser diferentes.")
    else None
  }

  /** A battle starts exactly between two chosen, different models. */
  lemma BattleRefusalCases(whiteModel: string, blackModel: string)
    ensures BattleRefusal(whiteModel, blackModel).None? <==>
      whiteModel != "" && blackModel != "" && whiteModel != blackModel
    ensures whiteModel == blackModel && whiteModel != "" ==>
      BattleRefusal(whiteModel, blackModel) == Some("Os modelos devem ser diferentes.")
  {
  }

  // ---------------------------------------------------------------------
  // PGN replay cursor
  // ---------------------------------------------------------------------

  /** `Math.max(0, Math.min(moveNumber, totalMoves))`. */
  function Clamp(moveNumber: int, totalMoves: nat): (c: nat)
    ensures c <= totalMoves
    ensures 0 <= moveNumber <= totalMoves ==> c == moveNumber
    ensures moveNumber < 0 ==> c == 0
    ensures moveNumber > totalMoves ==> c == totalMoves
  {
    if moveNumber < 0 then 0 else if moveNumber > totalMoves then totalMoves else moveNumber
  }

  /**
   * The replay buttons: a clamped cursor stays put under a second clamp,
   * "previous" stops at 0 and "next" stops at the last move.
   */
  lemma ClampButtons(cursor: nat, totalMoves: nat)
    requires cursor <= totalMoves
    ensures Clamp(cursor, totalMoves) == cursor
    ensures Clamp(cursor - 1, totalMoves) == if cursor == 0 then 0 else cursor - 1
    ensures Clamp(cursor + 1, totalMoves) == if cursor == totalMoves then totalMoves else cursor + 1
    ensures forall n :: Clamp(Clamp(n, totalMoves), totalMoves) == Clamp(n, totalMoves)
  {
  }

  /** The PGN replay of the arena page: the loaded game's moves and the cursor. */
  class PgnReplay {
    var pgnMoves: Option<seq<string>>
    var currentPgnMove: int

    constructor()
      ensures pgnMoves == None && currentPgnMove == 0
    {
      pgnMoves := None;
      currentPgnMove := 0;
    }

    /** `loadPgnGame` after a successful request: the game is shown from its start. */
    method Load(moves: seq<string>)
      modifies this
      ensures pgnMoves == Some(moves) && currentPgnMove == 0
    {
      pgnMoves := Some(moves);
      currentPgnMove := 0;
    }

    /** `goToPgnMove`: nothing without a game, otherwise the clamped cursor. */
    method GoToPgnMove(moveNumber: int)
      modifies this
      ensures pgnMoves == old(pgnMoves)
      ensures old(pgnMoves).None? ==> currentPgnMove == old(currentPgnMove)
      ensures old(pgnMoves).Some? ==>
        currentPgnMove == Clamp(moveNumber, |old(pgnMoves).value|) &&
        0 <= currentPgnMove <= |old(pgnMoves).value|
    {
      if pgnMoves.None? {
        return;
      }
      var totalMoves := |pgnMoves.value|;
      currentPgnMove := Clamp(moveNumber, totalMoves);
    }
  }

  // ---------------------------------------------------------------------
  // The professional board
  // ---------------------------------------------------------------------

  /** An entry of `moveHistory`; the timestamp is `Date.now()`, passed in. */
  datatype HistoryEntry = HistoryEntry(from: string, to: string, capture: bool, timestamp: int)

  class ProfessionalChessboard {
    /** The pieces drawn on the squares of the board. */
    var shown: Chessboard.Position
    var gamePosition: Chessboard.Position
    var moveHistory: seq<HistoryEntry>
    var currentMove: int
    var isFlipped: bool
    var selectedSquare: Option<string>

    /** The cursor lies within the history. */
    predicate CursorValid()
      reads this
    {
      0 <= currentMove <= |moveHistory|
    }

    /** A new board: the starting position, drawn and stored, and an empty history. */
    constructor()
      ensures shown == Chessboard.Initial() && gamePosition == Chessboard.Initial()
      ensures moveHistory == [] && currentMove == 0 && !isFlipped && selectedSquare == None
      ensures CursorValid()
    {
      shown := Chessboard.Initial();
      gamePosition := Chessboard.Initial();
      moveHistory := [];
      currentMove := 0;
      isFlipped := false;
      selectedSquare := None;
    }

    /**
     * `setPositionFromFen`: clears the squares and draws the FEN's pieces,
     * rank by rank from rank 8 and character by character from file a. The
     * stored `gamePosition` is not touched.
     */
    method SetPositionFromFen(fen: string)
      modifies this
      ensures shown == FenPlacement(fen)
      ensures gamePosition == old(gamePosition) && moveHistory == old(moveHistory)
      ensures currentMove == old(currentMove) && isFlipped == old(isFlipped) && selectedSquare == old(selectedSquare)
    {
      var fenParts := Split(fen, ' ');
      var boardState := fenParts[0];
      var ranks := Split(boardState, '/');
      var placed: Chessboard.Position := map[];
      var rankIndex := 8;
      var i := 0;
      while i < |ranks|
        invariant 0 <= i <= |ranks| && rankIndex == 8 - i
        modifies {}
        invariant placed == ScanRanks(ranks[..i])
      {
        var rank := ranks[i];
        var start := placed;
        var fileIndex: Option<nat> := Some(0);
        var j := 0;
        while j < |rank|
          invariant 0 <= j <= |rank|
          invariant Scan(placed, fileIndex) == ScanRank(start, rank[..j], rankIndex)
        {
          ScanRankStep(start, rank, rankIndex, j);
          var c := rank[j];
          if IsPieceChar(c) {
            if fileIndex.Some? {
              if fileIndex.value < 8 && 1 <= rankIndex <= 8 {
                var squareId := Chessboard.Square(fileIndex.value, rankIndex);
                placed := placed[squareId := Chessboard.Piece(PieceGlyph(c), PieceColor(c))];
              }
              fileIndex := Some(fileIndex.value + 1);
            }
          } else if IsDigit(c) {
            if fileIndex.Some? {
              fileIndex := Some(fileIndex.value + DigitValue(c));
            }
          } else {
            fileIndex := None;
          }
          j := j + 1;
        }
        assert rank[..|rank|] == rank;
        ScanRanksStep(ranks, i);
        rankIndex := rankIndex - 1;
        i := i + 1;
      }
      assert ranks[..|ranks|] == ranks;
      shown := placed;
    }

    /**
     * `attemptMove` once its timers have run: nothing but a cleared
     * selection from an empty square; otherwise the piece is drawn on the
     * target (a piece already there is removed), the move is recorded with
     * its capture flag, the cursor goes to the end and `gamePosition` moves
     * the piece too.
     */
    method AttemptMove(from: string, to: string, now: int)
      modifies this
      ensures selectedSquare == None && isFlipped == old(isFlipped)
      ensures from !in old(shown) ==>
        shown == old(shown) && gamePosition == old(gamePosition) &&
        moveHistory == old(moveHistory) && currentMove == old(currentMove)
      ensures from in old(shown) ==>
        shown == old(shown)[to := old(shown)[from]] - {from} &&
        gamePosition == (old(gamePosition) - {from})[to := old(shown)[from]] &&
        moveHistory == old(moveHistory) + [HistoryEntry(from, to, to in old(shown), now)] &&
        currentMove == |moveHistory|
      ensures from in old(shown) && from != to ==>
        to in gamePosition && gamePosition[to] == old(shown)[from] && from !in gamePosition &&
        to in shown && from !in shown
      ensures old(CursorValid()) ==> CursorValid()
    {
      if from !in shown {
        selectedSquare := None;
        return;
      }
      var piece := shown[from];
      var isCapture := to in shown;
      shown := shown[to := piece] - {from};
      AddToHistory(from, to, isCapture, now);
      gamePosition := (gamePosition - {from})[to := piece];
      selectedSquare := None;
    }

    /** `addToHistory`: one more entry, and the cursor on it. */
    method AddToHistory(from: string, to: string, isCapture: bool, now: int)
      modifies this
      ensures moveHistory == old(moveHistory) + [HistoryEntry(from, to, isCapture, now)]
      ensures currentMove == |moveHistory| && CursorValid()
      ensures shown == old(shown) && gamePosition == old(gamePosition)
      ensures isFlipped == old(isFlipped) && selectedSquare == old(selectedSquare)
    {
      moveHistory := moveHistory + [HistoryEntry(from, to, isCapture, now)];
      currentMove := |moveHistory|;
    }

    /** `goToStart`: the cursor to 0 when there is any history. */
    method GoToStart()
      modifies this
      ensures currentMove == if |moveHistory| > 0 then 0 else old(currentMove)
      ensures moveHistory == old(moveHistory) && shown == old(shown) && gamePosition == old(gamePosition)
      ensures old(CursorValid()) ==> CursorValid()
    {
      if |moveHistory| > 0 {
        currentMove := 0;
      }
    }

    /** `previousMove`: one back, never below 0. */
    method PreviousMove()
      modifies this
      ensures currentMove == if old(currentMove) > 0 then old(currentMove) - 1 else old(currentMove)
      ensures moveHistory == old(moveHistory) && shown == old(shown) && gamePosition == old(gamePosition)
      ensures old(CursorValid()) ==> CursorValid()
    {
      if currentMove > 0 {
        currentMove := currentMove - 1;
      }
    }

    /** `nextMove`: one forward, never past the end of the history. */
    method NextMove()
      modifies this
      ensures currentMove == if old(currentMove) < |moveHistory| then old(currentMove) + 1 else old(currentMove)
      ensures moveHistory == old(moveHistory) && shown == old(shown) && gamePosition == old(gamePosition)
      ensures old(CursorValid()) ==> CursorValid()
    {
      if currentMove < |moveHistory| {
        currentMove := currentMove + 1;
      }
    }

    /** `goToEnd`: the cursor to the length of the history when there is any. */
    method GoToEnd()
      modifies this
      ensures currentMove == if |moveHistory| > 0 then |moveHistory| else old(currentMove)
      ensures moveHistory == old(moveHistory) && shown == old(shown) && gamePosition == old(gamePosition)
      ensures old(CursorValid()) ==> CursorValid()
    {
      if |moveHistory| > 0 {
        currentMove := |moveHistory|;
      }
    }

    /** `flipBoard`: the orientation toggles; nothing else changes. */
    method FlipBoard()
      modifies this
      ensures isFlipped == !old(isFlipped)
      ensures shown == old(shown) && gamePosition == old(gamePosition)
      ensures moveHistory == old(moveHistory) && currentMove == old(currentMove)
    {
      isFlipped := !isFlipped;
    }

    /** `updateGameStatus`: the status line for the recorded half-moves. */
    function GameStatus(): (s: string)
      reads this
      ensures StartsWith(s, "Brancas") <==> |moveHistory| % 2 == 0
    {
      StatusTurns(|moveHistory|);
      Status(|moveHistory|)
    }
  }
}
