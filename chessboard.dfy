/**
 * The simplified board of the client (public/js/chessboard.js): the
 * position map, the move-geometry predicates that ignore blockers, moves
 * and their history, the list of reachable squares, the move notation,
 * square colouring and the event registry. Rendering, animation and sound
 * are left out.
 */
module Chessboard {
  import opened Wrappers
  import opened Strings
  import Utils

  // ---------------------------------------------------------------------
  // Pieces and positions
  // ---------------------------------------------------------------------

  /** A piece as the board stores it: its Unicode glyph and its colour name. */
  datatype Piece = Piece(glyph: string, color: string)

  datatype Kind = King | Queen | Rook | Bishop | Knight | Pawn

  const WhiteKing := "\U{2654}"
  const WhiteQueen := "\U{2655}"
  const WhiteRook := "\U{2656}"
  const WhiteBishop := "\U{2657}"
  const WhiteKnight := "\U{2658}"
  const WhitePawn := "\U{2659}"
  const BlackKing := "\U{265A}"
  const BlackQueen := "\U{265B}"
  const BlackRook := "\U{265C}"
  const BlackBishop := "\U{265D}"
  const BlackKnight := "\U{265E}"
  const BlackPawn := "\U{265F}"

  /** The kind a glyph stands for, of either colour; `None` for any other string. */
  function KindOf(glyph: string): Option<Kind>
  {
    if glyph == WhiteKing || glyph == BlackKing then Some(King)
    else if glyph == WhiteQueen || glyph == BlackQueen then Some(Queen)
    else if glyph == WhiteRook || glyph == BlackRook then Some(Rook)
    else if glyph == WhiteBishop || glyph == BlackBishop then Some(Bishop)
    else if glyph == WhiteKnight || glyph == BlackKnight then Some(Knight)
    else if glyph == WhitePawn || glyph == BlackPawn then Some(Pawn)
    else None
  }

  /** Square names to pieces; an absent key is an empty square. */
  type Position = map<string, Piece>

  /** `getPiece`. */
  function PieceAt(position: Position, square: string): Option<Piece>
  {
    if square in position then Some(position[square]) else None
  }

  /** `INITIAL_POSITION`: the standard starting placement. */
  function Initial(): Position
  {
    map[
      "a8" := Piece(BlackRook, "black"), "b8" := Piece(BlackKnight, "black"),
      "c8" := Piece(BlackBishop, "black"), "d8" := Piece(BlackQueen, "black"),
      "e8" := Piece(BlackKing, "black"), "f8" := Piece(BlackBishop, "black"),
      "g8" := Piece(BlackKnight, "black"), "h8" := Piece(BlackRook, "black"),
      "a7" := Piece(BlackPawn, "black"), "b7" := Piece(BlackPawn, "black"),
      "c7" := Piece(BlackPawn, "black"), "d7" := Piece(BlackPawn, "black"),
      "e7" := Piece(BlackPawn, "black"), "f7" := Piece(BlackPawn, "black"),
      "g7" := Piece(BlackPawn, "black"), "h7" := Piece(BlackPawn, "black"),
      "a1" := Piece(WhiteRook, "white"), "b1" := Piece(WhiteKnight, "white"),
      "c1" := Piece(WhiteBishop, "white"), "d1" := Piece(WhiteQueen, "white"),
      "e1" := Piece(WhiteKing, "white"), "f1" := Piece(WhiteBishop, "white"),
      "g1" := Piece(WhiteKnight, "white"), "h1" := Piece(WhiteRook, "white"),
      "a2" := Piece(WhitePawn, "white"), "b2" := Piece(WhitePawn, "white"),
      "c2" := Piece(WhitePawn, "white"), "d2" := Piece(WhitePawn, "white"),
      "e2" := Piece(WhitePawn, "white"), "f2" := Piece(WhitePawn, "white"),
      "g2" := Piece(WhitePawn, "white"), "h2" := Piece(WhitePawn, "white")
    ]
  }

  lemma InitialPlacement()
    ensures PieceAt(Initial(), "e1") == Some(Piece(WhiteKing, "white"))
    ensures PieceAt(Initial(), "e4") == None
  {
  }

  // ---------------------------------------------------------------------
  // Coordinates, with NaN as None
  // ---------------------------------------------------------------------

  /** `charCodeAt(0)`: NaN for the empty string. */
  function FileCode(square: string): Option<int>
  {
    if |square| == 0 then None else Some(square[0] as int)
  }

  /** `parseInt(square[1])`: NaN when there is no second character or it is no digit. */
  function RankOf(square: string): Option<int>
  {
    if |square| < 2 then None else Utils.ParseDigit(square[1])
  }

  function Minus(a: Option<int>, b: Option<int>): Option<int>
  {
    if a.Some? && b.Some? then Some(a.value - b.value) else None
  }

  function Abs(a: Option<int>): (r: Option<int>)
    ensures r.Some? <==> a.Some?
    ensures r.Some? ==> r.value >= 0 && (r.value == a.value || r.value == -a.value)
  {
    if a.Some? then Some(if a.value < 0 then -a.value else a.value) else None
  }

  /** `x <= k`, false for NaN. */
  predicate AtMost(a: Option<int>, k: int)
  {
    a.Some? && a.value <= k
  }

  // ---------------------------------------------------------------------
  // Move geometry
  // ---------------------------------------------------------------------

  /**
   * `isPieceMovementValid`: the shape of the move for each kind, ignoring
   * pieces in between; pawns go to `isValidPawnMove`, unknown glyphs never move.
   */
  predicate MovementValid(position: Position, from: string, to: string, piece: Piece)
  {
    var fileDiff := Abs(Minus(FileCode(to), FileCode(from)));
    var rankDiff := Abs(Minus(RankOf(to), RankOf(from)));
    match KindOf(piece.glyph)
    case Some(Pawn) => PawnMoveValid(position, from, to, piece)
    case Some(Rook) => fileDiff == Some(0) || rankDiff == Some(0)
    case Some(Bishop) => fileDiff.Some? && fileDiff == rankDiff
    case Some(Queen) => fileDiff == Some(0) || rankDiff == Some(0) || (fileDiff.Some? && fileDiff == rankDiff)
    case Some(King) => AtMost(fileDiff, 1) && AtMost(rankDiff, 1)
    case Some(Knight) => (fileDiff == Some(2) && rankDiff == Some(1)) || (fileDiff == Some(1) && rankDiff == Some(2))
    case None => false
  }

  /**
   * `isValidPawnMove`: one rank forward onto an empty square, two from the
   * starting rank over two empty squares, or one file diagonally forward onto
   * an occupied square.
   */
  predicate PawnMoveValid(position: Position, from: string, to: string, piece: Piece)
  {
    var isWhite := piece.color == "white";
    var direction := if isWhite then 1 else -1;
    var startRank := if isWhite then 2 else 7;
    var fileDiff := Abs(Minus(FileCode(to), FileCode(from)));
    var rankDiff := Minus(RankOf(to), RankOf(from));
    if fileDiff == Some(0) && rankDiff == Some(direction) then to !in position
    else if fileDiff == Some(0) && rankDiff == Some(2 * direction) && RankOf(from) == Some(startRank) then
      to !in position && [from[0]] + IntToString(startRank + direction) !in position
    else fileDiff == Some(1) && rankDiff == Some(direction) && to in position
  }

  /**
   * `isValidMove`: never onto the same square, never from an empty square,
   * never onto a piece of the mover's colour; otherwise the geometry decides.
   */
  predicate ValidMove(position: Position, from: string, to: string)
  {
    from != to && from in position &&
    !(to in position && position[to].color == position[from].color) &&
    MovementValid(position, from, to, position[from])
  }

  /** The three refusals of `isValidMove` come before any geometry. */
  lemma ValidMoveRefusals(position: Position, from: string, to: string)
    ensures from == to ==> !ValidMove(position, from, to)
    ensures from !in position ==> !ValidMove(position, from, to)
    ensures from in position && to in position && position[to].color == position[from].color ==> !ValidMove(position, from, to)
    ensures from != to && from in position && to !in position ==>
      (ValidMove(position, from, to) <==> MovementValid(position, from, to, position[from]))
  {
  }

  /** A square of the board named by file index 0..7 and rank 1..8. */
  function Square(file: nat, rank: nat): (s: string)
    requires file < 8 && 1 <= rank <= 8
    ensures FileCode(s) == Some(97 + file) && RankOf(s) == Some(rank)
  {
    assert NatToString(rank) == [DigitChar(rank)];
    [(97 + file) as char] + NatToString(rank)
  }

  /**
   * Geometry on the board for every kind but the pawn: rook lines, bishop
   * diagonals, the queen's union of both, the king's neighbourhood and the
   * knight's L.
   */
  lemma Geometry(position: Position, f1: nat, r1: nat, f2: nat, r2: nat, piece: Piece)
    requires f1 < 8 && f2 < 8 && 1 <= r1 <= 8 && 1 <= r2 <= 8
    ensures var df := if f1 < f2 then f2 - f1 else f1 - f2;
      var dr := if r1 < r2 then r2 - r1 else r1 - r2;
      var valid := MovementValid(position, Square(f1, r1), Square(f2, r2), piece);
      (KindOf(piece.glyph) == Some(Rook) ==> (valid <==> df == 0 || dr == 0)) &&
      (KindOf(piece.glyph) == Some(Bishop) ==> (valid <==> df == dr)) &&
      (KindOf(piece.glyph) == Some(Queen) ==> (valid <==> df == 0 || dr == 0 || df == dr)) &&
      (KindOf(piece.glyph) == Some(King) ==> (valid <==> df <= 1 && dr <= 1)) &&
      (KindOf(piece.glyph) == Some(Knight) ==> (valid <==> (df == 2 && dr == 1) || (df == 1 && dr == 2))) &&
      (KindOf(piece.glyph).None? ==> !valid)
  {
  }

  /**
   * Pawns on the board: a move is valid only one or two ranks forward in the
   * pawn's own direction; two ranks only from rank 2 (white) or 7 (black)
   * over two empty squares; a sideways step only as a diagonal capture.
   */
  lemma PawnGeometry(position: Position, f1: nat, r1: nat, f2: nat, r2: nat, piece: Piece)
    requires f1 < 8 && f2 < 8 && 1 <= r1 <= 8 && 1 <= r2 <= 8
    requires KindOf(piece.glyph) == Some(Pawn)
    ensures var from, to := Square(f1, r1), Square(f2, r2);
      var direction := if piece.color == "white" then 1 else -1;
      MovementValid(position, from, to, piece) <==>
        (f1 == f2 && r2 == r1 + direction && to !in position) ||
        (f1 == f2 && r2 == r1 + 2 * direction && r1 == (if piece.color == "white" then 2 else 7) &&
          to !in position && Square(f1, r1 + direction) !in position) ||
        ((f2 == f1 + 1 || f1 == f2 + 1) && r2 == r1 + direction && to in position)
  {
    var from := Square(f1, r1);
    var direction := if piece.color == "white" then 1 else -1;
    if f1 == f2 && r2 == r1 + 2 * direction && r1 == (if piece.color == "white" then 2 else 7) {
      var middle := r1 + direction;
      assert [from[0]] + IntToString(middle) == Square(f1, middle);
    }
  }

  /** Rooks, bishops, queens, kings and knights can move back the way they came. */
  lemma MovementSymmetric(position: Position, from: string, to: string, piece: Piece)
    requires KindOf(piece.glyph).Some? && KindOf(piece.glyph) != Some(Pawn)
    ensures MovementValid(position, from, to, piece) == MovementValid(position, to, from, piece)
  {
  }

  // ---------------------------------------------------------------------
  // Reachable squares
  // ---------------------------------------------------------------------

  /** The squares in the order `calculatePossibleMoves` visits them: file by file, rank 1 to 8. */
  function AllSquares(): (s: seq<string>)
    ensures |s| == 64
  {
    seq(64, k requires 0 <= k < 64 => Square(k / 8, k % 8 + 1))
  }

  /** The squares of `squares` a piece on `from` may move to, in order. */
  function ValidTargets(position: Position, from: string, squares: seq<string>): (r: seq<string>)
    ensures |r| <= |squares|
  {
    if |squares| == 0 then []
    else
      var last := squares[|squares| - 1];
      ValidTargets(position, from, squares[..|squares| - 1]) + (if ValidMove(position, from, last) then [last] else [])
  }

  /** A square is a target exactly when it is scanned and `isValidMove` accepts it. */
  lemma {:induction false} ValidTargetsMembers(position: Position, from: string, squares: seq<string>)
    ensures forall s :: s in ValidTargets(position, from, squares) <==> s in squares && ValidMove(position, from, s)
    decreases |squares|
  {
    if |squares| > 0 {
      var init := squares[..|squares| - 1];
      ValidTargetsMembers(position, from, init);
      assert squares == init + [squares[|squares| - 1]];
    }
  }

  lemma ValidTargetsStep(position: Position, from: string, squares: seq<string>, k: nat)
    requires k < |squares|
    ensures ValidTargets(position, from, squares[..k + 1])
      == ValidTargets(position, from, squares[..k]) + (if ValidMove(position, from, squares[k]) then [squares[k]] else [])
  {
    assert squares[..k + 1][..k] == squares[..k];
  }

  /** An empty square has no targets: `calculatePossibleMoves` returns `[]` for it. */
  lemma {:induction false} NoTargetsFromEmpty(position: Position, from: string, squares: seq<string>)
    requires from !in position
    ensures ValidTargets(position, from, squares) == []
    decreases |squares|
  {
    if |squares| > 0 {
      NoTargetsFromEmpty(position, from, squares[..|squares| - 1]);
    }
  }

  /** Every square of the board is one of the 64, and these are a1 … h8. */
  lemma AllSquaresCover(file: nat, rank: nat)
    requires file < 8 && 1 <= rank <= 8
    ensures Square(file, rank) in AllSquares()
    ensures AllSquares()[8 * file + rank - 1] == Square(file, rank)
  {
    var k := 8 * file + rank - 1;
    assert k / 8 == file && k % 8 + 1 == rank;
    assert AllSquares()[k] == Square(file, rank);
  }

  /** Visiting one more square of the scan extends the targets by that square if it is valid. */
  lemma VisitSquare(position: Position, from: string, file: nat, rank: nat)
    requires file < 8 && 1 <= rank <= 8
    ensures var all, k, target := AllSquares(), 8 * file + rank - 1, Square(file, rank);
      ValidTargets(position, from, all[..k + 1])
        == ValidTargets(position, from, all[..k]) + (if ValidMove(position, from, target) then [target] else [])
  {
    AllSquaresCover(file, rank);
    ValidTargetsStep(position, from, AllSquares(), 8 * file + rank - 1);
  }

  // ---------------------------------------------------------------------
  // Notation
  // ---------------------------------------------------------------------

  /** `getPieceSymbol`: K, Q, R, B, N, and nothing for pawns and unknown glyphs. */
  function Symbol(glyph: string): (s: string)
    ensures |s| <= 1
  {
    match KindOf(glyph)
    case Some(King) => "K"
    case Some(Queen) => "Q"
    case Some(Rook) => "R"
    case Some(Bishop) => "B"
    case Some(Knight) => "N"
    case _ => ""
  }

  /** `getMoveNotation`: symbol, "x" onto an occupied square, then the target. */
  function Notation(position: Position, to: string, piece: Piece): string
  {
    Symbol(piece.glyph) + (if to in position then "x" else "") + to
  }

  /** The notation ends with the target, and an "x" stands before it exactly for a capture. */
  lemma NotationParts(position: Position, to: string, piece: Piece)
    ensures var n := Notation(position, to, piece);
      EndsWith(n, to) && |n| == |Symbol(piece.glyph)| + (if to in position then 1 else 0) + |to|
    ensures KindOf(piece.glyph) == Some(Pawn) ==>
      Notation(position, to, piece) == (if to in position then "x" + to else to)
  {
    var n := Notation(position, to, piece);
    assert n[|n| - |to|..] == to;
  }

  // ---------------------------------------------------------------------
  // Square colouring
  // ---------------------------------------------------------------------

  /** The on-screen column of a file (0 = a … 7 = h): h comes first on a flipped board. */
  function ScreenColumn(file: nat, flipped: bool): nat
    requires file < 8
  {
    if flipped then 7 - file else file
  }

  /** `createSquare` as written: light iff rank plus on-screen column is odd. */
  predicate DrawnLight(file: nat, rank: nat, flipped: bool)
    requires file < 8
  {
    (rank + ScreenColumn(file, flipped)) % 2 != 0
  }

  /** The colouring the board evidently means: a1 dark, h1 light, in either orientation. */
  predicate Light(file: nat, rank: nat)
  {
    (file + rank) % 2 == 0
  }

  /** As written, flipping the board changes the colour of every square, and unflipped a1 is light. */
  lemma FlipRecolours(file: nat, rank: nat)
    requires file < 8
    ensures DrawnLight(file, rank, true) != DrawnLight(file, rank, false)
    ensures DrawnLight(0, 1, false)
  {
    OddApart(rank + 7 - file, rank + file);
  }

  /**
   * The intended colouring depends on the square alone, puts the light
   * square at each player's right-hand corner (h1, a8) and alternates along
   * ranks and files; the drawn board shows it only when flipped.
   */
  lemma LightSquares(file: nat, rank: nat)
    requires file < 8
    ensures Light(7, 1) && Light(0, 8) && !Light(0, 1)
    ensures rank > 1 ==> Light(file, rank) != Light(file, rank - 1)
    ensures file > 0 ==> Light(file, rank) != Light(file - 1, rank)
    ensures DrawnLight(file, rank, true) == Light(file, rank)
    ensures DrawnLight(file, rank, false) != Light(file, rank)
  {
    OddApart(rank + 7 - file, file + rank);
    if rank > 1 {
      OddApart(file + rank, file + rank - 1);
    }
    if file > 0 {
      OddApart(file + rank, file - 1 + rank);
    }
  }

  /** Two numbers an odd distance apart have different parities. */
  lemma OddApart(a: int, b: int)
    requires (a - b) % 2 == 1
    ensures (a % 2 == 0) != (b % 2 == 0)
  {
  }

  // ---------------------------------------------------------------------
  // Event callbacks
  // ---------------------------------------------------------------------

  /** A callback, identified by the function object registered. */
  type Callback = nat

  /** The first index of x in s. */
  function IndexOf(s: seq<Callback>, x: Callback): (r: Option<nat>)
    ensures r.Some? ==> r.value < |s| && s[r.value] == x && x !in s[..r.value]
    ensures r.None? <==> x !in s
  {
    if |s| == 0 then None
    else if s[0] == x then Some(0)
    else match IndexOf(s[1..], x)
      case Some(i) => assert s[..i + 1] == [s[0]] + s[1..][..i]; Some(i + 1)
      case None => None
  }

  /** `splice(indexOf(x), 1)` when x is present. */
  function RemoveFirst(s: seq<Callback>, x: Callback): seq<Callback>
  {
    match IndexOf(s, x)
    case Some(i) => s[..i] + s[i + 1..]
    case None => s
  }

  /** Removal takes out exactly one registration, the first, and keeps the rest in order. */
  lemma RemoveFirstSpec(s: seq<Callback>, x: Callback)
    ensures x !in s ==> RemoveFirst(s, x) == s
    ensures x in s ==> |RemoveFirst(s, x)| == |s| - 1 && multiset(RemoveFirst(s, x)) == multiset(s) - multiset{x}
    ensures x in s ==> exists i :: 0 <= i < |s| && s[i] == x && x !in s[..i] && RemoveFirst(s, x) == s[..i] + s[i + 1..]
  {
    if x in s {
      var i := IndexOf(s, x).value;
      assert s == s[..i] + [x] + s[i + 1..];
    }
  }

  /** The callbacks that throw during one emission, in call order. */
  function Failures(called: seq<Callback>, throws: set<Callback>): (r: seq<Callback>)
    ensures |r| <= |called|
    ensures forall c :: c in r <==> c in called && c in throws
  {
    if |called| == 0 then []
    else
      var last := called[|called| - 1];
      Failures(called[..|called| - 1], throws) + (if last in throws then [last] else [])
  }

  // ---------------------------------------------------------------------
  // The board object
  // ---------------------------------------------------------------------

  /** An entry of the move history. */
  datatype MoveRecord = MoveRecord(
    from: string, to: string, glyph: string, color: string,
    captured: Option<Piece>, timestamp: int, san: string)

  class Board {
    var position: Position
    var moveHistory: seq<MoveRecord>
    var callbacks: map<string, seq<Callback>>
    var isFlipped: bool
    var lastMove: Option<(string, string)>
    var selectedSquare: Option<string>

    /** A new board in the starting position, flipped for a black orientation. */
    constructor(orientation: string)
      ensures position == Initial() && moveHistory == [] && callbacks == map[]
      ensures isFlipped == (orientation == "black") && lastMove == None && selectedSquare == None
    {
      position := Initial();
      moveHistory := [];
      callbacks := map[];
      isFlipped := orientation == "black";
      lastMove := None;
      selectedSquare := None;
    }

    /** `setPosition`: a copy of the given placement. */
    method SetPosition(p: Position)
      modifies this
      ensures position == p
      ensures moveHistory == old(moveHistory) && callbacks == old(callbacks) && isFlipped == old(isFlipped)
      ensures lastMove == old(lastMove) && selectedSquare == old(selectedSquare)
    {
      position := p;
    }

    /**
     * `makeMove`: nothing for an empty source square; otherwise the piece
     * goes to `to`, `from` is cleared, and one record with the former
     * occupant of `to` and the notation joins the history.
     */
    method MakeMove(from: string, to: string, timestamp: int) returns (moved: bool)
      modifies this
      ensures moved <==> from in old(position)
      ensures !moved ==> (position == old(position) && moveHistory == old(moveHistory)
                          && lastMove == old(lastMove) && selectedSquare == old(selectedSquare))
      ensures moved ==>
        var piece := old(position)[from];
        position == old(position)[to := piece] - {from} &&
        moveHistory == old(moveHistory) + [MoveRecord(from, to, piece.glyph, piece.color,
          PieceAt(old(position), to), timestamp, Notation(old(position), to, piece))] &&
        lastMove == Some((from, to)) && selectedSquare == None
      ensures callbacks == old(callbacks) && isFlipped == old(isFlipped)
    {
      if from !in position {
        return false;
      }
      var piece := position[from];
      var move := MoveRecord(from, to, piece.glyph, piece.color, PieceAt(position, to), timestamp,
        Notation(position, to, piece));
      position := position[to := piece] - {from};
      lastMove := Some((from, to));
      moveHistory := moveHistory + [move];
      selectedSquare := None;
      moved := true;
    }

    /**
     * `attemptMove`: clears the selection and refuses an empty source square
     * or an invalid move; otherwise makes the move.
     */
    method AttemptMove(from: string, to: string, timestamp: int) returns (moved: bool)
      modifies this
      ensures moved <==> ValidMove(old(position), from, to)
      ensures !moved ==> position == old(position) && moveHistory == old(moveHistory) && selectedSquare == None
      ensures moved ==> (position == old(position)[to := old(position)[from]] - {from}
                         && |moveHistory| == |old(moveHistory)| + 1
                         && moveHistory[|moveHistory| - 1].captured == PieceAt(old(position), to))
      ensures callbacks == old(callbacks) && isFlipped == old(isFlipped)
    {
      if from !in position || !ValidMove(position, from, to) {
        selectedSquare := None;
        return false;
      }
      moved := MakeMove(from, to, timestamp);
    }

    /**
     * `calculatePossibleMoves`: every square, file by file and rank by rank,
     * that `isValidMove` accepts from the given square.
     */
    method PossibleMoves(square: string) returns (moves: seq<string>)
      ensures moves == ValidTargets(position, square, AllSquares())
    {
      if square !in position {
        NoTargetsFromEmpty(position, square, AllSquares());
        return [];
      }
      moves := [];
      var file := 0;
      while file < 8
        invariant 0 <= file <= 8
        invariant moves == ValidTargets(position, square, AllSquares()[..8 * file])
      {
        moves := ScanFile(square, file, moves);
        file := file + 1;
      }
      assert AllSquares()[..64] == AllSquares();
    }

    /** The inner `ranks.forEach` of `calculatePossibleMoves`: ranks 1 to 8 of one file. */
    method ScanFile(square: string, file: nat, prefix: seq<string>) returns (moves: seq<string>)
      requires file < 8
      requires prefix == ValidTargets(position, square, AllSquares()[..8 * file])
      ensures moves == ValidTargets(position, square, AllSquares()[..8 * file + 8])
    {
      moves := prefix;
      var rank := 1;
      while rank <= 8
        invariant 1 <= rank <= 9
        invariant moves == ValidTargets(position, square, AllSquares()[..8 * file + rank - 1])
      {
        var target := Square(file, rank);
        VisitSquare(position, square, file, rank);
        if ValidMove(position, square, target) {
          moves := moves + [target];
        }
        rank := rank + 1;
      }
      assert 8 * file + rank - 1 == 8 * file + 8;
    }

    /** `flip`: the orientation toggles; the position and history stay. */
    method Flip()
      modifies this
      ensures isFlipped == !old(isFlipped)
      ensures position == old(position) && moveHistory == old(moveHistory) && callbacks == old(callbacks)
    {
      isFlipped := !isFlipped;
    }

    /** `reset`: the starting position, an empty history, no selection and no last move. */
    method Reset()
      modifies this
      ensures position == Initial() && moveHistory == [] && selectedSquare == None && lastMove == None
      ensures callbacks == old(callbacks) && isFlipped == old(isFlipped)
    {
      position := Initial();
      moveHistory := [];
      selectedSquare := None;
      lastMove := None;
    }

    /** `on`: the callback joins the end of the event's list. */
    method On(event: string, callback: Callback)
      modifies this
      ensures callbacks == old(callbacks)[event := (if event in old(callbacks) then old(callbacks)[event] else []) + [callback]]
      ensures position == old(position) && moveHistory == old(moveHistory)
    {
      var list := if event in callbacks then callbacks[event] else [];
      callbacks := callbacks[event := list + [callback]];
    }

    /** `off`: the first registration of the callback, if any, leaves the event's list. */
    method Off(event: string, callback: Callback)
      modifies this
      ensures event in old(callbacks) ==> callbacks == old(callbacks)[event := RemoveFirst(old(callbacks)[event], callback)]
      ensures event !in old(callbacks) ==> callbacks == old(callbacks)
      ensures position == old(position) && moveHistory == old(moveHistory)
    {
      if event in callbacks {
        var list := callbacks[event];
        match IndexOf(list, callback)
        case Some(i) =>
          callbacks := callbacks[event := list[..i] + list[i + 1..]];
        case None =>
      }
    }

    /**
     * `emit`: every registered callback is called in registration order; a
     * callback in `throws` fails, its error is logged, and the rest still run.
     */
    method Emit(event: string, throws: set<Callback>) returns (called: seq<Callback>, failed: seq<Callback>)
      ensures called == if event in callbacks then callbacks[event] else []
      ensures failed == Failures(called, throws)
    {
      called, failed := [], [];
      if event !in callbacks {
        return;
      }
      var list := callbacks[event];
      var i := 0;
      while i < |list|
        invariant 0 <= i <= |list|
        invariant called == list[..i]
        invariant failed == Failures(called, throws)
      {
        var callback := list[i];
        called := called + [callback];
        if callback in throws {
          failed := failed + [callback];
        }
        assert called[..|called| - 1] == list[..i];
        i := i + 1;
      }
      assert list[..|list|] == list;
    }
  }

  /** A move between two different squares puts the piece on the target and changes no other square. */
  lemma MoveFrame(position: Position, from: string, to: string, other: string)
    requires from in position && from != to
    ensures var after := position[to := position[from]] - {from};
      PieceAt(after, to) == Some(position[from]) && PieceAt(after, from) == None &&
      (other != from && other != to ==> PieceAt(after, other) == PieceAt(position, other))
  {
  }

  /** `makeMove(s, s)`, which `attemptMove` never issues, removes the piece from the board. */
  lemma MoveOntoItself(position: Position, square: string)
    requires square in position
    ensures square !in position[square := position[square]] - {square}
  {
  }
}
