/**
 * The PGN viewer (public/js/pgn_viewer.js): a loaded game's moves, the
 * move cursor, the navigation buttons and keys, the move history with its
 * highlighted cell, the current-move panel and autoplay. Fetching games,
 * the board drawing and the interval timer itself are left out; a timer
 * tick is a method call.
 */
module PgnViewer {
  import opened Strings
  import App

  /** A move of the loaded game as the server sends it. */
  datatype PgnMove = PgnMove(san: string, from: string, to: string, comment: string)

  // ---------------------------------------------------------------------
  // Navigation buttons
  // ---------------------------------------------------------------------

  /** The state `updateNavigationControls` gives the four buttons. */
  datatype Buttons = Buttons(firstDisabled: bool, prevDisabled: bool, nextDisabled: bool, lastDisabled: bool)

  function NavButtons(currentMove: int, maxMoves: nat): Buttons
  {
    Buttons(currentMove == 0, currentMove == 0, currentMove >= maxMoves, currentMove >= maxMoves)
  }

  /**
   * On a cursor within the game, a button is disabled exactly when pressing
   * it would leave the cursor where it is.
   */
  lemma ButtonsDisabledWhenIdle(currentMove: nat, maxMoves: nat)
    requires currentMove <= maxMoves
    ensures NavButtons(currentMove, maxMoves).firstDisabled <==> App.Clamp(0, maxMoves) == currentMove
    ensures NavButtons(currentMove, maxMoves).prevDisabled <==> App.Clamp(currentMove - 1, maxMoves) == currentMove
    ensures NavButtons(currentMove, maxMoves).nextDisabled <==> App.Clamp(currentMove + 1, maxMoves) == currentMove
    ensures NavButtons(currentMove, maxMoves).lastDisabled <==> App.Clamp(maxMoves, maxMoves) == currentMove
  {
  }

  // ---------------------------------------------------------------------
  // The move history and the current-move panel
  // ---------------------------------------------------------------------

  /** A line of the history: its number, both moves and which of them is highlighted. */
  datatype HistoryLine = HistoryLine(number: nat, white: string, black: string, whiteActive: bool, blackActive: bool)

  /** The line that the loop of `updateMoveHistory` writes at index i (a multiple of 2). */
  function LineAt(moves: seq<PgnMove>, currentMove: int, i: nat): HistoryLine
    requires i < |moves|
  {
    HistoryLine(i / 2 + 1, moves[i].san, if i + 1 < |moves| then moves[i + 1].san else "",
      currentMove == i + 1, currentMove == i + 2)
  }

  /** The whole history for a cursor position. */
  function HistoryLines(moves: seq<PgnMove>, currentMove: int): (lines: seq<HistoryLine>)
    ensures |lines| == (|moves| + 1) / 2
  {
    seq((|moves| + 1) / 2, k requires 0 <= k < (|moves| + 1) / 2 => LineAt(moves, currentMove, 2 * k))
  }

  /** What `updateCurrentMoveInfo` shows. */
  datatype MoveInfo =
    | StartPosition
    | Played(san: string, moveNumber: nat, side: string, from: string, to: string, comment: string)
    | Unchanged

  /**
   * The panel for a cursor: the start position at 0, otherwise the move
   * before the cursor with its number ⌈k/2⌉ and its side; a cursor with no
   * move before it leaves the panel as it was.
   */
  function CurrentMoveInfo(moves: seq<PgnMove>, currentMove: int): MoveInfo
  {
    if currentMove == 0 then StartPosition
    else if 1 <= currentMove <= |moves| then
      var move := moves[currentMove - 1];
      Played(move.san, (currentMove + 1) / 2, if currentMove % 2 == 1 then "Brancas" else "Pretas",
        move.from, move.to, move.comment)
    else Unchanged
  }

  /**
   * The highlighted history cell and the panel agree: at the start no cell
   * is highlighted; on any move exactly one cell is, on the line whose
   * number the panel shows, in the column of the panel's side, and it holds
   * the panel's move.
   */
  lemma HighlightMatchesInfo(moves: seq<PgnMove>, currentMove: nat)
    requires currentMove <= |moves|
    ensures currentMove == 0 ==> CurrentMoveInfo(moves, currentMove) == StartPosition
    ensures forall k :: 0 <= k < |HistoryLines(moves, 0)| ==>
      !HistoryLines(moves, 0)[k].whiteActive && !HistoryLines(moves, 0)[k].blackActive
    ensures currentMove > 0 ==>
      var info, lines, line := CurrentMoveInfo(moves, currentMove), HistoryLines(moves, currentMove), (currentMove - 1) / 2;
      line < |lines| && lines[line].number == info.moveNumber &&
      (lines[line].whiteActive <==> info.side == "Brancas") &&
      (lines[line].blackActive <==> info.side == "Pretas") &&
      (if info.side == "Brancas" then lines[line].white else lines[line].black) == info.san &&
      forall k :: 0 <= k < |lines| && k != line ==> !lines[k].whiteActive && !lines[k].blackActive
  {
    if currentMove > 0 {
      var lines := HistoryLines(moves, currentMove);
      var line := (currentMove - 1) / 2;
      assert lines[line] == LineAt(moves, currentMove, 2 * line);
    }
  }

  // ---------------------------------------------------------------------
  // The viewer
  // ---------------------------------------------------------------------

  /** The keys the viewer listens to. */
  datatype Key = ArrowLeft | ArrowRight | Home | End | Space | OtherKey

  class Viewer {
    var hasGame: bool
    var moves: seq<PgnMove>
    var maxMoves: nat
    var currentMove: int
    var autoPlay: bool
    var timerRunning: bool
    var history: seq<HistoryLine>

    /** The cursor lies within the loaded moves. */
    predicate Valid()
      reads this
    {
      0 <= currentMove <= maxMoves && maxMoves == |moves|
    }

    constructor()
      ensures !hasGame && moves == [] && maxMoves == 0 && currentMove == 0
      ensures !autoPlay && !timerRunning && history == []
      ensures Valid()
    {
      hasGame := false;
      moves := [];
      maxMoves := 0;
      currentMove := 0;
      autoPlay := false;
      timerRunning := false;
      history := [];
    }

    /** `goToMove`: nothing without a game, otherwise the clamped cursor, then the history redrawn. */
    method GoToMove(moveNumber: int)
      modifies this
      ensures hasGame == old(hasGame) && moves == old(moves) && maxMoves == old(maxMoves)
      ensures autoPlay == old(autoPlay) && timerRunning == old(timerRunning)
      ensures !old(hasGame) ==> currentMove == old(currentMove) && history == old(history)
      ensures old(hasGame) ==> currentMove == App.Clamp(moveNumber, maxMoves)
      ensures old(hasGame) && |moves| > 0 ==> history == HistoryLines(moves, currentMove)
      ensures old(hasGame) && |moves| == 0 ==> history == old(history)
      ensures old(Valid()) ==> Valid()
    {
      if !hasGame {
        return;
      }
      currentMove := App.Clamp(moveNumber, maxMoves);
      UpdateMoveHistory();
    }

    /**
     * `updateMoveHistory`: the lines two moves at a time; with no moves the
     * previous lines stay on screen.
     */
    method UpdateMoveHistory()
      modifies this
      ensures |moves| == 0 ==> history == old(history)
      ensures |moves| > 0 ==> history == HistoryLines(moves, currentMove)
      ensures hasGame == old(hasGame) && moves == old(moves) && maxMoves == old(maxMoves)
      ensures currentMove == old(currentMove) && autoPlay == old(autoPlay) && timerRunning == old(timerRunning)
    {
      if |moves| == 0 {
        return;
      }
      var lines: seq<HistoryLine> := [];
      var i := 0;
      while i < |moves|
        invariant i % 2 == 0 && 0 <= i <= |moves| + 1
        invariant |lines| == i / 2
        invariant forall k :: 0 <= k < i / 2 ==> lines[k] == LineAt(moves, currentMove, 2 * k)
      {
        var whiteMove := moves[i].san;
        var blackMove := if i + 1 < |moves| then moves[i + 1].san else "";
        lines := lines + [HistoryLine(i / 2 + 1, whiteMove, blackMove, currentMove == i + 1, currentMove == i + 2)];
        i := i + 2;
      }
      history := lines;
    }

    /** `loadSelectedGame` once the game has arrived: its moves, the cursor at 0. */
    method Load(gameMoves: seq<PgnMove>)
      modifies this
      ensures hasGame && moves == gameMoves && maxMoves == |gameMoves| && currentMove == 0
      ensures autoPlay == old(autoPlay) && timerRunning == old(timerRunning)
      ensures |gameMoves| > 0 ==> history == HistoryLines(gameMoves, 0)
      ensures Valid()
    {
      hasGame := true;
      moves := gameMoves;
      maxMoves := |moves|;
      currentMove := 0;
      UpdateMoveHistory();
      GoToMove(0);
    }

    /** `startAutoPlay`: refused without a game or at the end. */
    method StartAutoPlay()
      modifies this
      ensures (!old(hasGame) || old(currentMove) >= maxMoves) ==> autoPlay == old(autoPlay) && timerRunning == old(timerRunning)
      ensures old(hasGame) && old(currentMove) < maxMoves ==> autoPlay && timerRunning
      ensures hasGame == old(hasGame) && moves == old(moves) && maxMoves == old(maxMoves)
      ensures currentMove == old(currentMove) && history == old(history)
    {
      if !hasGame || currentMove >= maxMoves {
        return;
      }
      autoPlay := true;
      timerRunning := true;
    }

    /** `stopAutoPlay`. */
    method StopAutoPlay()
      modifies this
      ensures !autoPlay && !timerRunning
      ensures hasGame == old(hasGame) && moves == old(moves) && maxMoves == old(maxMoves)
      ensures currentMove == old(currentMove) && history == old(history)
    {
      autoPlay := false;
      timerRunning := false;
    }

    /** `toggleAutoPlay`. */
    method ToggleAutoPlay()
      modifies this
      ensures old(autoPlay) ==> !autoPlay && !timerRunning
      ensures !old(autoPlay) && old(hasGame) && old(currentMove) < maxMoves ==> autoPlay && timerRunning
      ensures hasGame == old(hasGame) && moves == old(moves) && maxMoves == old(maxMoves)
      ensures currentMove == old(currentMove) && history == old(history)
    {
      if autoPlay {
        StopAutoPlay();
      } else {
        StartAutoPlay();
      }
    }

    /**
     * One tick of the autoplay interval: at the end the timer stops,
     * otherwise the cursor moves on by one. On a valid viewer the cursor
     * never passes the last move.
     */
    method Tick()
      modifies this
      ensures old(currentMove) >= maxMoves ==> !autoPlay && !timerRunning && currentMove == old(currentMove)
      ensures old(currentMove) < maxMoves && old(hasGame) && old(Valid()) ==> currentMove == old(currentMove) + 1
      ensures old(currentMove) < maxMoves ==> autoPlay == old(autoPlay) && timerRunning == old(timerRunning)
      ensures hasGame == old(hasGame) && moves == old(moves) && maxMoves == old(maxMoves)
      ensures old(Valid()) ==> Valid() && currentMove <= maxMoves
    {
      if currentMove >= maxMoves {
        StopAutoPlay();
        return;
      }
      GoToMove(currentMove + 1);
    }

    /** The keyboard handler: arrows step, Home and End jump, the space bar toggles autoplay. */
    method KeyDown(key: Key)
      modifies this
      ensures !old(hasGame) ==> currentMove == old(currentMove) && autoPlay == old(autoPlay)
      ensures old(hasGame) && key == ArrowLeft ==> currentMove == App.Clamp(old(currentMove) - 1, maxMoves)
      ensures old(hasGame) && key == ArrowRight ==> currentMove == App.Clamp(old(currentMove) + 1, maxMoves)
      ensures old(hasGame) && key == Home ==> currentMove == 0
      ensures old(hasGame) && key == End ==> currentMove == maxMoves
      ensures old(hasGame) && key == Space ==> autoPlay == !old(autoPlay) || (old(currentMove) >= maxMoves && !autoPlay)
      ensures hasGame == old(hasGame) && moves == old(moves) && maxMoves == old(maxMoves)
      ensures old(Valid()) ==> Valid()
    {
      if !hasGame {
        return;
      }
      match key
      case ArrowLeft => GoToMove(currentMove - 1);
      case ArrowRight => GoToMove(currentMove + 1);
      case Home => GoToMove(0);
      case End => GoToMove(maxMoves);
      case Space => ToggleAutoPlay();
      case OtherKey =>
    }
  }
}
