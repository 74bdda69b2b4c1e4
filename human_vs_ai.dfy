/**
 * The bookkeeping of a human-versus-AI game in the browser
 * (public/js/enhanced_human_vs_ai.js): whose turn it is, the result from the
 * player's side, the game clock text, the move history and the hint counter.
 * Server answers and `Date.now()` are parameters; the board widget, the
 * toasts and the modals are not modelled.  The `ChessAPI` class of
 * public/js/api.js defines no `makeHumanMove`, `getAIMove` or
 * `getAdvancedHint`, so unless another script adds them each of those calls
 * throws into its `catch`; that is the refused answer, which the parameter
 * covers alongside the accepted ones.
 */
module HumanVsAi {
  import opened Wrappers
  import opened Strings

  /** The fields of the server's game record that the client reads. */
  datatype Game = Game(currentTurn: Option<string>, result: string, status: string)

  /** A move as the board hands it over; a missing field is `None`. */
  datatype MoveInput = MoveInput(from: Option<string>, to: Option<string>, san: Option<string>)

  /** One `gameHistory` record. */
  datatype HistoryEntry = HistoryEntry(san: string, timestamp: int, player: string)

  /** `isPlayerTurn()`: there is a game and its side to move (white when unset) is the player's colour. */
  predicate IsPlayerTurn(game: Option<Game>, playerColor: string)
  {
    game.Some? && (if Truthy(game.value.currentTurn) then game.value.currentTurn.value else "white") == playerColor
  }

  lemma IsPlayerTurnMeaning(game: Option<Game>, playerColor: string)
    ensures game.None? ==> !IsPlayerTurn(game, playerColor)
    ensures game.Some? && !Truthy(game.value.currentTurn) ==> (IsPlayerTurn(game, playerColor) <==> playerColor == "white")
    ensures game.Some? && Truthy(game.value.currentTurn) ==> (IsPlayerTurn(game, playerColor) <==> game.value.currentTurn.value == playerColor)
  {
  }

  /** `isValidMove(move)`: a move with a non-empty from, to and SAN. */
  predicate IsValidMove(move: Option<MoveInput>)
  {
    move.Some? && Truthy(move.value.from) && Truthy(move.value.to) && Truthy(move.value.san)
  }

  // ---------------------------------------------------------------------
  // Result from the player's side

  datatype PlayerOutcome = Won | Lost | Drawn

  /** The branch `handleGameEnd` and `getGameResultText` take. */
  function OutcomeFor(result: string, playerColor: string): PlayerOutcome
  {
    if result == "1-0" then (if playerColor == "white" then Won else Lost)
    else if result == "0-1" then (if playerColor == "black" then Won else Lost)
    else Drawn
  }

  /** The toast `handleGameEnd` shows. */
  function EndMessage(result: string, playerColor: string): string
  {
    match OutcomeFor(result, playerColor)
    case Won => "🎉 Você venceu!"
    case Lost => "😔 Você perdeu."
    case Drawn => "🤝 Empate!"
  }

  /** `getGameResultText()`. */
  function GameResultText(result: string, playerColor: string): string
  {
    match OutcomeFor(result, playerColor)
    case Won => "Vitória!"
    case Lost => "Derrota"
    case Drawn => "Empate"
  }

  /**
   * The player wins exactly when the decisive result favours their colour;
   * every result other than "1-0" and "0-1" is shown as a draw, and the two
   * texts always agree.
   */
  lemma OutcomeForMeaning(result: string, playerColor: string)
    ensures OutcomeFor(result, playerColor) == Won <==>
      (result == "1-0" && playerColor == "white") || (result == "0-1" && playerColor == "black")
    ensures OutcomeFor(result, playerColor) == Drawn <==> result != "1-0" && result != "0-1"
    ensures GameResultText(result, playerColor) == "Vitória!" <==> EndMessage(result, playerColor) == "🎉 Você venceu!"
    ensures GameResultText(result, playerColor) == "Empate" <==> EndMessage(result, playerColor) == "🤝 Empate!"
  {
  }

  /** With the colours white and black, exactly one side wins a decisive game. */
  lemma DecisiveHasOneWinner(result: string)
    requires result == "1-0" || result == "0-1"
    ensures OutcomeFor(result, "white") == Won <==> OutcomeFor(result, "black") == Lost
    ensures OutcomeFor(result, "white") != Drawn && OutcomeFor(result, "black") != Drawn
  {
  }

  // ---------------------------------------------------------------------
  // getGameDuration

  /** `Math.floor(x / 1000)`: Dafny's division by a positive number rounds down too. */
  function Seconds(ms: int): int
  {
    ms / 1000
  }

  /** `` `${minutes}:${seconds.toString().padStart(2, '0')}` `` for a duration in seconds. */
  function Clock(duration: int): string
  {
    IntToString(duration / 60) + ":" + PadStart(IntToString(JsRem(duration, 60)), 2, '0')
  }

  /** `getGameDuration()`: "0:00" for no moves, else the time between the first and last move. */
  function GameDuration(history: seq<HistoryEntry>): string
  {
    if |history| == 0 then "0:00"
    else Clock(Seconds(history[|history| - 1].timestamp - history[0].timestamp))
  }

  /** Reads "<minutes>:<seconds>" back to seconds. */
  function ReadClock(text: string): Option<int>
  {
    var parts := SplitOnce(text, ":");
    if parts.None? then None
    else
      var mins := ParseInt(parts.value.0);
      var secs := ParseInt(parts.value.1);
      if mins.Some? && secs.Some? then Some(60 * mins.value + secs.value) else None
  }

  lemma TwoDigitsValue(a: char, b: char)
    requires IsDigit(a) && IsDigit(b)
    ensures AllDigits([a, b]) && DigitsValue([a, b]) == 10 * DigitValue(a) + DigitValue(b)
  {
    assert DigitsValue([a]) == DigitValue(a) by {
      assert [a][..0] == [];
    }
    assert DigitsValue([a, b]) == DigitsValue([a]) * 10 + DigitValue(b) by {
      assert [a, b][..1] == [a];
    }
  }

  lemma PaddedOneDigit(secs: nat)
    requires secs < 10
    ensures PadStart(NatToString(secs), 2, '0') == ['0', DigitChar(secs)]
  {
    var c := DigitChar(secs);
    assert NatToString(secs) == [c];
    assert PadStart(['0', c], 2, '0') == ['0', c];
  }

  lemma PaddedTwoDigits(secs: nat)
    requires 10 <= secs < 100
    ensures PadStart(NatToString(secs), 2, '0') == [DigitChar(secs / 10), DigitChar(secs % 10)]
  {
    assert NatToString(secs / 10) == [DigitChar(secs / 10)];
  }

  /** The seconds of a clock: two digits, zero-padded. */
  lemma TwoDigitSeconds(secs: nat)
    requires secs < 60
    ensures var p := PadStart(NatToString(secs), 2, '0');
      |p| == 2 && AllDigits(p) && DigitsValue(p) == secs
  {
    if secs < 10 {
      PaddedOneDigit(secs);
      TwoDigitsValue('0', DigitChar(secs));
    } else {
      PaddedTwoDigits(secs);
      TwoDigitsValue(DigitChar(secs / 10), DigitChar(secs % 10));
    }
  }

  /** Text "<m>:<s>" with no colon in <m> reads back as 60 m + s. */
  lemma ReadClockParts(m: string, p: string, mins: int, secs: int)
    requires ':' !in m && ParseInt(m) == Some(mins) && ParseInt(p) == Some(secs)
    ensures ReadClock(m + ":" + p).Some? && ReadClock(m + ":" + p).value == 60 * mins + secs
  {
    SplitOnceAt(m, ":", p);
  }

  /** Digits, a colon and digits read back as minutes and seconds. */
  lemma ReadClockDigits(m: string, p: string)
    requires |m| > 0 && AllDigits(m) && |p| > 0 && AllDigits(p)
    ensures ReadClock(m + ":" + p).Some?
    ensures ReadClock(m + ":" + p).value == 60 * DigitsValue(m) + DigitsValue(p)
  {
    assert ':' !in m by {
      forall k | 0 <= k < |m| ensures m[k] != ':' {
        assert IsDigit(m[k]);
      }
    }
    ParseIntDigits(m);
    ParseIntDigits(p);
    var mins: int, secs: int := DigitsValue(m), DigitsValue(p);
    ReadClockParts(m, p, mins, secs);
  }

  /** A non-negative duration prints as its minutes, a colon and two-digit seconds. */
  lemma ClockOfNat(duration: nat)
    ensures Clock(duration) == NatToString(duration / 60) + ":" + PadStart(NatToString(duration % 60), 2, '0')
  {
    assert JsRem(duration, 60) == duration % 60;
  }

  /** Minutes, a colon and two digits end in ":SS". */
  lemma ClockShape(m: string, p: string)
    requires |m| > 0 && |p| == 2 && AllDigits(p)
    ensures var text := m + ":" + p;
      |text| >= 4 && text[|text| - 3] == ':' && AllDigits(text[|text| - 2..])
  {
    var text := m + ":" + p;
    assert text[|text| - 2..] == p;
  }

  /**
   * For a non-negative duration the clock shows whole minutes and two-digit
   * seconds that add back up to it.
   */
  lemma ClockReadsBack(duration: nat)
    ensures ReadClock(Clock(duration)).Some? && ReadClock(Clock(duration)).value == duration
    ensures var text := Clock(duration);
      |text| >= 4 && text[|text| - 3] == ':' && AllDigits(text[|text| - 2..])
  {
    var mins, secs := duration / 60, duration % 60;
    assert 60 * mins + secs == duration;
    var m, p := NatToString(mins), PadStart(NatToString(secs), 2, '0');
    ClockOfNat(duration);
    var text := Clock(duration);
    assert text == m + ":" + p;
    TwoDigitSeconds(secs);
    DigitsValueNatToString(mins);
    ReadClockDigits(m, p);
    assert ReadClock(text).value == 60 * mins + secs;
    ClockShape(m, p);
  }

  /**
   * With the history in time order the text is the elapsed whole seconds as
   * M:SS, and with no moves it is "0:00".
   */
  lemma GameDurationMeaning(history: seq<HistoryEntry>)
    requires |history| > 0 ==> history[0].timestamp <= history[|history| - 1].timestamp
    ensures |history| == 0 ==> GameDuration(history) == "0:00"
    ensures |history| > 0 ==> ReadClock(GameDuration(history)).Some?
    ensures |history| > 0 ==>
      ReadClock(GameDuration(history)).value == (history[|history| - 1].timestamp - history[0].timestamp) / 1000
  {
    if |history| > 0 {
      ClockReadsBack(Seconds(history[|history| - 1].timestamp - history[0].timestamp));
    }
  }

  // ---------------------------------------------------------------------
  // Name lookups

  const Unknown := "Desconhecido"

  const DifficultyNames: map<int, string> := map[
    1 := "Muito Fácil", 2 := "Fácil", 3 := "Iniciante",
    4 := "Intermediário", 5 := "Intermediário+", 6 := "Avançado",
    7 := "Difícil", 8 := "Expert", 9 := "Mestre", 10 := "Grandmaster"]

  /** `getDifficultyName(level)` for the slider's numeric level: levels 1 to 10 have a name. */
  function DifficultyName(level: int): (name: string)
    ensures name == Unknown <==> !(1 <= level <= 10)
    ensures 1 <= level <= 10 ==> name == DifficultyNames[level]
  {
    if level in DifficultyNames then DifficultyNames[level] else Unknown
  }

  const TimeControlNames: map<string, string> := map[
    "unlimited" := "Sem limite", "bullet" := "Bullet (1+0)", "blitz" := "Blitz (5+3)",
    "rapid" := "Rapid (15+10)", "classical" := "Classical (30+0)"]

  /** `getTimeControlName(timeControl)`: the label, or the raw value for an unknown control. */
  function TimeControlName(timeControl: string): (name: string)
    ensures timeControl !in TimeControlNames ==> name == timeControl
    ensures timeControl in TimeControlNames ==> name == TimeControlNames[timeControl] && name != timeControl
  {
    if timeControl in TimeControlNames then TimeControlNames[timeControl] else timeControl
  }

  // ---------------------------------------------------------------------
  // The session

  /** What the server answered to a move request; a thrown error is `Refused`. */
  datatype MoveReply = Accepted(game: Game, san: string) | Refused

  /** How a human move ended. */
  datatype MoveStep = NotPlayerTurn | InvalidMove | NotAccepted | GameOver | AiToMove

  /** Every history record is tagged as a human or an AI move. */
  ghost predicate Tagged(history: seq<HistoryEntry>)
  {
    forall i :: 0 <= i < |history| ==> history[i].player == "human" || history[i].player == "ai"
  }

  /** Appending one tagged record keeps the history tagged. */
  lemma {:induction false} TaggedSnoc(history: seq<HistoryEntry>, e: HistoryEntry)
    requires Tagged(history) && (e.player == "human" || e.player == "ai")
    ensures Tagged(history + [e])
    ensures |history + [e]| == |history| + 1
  {
    forall i | 0 <= i < |history| + 1
      ensures (history + [e])[i].player == "human" || (history + [e])[i].player == "ai"
    {
      if i < |history| {
        assert (history + [e])[i] == history[i];
      }
    }
  }

  /** The `EnhancedHumanVsAI` fields the game logic changes. */
  class HumanVsAiSession {
    var currentGame: Option<Game>
    var gameHistory: seq<HistoryEntry>
    var hintsUsed: nat
    var playerColor: string

    ghost predicate Valid()
      reads this
    {
      Tagged(gameHistory)
    }

    constructor ()
      ensures Valid()
      ensures currentGame.None? && gameHistory == [] && hintsUsed == 0 && playerColor == "white"
    {
      currentGame := None;
      gameHistory := [];
      hintsUsed := 0;
      playerColor := "white";
    }

    /** The state `startNewGame` leaves once the server created the game. */
    method StartGame(game: Game, color: string, boardReady: bool)
      modifies this
      ensures Valid()
      ensures currentGame == Some(game) && playerColor == color
      ensures boardReady ==> gameHistory == [] && hintsUsed == 0
      ensures !boardReady ==> gameHistory == old(gameHistory) && hintsUsed == old(hintsUsed)
      requires Valid()
    {
      currentGame := Some(game);
      playerColor := color;
      SetupGameBoard(boardReady);
    }

    /** `setupGameBoard()`: a new game starts with no history and no hints used. */
    method SetupGameBoard(boardReady: bool)
      modifies this
      requires Valid()
      ensures Valid()
      ensures currentGame == old(currentGame) && playerColor == old(playerColor)
      ensures boardReady && currentGame.Some? ==> gameHistory == [] && hintsUsed == 0
      ensures !(boardReady && currentGame.Some?) ==> gameHistory == old(gameHistory) && hintsUsed == old(hintsUsed)
    {
      if !boardReady || currentGame.None? {
        return;
      }
      gameHistory := [];
      hintsUsed := 0;
    }

    /**
     * `handlePlayerMove(move)`: on the player's turn a well-formed move the
     * server accepts adds one human record; the AI is asked next unless the
     * game finished.
     */
    method HandlePlayerMove(move: Option<MoveInput>, reply: MoveReply, now: int) returns (step: MoveStep)
      modifies this
      requires Valid()
      ensures Valid() && playerColor == old(playerColor) && hintsUsed == old(hintsUsed)
      ensures !IsPlayerTurn(old(currentGame), old(playerColor)) ==> step == NotPlayerTurn
      ensures IsPlayerTurn(old(currentGame), old(playerColor)) && !IsValidMove(move) ==> step == InvalidMove
      ensures IsPlayerTurn(old(currentGame), old(playerColor)) && IsValidMove(move) && reply.Refused? ==> step == NotAccepted
      ensures step in {NotPlayerTurn, InvalidMove, NotAccepted} ==> currentGame == old(currentGame) && gameHistory == old(gameHistory)
      ensures step !in {NotPlayerTurn, InvalidMove, NotAccepted} ==>
        IsPlayerTurn(old(currentGame), old(playerColor)) && IsValidMove(move) && reply.Accepted?
        && currentGame == Some(reply.game)
        && gameHistory == old(gameHistory) + [HistoryEntry(move.value.san.value, now, "human")]
        && (step == GameOver <==> reply.game.status == "finished")
    {
      if !IsPlayerTurn(currentGame, playerColor) || currentGame.None? {
        return NotPlayerTurn;
      }
      if !IsValidMove(move) {
        return InvalidMove;
      }
      match reply {
        case Refused =>
          return NotAccepted;
        case Accepted(game, _) =>
          currentGame := Some(game);
          var entry := HistoryEntry(move.value.san.value, now, "human");
          TaggedSnoc(gameHistory, entry);
          gameHistory := gameHistory + [entry];
          if game.status == "finished" {
            return GameOver;
          }
          return AiToMove;
      }
    }

    /** `requestAIMove()`: when it is not the player's turn, an accepted AI move adds one AI record. */
    method RequestAiMove(reply: MoveReply, now: int) returns (added: bool)
      modifies this
      requires Valid()
      ensures Valid() && playerColor == old(playerColor) && hintsUsed == old(hintsUsed)
      ensures added <==> old(currentGame).Some? && !IsPlayerTurn(old(currentGame), old(playerColor)) && reply.Accepted?
      ensures added ==> currentGame == Some(reply.game) && gameHistory == old(gameHistory) + [HistoryEntry(reply.san, now, "ai")]
      ensures !added ==> currentGame == old(currentGame) && gameHistory == old(gameHistory)
    {
      if currentGame.None? || IsPlayerTurn(currentGame, playerColor) {
        return false;
      }
      match reply {
        case Refused =>
          return false;
        case Accepted(game, san) =>
          currentGame := Some(game);
          var entry := HistoryEntry(san, now, "ai");
          TaggedSnoc(gameHistory, entry);
          gameHistory := gameHistory + [entry];
          return true;
      }
    }

    /** `getAdvancedHint()`: the counter rises only for a hint served on the player's turn. */
    method GetAdvancedHint(served: bool) returns (counted: bool)
      modifies this`hintsUsed
      requires Valid()
      ensures Valid()
      ensures counted <==> IsPlayerTurn(currentGame, playerColor) && served
      ensures hintsUsed == if counted then old(hintsUsed) + 1 else old(hintsUsed)
    {
      if currentGame.None? || !IsPlayerTurn(currentGame, playerColor) {
        return false;
      }
      if served {
        hintsUsed := hintsUsed + 1;
        return true;
      }
      return false;
    }
  }
}
