/**
 * The game-analysis page (public/js/advanced_game_analysis.js): reading a
 * UCI `info` line of the engine, classifying a played move, the accuracy
 * of each label, the per-game statistics, the move cursor with its keys
 * and the guard around a full analysis. The engine worker, the server
 * fallback, the board and the progress display are left out.
 */
module GameAnalysis {
  import opened Wrappers
  import opened Strings
  import App
  import PgnViewer

  // ---------------------------------------------------------------------
  // UCI info lines
  // ---------------------------------------------------------------------

  /** A numeric property of the parsed record: never set, NaN, or a number. */
  datatype Reading = Unset | NaN | Num(value: real)

  /** The record `parseStockfishInfo` fills. */
  datatype Info = Info(depth: Reading, evaluation: Reading, mate: Reading,
                       bestMoves: Option<seq<string>>, multiPV: Reading)

  const EmptyInfo := Info(Unset, Unset, Unset, None, Unset)

  /** `parseInt(parts[i + 1])`: NaN past the last token or when no digits follow. */
  function ReadNext(parts: seq<string>, i: nat): Reading
  {
    if i + 1 < |parts| then
      match ParseInt(parts[i + 1])
      case Some(n) => Num(n as real)
      case None => NaN
    else NaN
  }

  /** `parseInt(...) / 100`: centipawns to pawns; NaN stays NaN. */
  function Pawns(r: Reading): Reading
  {
    match r
    case Num(v) => Num(v / 100.0)
    case _ => r
  }

  /** The keywords of the `switch`. */
  datatype Keyword = Depth | Cp | Mate | Pv | MultiPv

  function KeywordOf(token: string): Option<Keyword>
  {
    if token == "depth" then Some(Depth)
    else if token == "cp" then Some(Cp)
    else if token == "mate" then Some(Mate)
    else if token == "pv" then Some(Pv)
    else if token == "multipv" then Some(MultiPv)
    else None
  }

  /**
   * Token i as the `switch` sees it: its keyword, `parseInt` of the token
   * after it, and every token after it (what `pv` keeps).
   */
  datatype Token = Token(key: Option<Keyword>, next: Reading, rest: seq<string>)

  function Tokens(parts: seq<string>): (r: seq<Token>)
    ensures |r| == |parts|
  {
    seq(|parts|, i requires 0 <= i < |parts| => Token(KeywordOf(parts[i]), ReadNext(parts, i), parts[i + 1..]))
  }

  /** One turn of the `switch`. */
  function Apply(data: Info, t: Token): Info
  {
    match t.key
    case Some(Depth) => data.(depth := t.next)
    case Some(Cp) => data.(evaluation := Pawns(t.next))
    case Some(Mate) => data.(mate := t.next)
    case Some(Pv) => data.(bestMoves := Some(t.rest))
    case Some(MultiPv) => data.(multiPV := t.next)
    case None => data
  }

  /** The record after the first n tokens. */
  function InfoAfter(tokens: seq<Token>, n: nat): Info
    requires n <= |tokens|
  {
    if n == 0 then EmptyInfo else Apply(InfoAfter(tokens, n - 1), tokens[n - 1])
  }

  /** What a parsed record holds under one keyword. */
  datatype Slot = Numeric(reading: Reading) | Moves(moves: Option<seq<string>>)

  function SlotOf(data: Info, key: Keyword): Slot
  {
    match key
    case Depth => Numeric(data.depth)
    case Cp => Numeric(data.evaluation)
    case Mate => Numeric(data.mate)
    case Pv => Moves(data.bestMoves)
    case MultiPv => Numeric(data.multiPV)
  }

  /** What a keyword token writes: the next token read as an integer (in pawns after `cp`), or every later token after `pv`. */
  function Written(t: Token, key: Keyword): Slot
  {
    match key
    case Cp => Numeric(Pawns(t.next))
    case Pv => Moves(Some(t.rest))
    case _ => Numeric(t.next)
  }

  lemma ApplyOther(data: Info, t: Token, key: Keyword)
    requires t.key != Some(key)
    ensures SlotOf(Apply(data, t), key) == SlotOf(data, key)
  {
  }

  lemma ApplyWrites(data: Info, t: Token, key: Keyword)
    requires t.key == Some(key)
    ensures SlotOf(Apply(data, t), key) == Written(t, key)
  {
  }

  /**
   * Later keywords overwrite earlier ones: after the last occurrence of a
   * keyword, its property holds what that occurrence read.
   */
  lemma {:induction false} LastKeywordWins(tokens: seq<Token>, key: Keyword, j: nat, n: nat)
    requires j < n <= |tokens| && tokens[j].key == Some(key)
    requires forall k :: j < k < n ==> tokens[k].key != Some(key)
    ensures SlotOf(InfoAfter(tokens, n), key) == Written(tokens[j], key)
    decreases n
  {
    var before := InfoAfter(tokens, n - 1);
    if n - 1 > j {
      LastKeywordWins(tokens, key, j, n - 1);
      ApplyOther(before, tokens[n - 1], key);
    } else {
      ApplyWrites(before, tokens[j], key);
    }
  }

  /** A keyword that never occurs leaves its property unset. */
  lemma {:induction false} AbsentKeyword(tokens: seq<Token>, key: Keyword, n: nat)
    requires n <= |tokens|
    requires forall k :: 0 <= k < n ==> tokens[k].key != Some(key)
    ensures SlotOf(InfoAfter(tokens, n), key) == SlotOf(EmptyInfo, key)
    decreases n
  {
    if n > 0 {
      AbsentKeyword(tokens, key, n - 1);
      ApplyOther(InfoAfter(tokens, n - 1), tokens[n - 1], key);
    }
  }

  /** The `switch` on token i, reading the next token only where a case does. */
  method Switch(data: Info, parts: seq<string>, i: nat) returns (r: Info)
    requires i < |parts| && data == InfoAfter(Tokens(parts), i)
    ensures r == InfoAfter(Tokens(parts), i + 1)
  {
    assert Tokens(parts)[i] == Token(KeywordOf(parts[i]), ReadNext(parts, i), parts[i + 1..]);
    match KeywordOf(parts[i]) {
      case Some(Depth) => r := data.(depth := ReadNext(parts, i));
      case Some(Cp) => r := data.(evaluation := Pawns(ReadNext(parts, i)));
      case Some(Mate) => r := data.(mate := ReadNext(parts, i));
      case Some(Pv) => r := data.(bestMoves := Some(parts[i + 1..]));
      case Some(MultiPv) => r := data.(multiPV := ReadNext(parts, i));
      case None => r := data;
    }
  }

  /** `parseStockfishInfo`: the line split on spaces, one `switch` per token. */
  method ParseStockfishInfo(infoLine: string) returns (data: Info)
    ensures data == InfoAfter(Tokens(Split(infoLine, ' ')), |Split(infoLine, ' ')|)
  {
    data := ParseParts(Split(infoLine, ' '));
  }

  /** The loop of `parseStockfishInfo` over the tokens. */
  method ParseParts(parts: seq<string>) returns (data: Info)
    ensures data == InfoAfter(Tokens(parts), |parts|)
  {
    data := EmptyInfo;
    var i := 0;
    while i < |parts|
      invariant 0 <= i <= |parts|
      invariant data == InfoAfter(Tokens(parts), i)
    {
      data := Switch(data, parts, i);
      i := i + 1;
    }
  }

  // ---------------------------------------------------------------------
  // Move classification and accuracy
  // ---------------------------------------------------------------------

  datatype Classification = Best | Excellent | Good | Inaccuracy | Mistake | Blunder | Unknown

  /** The label stored in the analysis results. */
  function Label(c: Classification): string
  {
    match c
    case Best => "best"
    case Excellent => "excellent"
    case Good => "good"
    case Inaccuracy => "inaccuracy"
    case Mistake => "mistake"
    case Blunder => "blunder"
    case Unknown => "unknown"
  }

  /** `analysisData.evaluation || 0`: unset and NaN count as 0. */
  function EvaluationOrZero(r: Reading): real
  {
    if r.Num? then r.value else 0.0
  }

  function AbsReal(x: real): real { if x < 0.0 then -x else x }

  /** The bands of |evaluation| in pawns. */
  function Band(d: real): Classification
  {
    if d < 0.1 then Excellent
    else if d < 0.3 then Good
    else if d < 0.6 then Inaccuracy
    else if d < 1.0 then Mistake
    else Blunder
  }

  /**
   * `classifyMove`: unknown without a played move or best moves, best when
   * the played SAN is the engine's first move, otherwise the band of the
   * evaluation's magnitude.
   */
  function Classify(data: Info, playedSan: Option<string>): Classification
  {
    if playedSan.None? || data.bestMoves.None? then Unknown
    else if |data.bestMoves.value| > 0 && playedSan.value == data.bestMoves.value[0] then Best
    else Band(AbsReal(EvaluationOrZero(data.evaluation)))
  }

  /** How bad a label is, from best (0) to blunder (5). */
  function Severity(c: Classification): nat
    requires c != Unknown
  {
    match c
    case Best => 0
    case Excellent => 1
    case Good => 2
    case Inaccuracy => 3
    case Mistake => 4
    case Blunder => 5
  }

  /**
   * Read in centipawns, as the engine reports them, the bands are at 10, 30,
   * 60 and 100; and a larger evaluation never earns a milder label.
   */
  lemma CentipawnBands(cp: int, cp2: int)
    ensures var c := Band(AbsReal(cp as real / 100.0));
      c == (if -10 < cp < 10 then Excellent
            else if -30 < cp < 30 then Good
            else if -60 < cp < 60 then Inaccuracy
            else if -100 < cp < 100 then Mistake
            else Blunder)
    ensures AbsReal(cp as real) <= AbsReal(cp2 as real) ==>
      Severity(Band(AbsReal(cp as real / 100.0))) <= Severity(Band(AbsReal(cp2 as real / 100.0)))
  {
  }

  /** The refusals and the best-move case of `classifyMove`. */
  lemma ClassifyCases(data: Info, playedSan: Option<string>)
    ensures playedSan.None? ==> Classify(data, playedSan) == Unknown
    ensures data.bestMoves.None? ==> Classify(data, playedSan) == Unknown
    ensures playedSan.Some? && data.bestMoves.Some? && |data.bestMoves.value| > 0 && playedSan.value == data.bestMoves.value[0] ==>
      Classify(data, playedSan) == Best
    ensures playedSan.Some? && data.bestMoves.Some? ==> Classify(data, playedSan) != Unknown
    ensures !data.evaluation.Num? && playedSan.Some? && data.bestMoves.Some? ==> Classify(data, playedSan) in {Best, Excellent}
  {
  }

  /** `getMoveAccuracy`: the accuracy of a label; any other text counts 0.75. */
  function MoveAccuracy(classification: string): real
  {
    match classification
    case "best" => 1.0
    case "excellent" => 0.95
    case "good" => 0.85
    case "inaccuracy" => 0.70
    case "mistake" => 0.50
    case "blunder" => 0.20
    case _ => 0.75
  }

  /**
   * Accuracy falls strictly with severity, lies between 0.2 and 1, and an
   * unknown move counts like any unlisted label.
   */
  lemma AccuracyOrder(c1: Classification, c2: Classification)
    ensures 0.2 <= MoveAccuracy(Label(c1)) <= 1.0
    ensures c1 != Unknown && c2 != Unknown && Severity(c1) < Severity(c2) ==>
      MoveAccuracy(Label(c1)) > MoveAccuracy(Label(c2))
    ensures MoveAccuracy(Label(Unknown)) == MoveAccuracy("")
  {
  }

  // ---------------------------------------------------------------------
  // Game statistics
  // ---------------------------------------------------------------------

  /** One analysed position: its label, the played SAN, the engine's move and the evaluation. */
  datatype MoveAnalysis = MoveAnalysis(classification: Classification, playedSan: string, bestMove: Option<string>, evaluation: real)

  /** An entry of the blunder, mistake, inaccuracy or brilliant-move lists. */
  datatype Flag = Flag(moveNumber: int, color: string, move: string)

  /** The running sums and lists of `calculateGameStatistics`. */
  datatype Tally = Tally(whiteSum: real, blackSum: real, whiteMoves: nat, blackMoves: nat,
                         blunders: seq<Flag>, mistakes: seq<Flag>, inaccuracies: seq<Flag>, brilliant: seq<Flag>)

  const EmptyTally := Tally(0.0, 0.0, 0, 0, [], [], [], [])

  /** Odd position indices are white moves. */
  function ColorAt(index: nat): string
  {
    if index % 2 == 1 then "white" else "black"
  }

  /** `Math.ceil(index / 2)`. */
  function MoveNumberAt(index: nat): nat
  {
    (index + 1) / 2
  }

  /**
   * One position of the `forEach`: a hole is skipped; otherwise its accuracy
   * joins its side's sum, and its label may add it to a list. `draw` is the
   * value `Math.random()` returns for a best or excellent move.
   */
  function Count(t: Tally, index: nat, entry: Option<MoveAnalysis>, draw: real): Tally
  {
    match entry
    case None => t
    case Some(m) =>
      var accuracy := MoveAccuracy(Label(m.classification));
      var t' := if index % 2 == 1
        then t.(whiteSum := t.whiteSum + accuracy, whiteMoves := t.whiteMoves + 1)
        else t.(blackSum := t.blackSum + accuracy, blackMoves := t.blackMoves + 1);
      var flag := Flag(MoveNumberAt(index), ColorAt(index), m.playedSan);
      match m.classification
      case Blunder => t'.(blunders := t'.blunders + [flag])
      case Mistake => t'.(mistakes := t'.mistakes + [flag])
      case Inaccuracy => t'.(inaccuracies := t'.inaccuracies + [flag])
      case Best => if draw > 0.9 then t'.(brilliant := t'.brilliant + [flag]) else t'
      case Excellent => if draw > 0.9 then t'.(brilliant := t'.brilliant + [flag]) else t'
      case _ => t'
  }

  /** The tally after the first n positions. */
  function TallyAfter(moves: seq<Option<MoveAnalysis>>, draws: seq<real>, n: nat): Tally
    requires n <= |moves| == |draws|
  {
    if n == 0 then EmptyTally else Count(TallyAfter(moves, draws, n - 1), n - 1, moves[n - 1], draws[n - 1])
  }

  /** How many of the first n positions were analysed with a given label. */
  function Labelled(moves: seq<Option<MoveAnalysis>>, n: nat, c: Classification): nat
    requires n <= |moves|
  {
    if n == 0 then 0
    else Labelled(moves, n - 1, c) + Indicator(moves[n - 1], c)
  }

  /** How many of the first n positions were analysed at all. */
  function Analysed(moves: seq<Option<MoveAnalysis>>, n: nat): nat
    requires n <= |moves|
  {
    if n == 0 then 0 else Analysed(moves, n - 1) + (if moves[n - 1].Some? then 1 else 0)
  }

  /** The sums stay between 0.2 and 1 per move. */
  predicate SumsInRange(t: Tally)
  {
    0.2 * t.whiteMoves as real <= t.whiteSum <= t.whiteMoves as real &&
    0.2 * t.blackMoves as real <= t.blackSum <= t.blackMoves as real
  }

  function Indicator(entry: Option<MoveAnalysis>, c: Classification): nat
  {
    if entry.Some? && entry.value.classification == c then 1 else 0
  }

  lemma CountStep(t: Tally, index: nat, entry: Option<MoveAnalysis>, draw: real)
    ensures var t' := Count(t, index, entry, draw);
      t'.whiteMoves + t'.blackMoves == t.whiteMoves + t.blackMoves + (if entry.Some? then 1 else 0) &&
      (SumsInRange(t) ==> SumsInRange(t')) &&
      |t'.blunders| == |t.blunders| + Indicator(entry, Blunder) &&
      |t'.mistakes| == |t.mistakes| + Indicator(entry, Mistake) &&
      |t'.inaccuracies| == |t.inaccuracies| + Indicator(entry, Inaccuracy)
  {
    if entry.Some? {
      AccuracyOrder(entry.value.classification, Best);
    }
  }

  /**
   * Every analysed position is counted for exactly one side, each side's
   * sum lies between 0.2 and 1 per move, and each blunder, mistake and
   * inaccuracy is listed exactly once, the last one with its move number
   * ⌈index/2⌉ and its side.
   */
  lemma {:induction false} TallyFacts(moves: seq<Option<MoveAnalysis>>, draws: seq<real>, n: nat)
    requires n <= |moves| == |draws|
    ensures var t := TallyAfter(moves, draws, n);
      t.whiteMoves + t.blackMoves == Analysed(moves, n) &&
      SumsInRange(t) &&
      |t.blunders| == Labelled(moves, n, Blunder) &&
      |t.mistakes| == Labelled(moves, n, Mistake) &&
      |t.inaccuracies| == Labelled(moves, n, Inaccuracy)
    decreases n
  {
    if n > 0 {
      TallyFacts(moves, draws, n - 1);
      var before := TallyAfter(moves, draws, n - 1);
      assert TallyAfter(moves, draws, n) == Count(before, n - 1, moves[n - 1], draws[n - 1]);
      CountStep(before, n - 1, moves[n - 1], draws[n - 1]);
    }
  }

  /** The figures `calculateGameStatistics` leaves in the analysis results. */
  datatype Statistics = Statistics(whiteAccuracy: real, blackAccuracy: real,
                                   blunders: seq<Flag>, mistakes: seq<Flag>, inaccuracies: seq<Flag>, brilliantMoves: seq<Flag>)

  /** A side's accuracy in percent: its mean move accuracy times 100, or 0 without moves. */
  function Percent(sum: real, count: nat): real
  {
    if count > 0 then sum / count as real * 100.0 else 0.0
  }

  function StatisticsOf(t: Tally): Statistics
  {
    Statistics(Percent(t.whiteSum, t.whiteMoves), Percent(t.blackSum, t.blackMoves),
      t.blunders, t.mistakes, t.inaccuracies, t.brilliant)
  }

  /** Both accuracies are percentages, and at least 20 for a side that moved. */
  lemma AccuracyPercent(moves: seq<Option<MoveAnalysis>>, draws: seq<real>)
    requires |moves| == |draws|
    ensures var t := TallyAfter(moves, draws, |moves|);
      var s := StatisticsOf(t);
      0.0 <= s.whiteAccuracy <= 100.0 && 0.0 <= s.blackAccuracy <= 100.0 &&
      (t.whiteMoves > 0 ==> s.whiteAccuracy >= 20.0) && (t.blackMoves > 0 ==> s.blackAccuracy >= 20.0)
  {
    var t := TallyAfter(moves, draws, |moves|);
    TallyFacts(moves, draws, |moves|);
    PercentBounds(t.whiteSum, t.whiteMoves);
    PercentBounds(t.blackSum, t.blackMoves);
  }

  lemma PercentBounds(sum: real, count: nat)
    requires 0.2 * count as real <= sum <= count as real
    ensures 0.0 <= Percent(sum, count) <= 100.0
    ensures count > 0 ==> Percent(sum, count) >= 20.0
  {
    if count > 0 {
      var c := count as real;
      assert sum / c <= 1.0 by {
        assert c / c == 1.0;
        assert (c - sum) / c >= 0.0 by { QuotientNonnegative(c - sum, c); }
        assert (c - sum) / c == c / c - sum / c;
      }
      assert sum / c >= 0.2 by {
        assert (0.2 * c) / c == 0.2;
        assert (sum - 0.2 * c) / c >= 0.0 by { QuotientNonnegative(sum - 0.2 * c, c); }
        assert (sum - 0.2 * c) / c == sum / c - (0.2 * c) / c;
      }
    }
  }

  lemma QuotientNonnegative(x: real, c: real)
    requires x >= 0.0 && c > 0.0
    ensures x / c >= 0.0
  {
  }

  /**
   * `calculateGameStatistics` over fresh results: nothing for an empty list,
   * otherwise one pass of the `forEach`.
   */
  method CalculateGameStatistics(moves: seq<Option<MoveAnalysis>>, draws: seq<real>) returns (stats: Statistics)
    requires |draws| == |moves|
    ensures stats == StatisticsOf(TallyAfter(moves, draws, |moves|))
  {
    if |moves| == 0 {
      return StatisticsOf(EmptyTally);
    }
    var whiteAccuracy, blackAccuracy := 0.0, 0.0;
    var whiteMoves, blackMoves := 0, 0;
    var blunders, mistakes, inaccuracies, brilliant := [], [], [], [];
    var index := 0;
    while index < |moves|
      invariant 0 <= index <= |moves|
      invariant TallyAfter(moves, draws, index) ==
        Tally(whiteAccuracy, blackAccuracy, whiteMoves, blackMoves, blunders, mistakes, inaccuracies, brilliant)
    {
      if moves[index].Some? {
        var moveAnalysis := moves[index].value;
        var isWhiteMove := index % 2 == 1;
        var accuracy := MoveAccuracy(Label(moveAnalysis.classification));
        if isWhiteMove {
          whiteAccuracy := whiteAccuracy + accuracy;
          whiteMoves := whiteMoves + 1;
        } else {
          blackAccuracy := blackAccuracy + accuracy;
          blackMoves := blackMoves + 1;
        }
        var flag := Flag(MoveNumberAt(index), if isWhiteMove then "white" else "black", moveAnalysis.playedSan);
        match moveAnalysis.classification {
          case Blunder => blunders := blunders + [flag];
          case Mistake => mistakes := mistakes + [flag];
          case Inaccuracy => inaccuracies := inaccuracies + [flag];
          case Best =>
            if draws[index] > 0.9 {
              brilliant := brilliant + [flag];
            }
          case Excellent =>
            if draws[index] > 0.9 {
              brilliant := brilliant + [flag];
            }
          case _ =>
        }
      }
      index := index + 1;
    }
    stats := StatisticsOf(Tally(whiteAccuracy, blackAccuracy, whiteMoves, blackMoves, blunders, mistakes, inaccuracies, brilliant));
  }

  // ---------------------------------------------------------------------
  // The analysis page
  // ---------------------------------------------------------------------

  /** How a request for a full analysis ended. */
  datatype Outcome = NoGame | AlreadyRunning | Analysed(positions: nat)

  class Analysis {
    var hasGame: bool
    var gameMoves: seq<string>
    var positionCount: nat
    var moveIndex: int
    var isAnalyzing: bool

    constructor()
      ensures !hasGame && gameMoves == [] && positionCount == 0 && moveIndex == 0 && !isAnalyzing
    {
      hasGame := false;
      gameMoves := [];
      positionCount := 0;
      moveIndex := 0;
      isAnalyzing := false;
    }

    /** `goToMove`: the index clamped into [0, number of moves]. */
    method GoToMove(index: int)
      modifies this
      ensures moveIndex == App.Clamp(index, |gameMoves|)
      ensures 0 <= moveIndex <= |gameMoves|
      ensures hasGame == old(hasGame) && gameMoves == old(gameMoves) && isAnalyzing == old(isAnalyzing)
      ensures positionCount == old(positionCount)
    {
      var i := index;
      if i < 0 {
        i := 0;
      }
      if i > |gameMoves| {
        i := |gameMoves|;
      }
      moveIndex := i;
    }

    /**
     * `handleKeyboardNavigation`: ignored while typing in a field; the
     * arrows step by one, Home and End jump to the ends.
     */
    method KeyDown(key: PgnViewer.Key, typing: bool)
      modifies this
      ensures typing || key == PgnViewer.Space || key == PgnViewer.OtherKey ==> moveIndex == old(moveIndex)
      ensures !typing && key == PgnViewer.ArrowLeft ==> moveIndex == App.Clamp(old(moveIndex) - 1, |gameMoves|)
      ensures !typing && key == PgnViewer.ArrowRight ==> moveIndex == App.Clamp(old(moveIndex) + 1, |gameMoves|)
      ensures !typing && key == PgnViewer.Home ==> moveIndex == 0
      ensures !typing && key == PgnViewer.End ==> moveIndex == |gameMoves|
      ensures hasGame == old(hasGame) && gameMoves == old(gameMoves) && isAnalyzing == old(isAnalyzing)
    {
      if typing {
        return;
      }
      match key
      case ArrowLeft => GoToMove(moveIndex - 1);
      case ArrowRight => GoToMove(moveIndex + 1);
      case Home => GoToMove(0);
      case End => GoToMove(|gameMoves|);
      case _ =>
    }

    /**
     * `startFullAnalysis`: refused without a game with moves or while an
     * analysis runs; otherwise the positions are analysed in order until
     * the end or until a stop is seen before position `stopBefore`, and the
     * flag is cleared at the end whatever happened.
     */
    method StartFullAnalysis(stopBefore: nat) returns (outcome: Outcome)
      modifies this
      ensures !old(hasGame) || |gameMoves| == 0 ==> outcome == NoGame && isAnalyzing == old(isAnalyzing)
      ensures old(hasGame) && |gameMoves| > 0 && old(isAnalyzing) ==> outcome == AlreadyRunning && isAnalyzing
      ensures old(hasGame) && |gameMoves| > 0 && !old(isAnalyzing) ==>
        outcome == Analysed(if stopBefore < positionCount then stopBefore else positionCount) && !isAnalyzing
      ensures hasGame == old(hasGame) && gameMoves == old(gameMoves) && positionCount == old(positionCount)
      ensures moveIndex == old(moveIndex)
    {
      if !hasGame || |gameMoves| == 0 {
        return NoGame;
      }
      if isAnalyzing {
        return AlreadyRunning;
      }
      isAnalyzing := true;
      var i := 0;
      while i < positionCount
        invariant 0 <= i <= positionCount && i <= stopBefore
        invariant isAnalyzing
      {
        if i == stopBefore {
          // `stopAnalysis` ran while the previous position was analysed.
          StopAnalysis();
          break;
        }
        i := i + 1;
      }
      isAnalyzing := false;
      return Analysed(i);
    }

    /** `stopAnalysis`: the loop of a running analysis exits at its next check. */
    method StopAnalysis()
      modifies this
      ensures !isAnalyzing
      ensures hasGame == old(hasGame) && gameMoves == old(gameMoves) && positionCount == old(positionCount)
      ensures moveIndex == old(moveIndex)
    {
      isAnalyzing := false;
    }
  }
}
