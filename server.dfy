/**
 * The Node server's game manager (server.js): asking a model for a move,
 * playing one game with chess.js, the result rule, the PGN text, the
 * running statistics, battles of several games with alternating colours,
 * the result rule of the human-move route and the path checks of the PGN
 * routes.
 *
 * The provider call is an input: `Env.reply` is what the provider answered
 * in a game (by its id) for a model, position and history (None when the
 * call threw), together with what the two regular expressions of
 * `extractMove` found in it. `Math.random` is `Env.pick`, indexed the same
 * way. Game ids are distinct and the history grows by one move per call
 * within a game, so every call of the source has its own answer and its
 * own random index. The clock is `Env.clock`, which gives each game id its
 * date and duration.  Socket.IO emits, logging, the 1.5 s pause
 * between moves and the files written by `saveGame` are left out.
 */
module ArenaServer {
  import opened Wrappers
  import opened Strings
  import opened ChessRules

  /** `maxMoves` of `playGame`. */
  const MaxMoves: nat := 200

  const WhiteWin: string := "1-0"
  const BlackWin: string := "0-1"
  const Draw: string := "1/2-1/2"
  const Unfinished: string := "*"

  /** An entry of `modelClients`, as far as `makeMove` reads it. */
  datatype ModelClient = ModelClient(provider: string, active: bool)

  /**
   * A provider's answer: its text, the capture of `My move: "..."` (None
   * when that pattern does not match) and, in order, the move-pattern
   * matches found in the cleaned text.
   */
  datatype Reply = Reply(text: string, quoted: Option<string>, candidates: seq<string>)

  /** When a game ends (`endTime`) and how many seconds it took. */
  datatype Stamp = Stamp(date: string, duration: int)

  /** Everything outside the server that a game depends on. */
  datatype Env<!P> = Env(chess: ChessJs<P>, start: P,
                         reply: (string, string, P, seq<string>) -> Option<Reply>,
                         pick: (string, string, P, seq<string>) -> nat,
                         clock: string -> Stamp)

  /** The `gameData` object of one game (the move details are left out). */
  datatype GameData = GameData(id: string, white: string, black: string, result: string, reason: string,
                               moves: seq<string>, pgn: string, fen: string, duration: int,
                               totalMoves: nat, opening: string)

  // -----------------------------------------------------------------------
  // extractMove and makeMove

  predicate KnownProvider(provider: string) {
    provider == "openai" || provider == "google" || provider == "anthropic" || provider == "deepseek"
  }

  /** Characters that `replace(/[^\w\-+=\s]/g, "")` keeps. */
  predicate Kept(c: char) {
    IsWordChar(c) || c == '-' || c == '+' || c == '=' || IsWhitespace(c)
  }

  /** The reply with every character outside `\w`, `-`, `+`, `=` and `\s` removed. */
  function Clean(s: string): (r: string)
    ensures |r| <= |s|
    ensures forall i :: 0 <= i < |r| ==> Kept(r[i])
    ensures (forall i :: 0 <= i < |s| ==> Kept(s[i])) ==> r == s
  {
    if |s| == 0 then ""
    else
      var init := s[..|s| - 1];
      assert forall i :: 0 <= i < |init| ==> init[i] == s[i];
      Clean(init) + (if Kept(s[|s| - 1]) then [s[|s| - 1]] else [])
  }

  /** Index of the first element of xs that satisfies p. */
  function FirstWhere(xs: seq<string>, p: string -> bool): (r: Option<nat>)
    ensures r.Some? ==> r.value < |xs| && p(xs[r.value]) && forall j :: 0 <= j < r.value ==> !p(xs[j])
    ensures r.None? ==> forall j :: 0 <= j < |xs| ==> !p(xs[j])
  {
    if |xs| == 0 then None
    else if p(xs[0]) then Some(0)
    else match FirstWhere(xs[1..], p)
      case None => None
      case Some(i) => Some(i + 1)
  }

  /**
   * `extractMove`: the trimmed quoted move if it is legal; else the first
   * legal move (in `legalMoves` order) that the cleaned text contains; else
   * the first pattern match that is legal; else null.
   */
  function ExtractMove(reply: Reply, legal: seq<string>): (m: Option<string>)
    ensures m.Some? ==> m.value in legal
    ensures reply.quoted.Some? && reply.quoted.value != "" && Trim(reply.quoted.value) in legal ==>
              m == Some(Trim(reply.quoted.value))
    ensures m.None? ==> forall i :: 0 <= i < |reply.candidates| ==> reply.candidates[i] !in legal
  {
    var cleaned := Trim(Clean(reply.text));
    if reply.quoted.Some? && reply.quoted.value != "" && Trim(reply.quoted.value) in legal then
      Some(Trim(reply.quoted.value))
    else match FirstWhere(legal, m => Includes(cleaned, m))
      case Some(i) => Some(legal[i])
      case None => PatternMove(reply.candidates, legal)
  }

  /** The pattern stage of `extractMove`: the first match that is a legal move. */
  function PatternMove(candidates: seq<string>, legal: seq<string>): (m: Option<string>)
    ensures m.Some? ==> m.value in legal
    ensures m.None? <==> forall i :: 0 <= i < |candidates| ==> candidates[i] !in legal
    ensures forall k :: 0 <= k < |candidates| && candidates[k] in legal && (forall l :: 0 <= l < k ==> candidates[l] !in legal) ==>
              m == Some(candidates[k])
  {
    match FirstWhere(candidates, c => c in legal)
    case Some(i) => Some(candidates[i])
    case None => None
  }

  /** The contained-move stage: the first legal move, in order, that the cleaned text contains. */
  lemma ExtractMoveContained(reply: Reply, legal: seq<string>, i: nat)
    requires !(reply.quoted.Some? && reply.quoted.value != "" && Trim(reply.quoted.value) in legal)
    requires i < |legal| && Includes(Trim(Clean(reply.text)), legal[i])
    requires forall j :: 0 <= j < i ==> !Includes(Trim(Clean(reply.text)), legal[j])
    ensures ExtractMove(reply, legal) == Some(legal[i])
  {
    var cleaned := Trim(Clean(reply.text));
    var r := FirstWhere(legal, m => Includes(cleaned, m));
    assert r.Some? && r.value == i;
  }

  /**
   * The pattern stage: with no legal quoted move and no legal move contained
   * in the cleaned text, the answer is the first pattern match that is legal,
   * and null when none is.
   */
  lemma ExtractMoveMatched(reply: Reply, legal: seq<string>)
    requires !(reply.quoted.Some? && reply.quoted.value != "" && Trim(reply.quoted.value) in legal)
    requires forall j :: 0 <= j < |legal| ==> !Includes(Trim(Clean(reply.text)), legal[j])
    ensures forall k :: 0 <= k < |reply.candidates| && reply.candidates[k] in legal &&
                        (forall l :: 0 <= l < k ==> reply.candidates[l] !in legal) ==>
              ExtractMove(reply, legal) == Some(reply.candidates[k])
    ensures (forall k :: 0 <= k < |reply.candidates| ==> reply.candidates[k] !in legal) ==> ExtractMove(reply, legal).None?
  {
    var cleaned := Trim(Clean(reply.text));
    assert FirstWhere(legal, m => Includes(cleaned, m)).None?;
    assert ExtractMove(reply, legal) == PatternMove(reply.candidates, legal);
  }

  /**
   * `makeMove`: an error for a model that is missing or inactive or a
   * position without legal moves; otherwise always a legal move, which is
   * the extracted one when the provider is known, answered and yielded a
   * legal move, and the move at the random index otherwise.
   */
  function MakeMove(clients: map<string, ModelClient>, name: string, legal: seq<string>,
                    reply: Option<Reply>, pick: nat): (r: Result<string, string>)
    ensures r.Ok? <==> name in clients && clients[name].active && |legal| > 0
    ensures r.Ok? ==> r.value in legal
    ensures r.Ok? && KnownProvider(clients[name].provider) && reply.Some? && ExtractMove(reply.value, legal).Some? ==>
              r.value == ExtractMove(reply.value, legal).value
  {
    if name !in clients || !clients[name].active then Err("Model " + name + " not available")
    else if |legal| == 0 then Err("No legal moves available")
    else
      // Math.floor(Math.random() * n) is some index below n
      var random := legal[pick % |legal|];
      if !KnownProvider(clients[name].provider) || reply.None? then Ok(random)
      else match ExtractMove(reply.value, legal)
        case Some(m) => Ok(m)
        case None => Ok(random)
  }

  /** The move `makeMove` returns for `model` in position p after `history`, in game `id`. */
  function Ask<P>(env: Env<P>, clients: map<string, ModelClient>, id: string, model: string, p: P, history: seq<string>)
    : Result<string, string>
  {
    MakeMove(clients, model, env.chess.moves(p), env.reply(id, model, p, history), env.pick(id, model, p, history))
  }

  // -----------------------------------------------------------------------
  // playGame

  /** The non-blank pieces of `trimmed`, each trimmed. */
  function NonBlank(parts: seq<string>): (ts: seq<string>)
    ensures |ts| <= |parts|
    ensures forall i :: 0 <= i < |ts| ==> ts[i] != ""
  {
    if |parts| == 0 then []
    else
      var rest := NonBlank(parts[1..]);
      if Trim(parts[0]) == "" then rest else [Trim(parts[0])] + rest
  }

  /** `opening.split(" ").filter((move) => move.trim())`, each then trimmed. */
  function OpeningTokens(opening: string): seq<string> {
    NonBlank(Split(opening, ' '))
  }

  /**
   * The opening loop: a token chess.js plays is recorded, one it rejects is
   * skipped, and one it throws on ends the opening.
   */
  function ApplyOpening<P>(chess: ChessJs<P>, p: P, tokens: seq<string>, history: seq<string>)
    : (r: (P, seq<string>))
    ensures |history| <= |r.1| <= |history| + |tokens| && r.1[..|history|] == history
  {
    if |tokens| == 0 then (p, history)
    else match chess.move(p, tokens[0])
      case Played(q, san) =>
        var r := ApplyOpening(chess, q, tokens[1..], history + [san]);
        assert r.1[..|history|] == (r.1[..|history| + 1])[..|history|];
        r
      case Rejected => ApplyOpening(chess, p, tokens[1..], history)
      case Threw => (p, history)
  }

  /** The opening is applied unless it is empty or "random". */
  predicate UsesOpening(opening: string) {
    opening != "" && opening != "random"
  }

  /**
   * The engine loop from p with `count` engine moves made: the side to move
   * is asked for a move; the game goes on only when one is returned and
   * chess.js plays it, and stops at game over or after 200 engine moves.
   * The result is the final position, the SAN history and the move count.
   */
  function EngineLoop<P>(env: Env<P>, clients: map<string, ModelClient>, id: string, white: string, black: string,
                         p: P, history: seq<string>, count: nat): (P, seq<string>, nat)
    decreases MaxMoves - count
  {
    if env.chess.isGameOver(p) || count >= MaxMoves then (p, history, count)
    else
      match EngineStep(env, clients, id, white, black, p, history)
      case None => (p, history, count)
      case Some(step) => EngineLoop(env, clients, id, white, black, step.0, history + [step.1], count + 1)
  }

  /**
   * One turn of the loop: the side to move is asked for a move, and the
   * result is the position and SAN chess.js reports for it, or None when
   * no move came back or chess.js did not play it.
   */
  function EngineStep<P>(env: Env<P>, clients: map<string, ModelClient>, id: string, white: string, black: string,
                         p: P, history: seq<string>): Option<(P, string)>
  {
    var model := if env.chess.turn(p) == White then white else black;
    match Ask(env, clients, id, model, p, history)
    case Err(_) => None
    case Ok(m) =>
      match env.chess.move(p, m)
      case Played(q, san) => Some((q, san))
      case _ => None
  }

  /**
   * The engine makes at most 200 moves, each adding exactly one SAN to the
   * history, and it stops only at game over, at the cap, or where the model
   * gave no move or chess.js did not play it.
   */
  lemma EngineLoopBounded<P>(env: Env<P>, clients: map<string, ModelClient>, id: string, white: string, black: string, p: P,
                             history: seq<string>, count: nat)
    requires count <= MaxMoves
    ensures var r := EngineLoop(env, clients, id, white, black, p, history, count);
            count <= r.2 <= MaxMoves && |r.1| == |history| + (r.2 - count) && r.1[..|history|] == history &&
            (env.chess.isGameOver(r.0) || r.2 == MaxMoves || EngineStep(env, clients, id, white, black, r.0, r.1).None?)
  {
    EngineLoopGrows(env, clients, id, white, black, p, history, count);
    EngineLoopStops(env, clients, id, white, black, p, history, count);
  }

  lemma {:induction false} EngineLoopGrows<P>(env: Env<P>, clients: map<string, ModelClient>, id: string, white: string,
                                              black: string, p: P, history: seq<string>, count: nat)
    requires count <= MaxMoves
    ensures var r := EngineLoop(env, clients, id, white, black, p, history, count);
            count <= r.2 <= MaxMoves && |r.1| == |history| + (r.2 - count) && r.1[..|history|] == history
    decreases MaxMoves - count
  {
    if !env.chess.isGameOver(p) && count < MaxMoves {
      var step := EngineStep(env, clients, id, white, black, p, history);
      if step.Some? {
        var h := history + [step.value.1];
        EngineLoopGrows(env, clients, id, white, black, step.value.0, h, count + 1);
        var r := EngineLoop(env, clients, id, white, black, step.value.0, h, count + 1);
        assert r.1[..|history|] == r.1[..|h|][..|history|];
      }
    }
  }

  lemma {:induction false} EngineLoopStops<P>(env: Env<P>, clients: map<string, ModelClient>, id: string, white: string,
                                              black: string, p: P, history: seq<string>, count: nat)
    requires count <= MaxMoves
    ensures var r := EngineLoop(env, clients, id, white, black, p, history, count);
            env.chess.isGameOver(r.0) || r.2 == MaxMoves || EngineStep(env, clients, id, white, black, r.0, r.1).None?
    decreases MaxMoves - count
  {
    if !env.chess.isGameOver(p) && count < MaxMoves {
      var step := EngineStep(env, clients, id, white, black, p, history);
      if step.Some? {
        EngineLoopStops(env, clients, id, white, black, step.value.0, history + [step.value.1], count + 1);
      }
    }
  }

  /**
   * The result rule: checkmate goes to the side that is not to move;
   * stalemate, any other draw, or 200 engine moves is a draw; otherwise the
   * game is unfinished.
   */
  function GameResult<P>(chess: ChessJs<P>, p: P, moveCount: nat): (r: (string, string))
    ensures chess.isCheckmate(p) ==> r.0 == (if chess.turn(p) == White then BlackWin else WhiteWin)
    ensures !chess.isCheckmate(p) && (chess.isStalemate(p) || chess.isDraw(p) || moveCount >= MaxMoves) ==>
              r.0 == Draw
    ensures r.0 == Unfinished <==>
              !chess.isCheckmate(p) && !chess.isStalemate(p) && !chess.isDraw(p) && moveCount < MaxMoves
  {
    if chess.isCheckmate(p) then (if chess.turn(p) == White then BlackWin else WhiteWin, "Checkmate")
    else if chess.isStalemate(p) then (Draw, "Stalemate")
    else if chess.isDraw(p) then (Draw, "Draw")
    else if moveCount >= MaxMoves then (Draw, "Move limit reached")
    else (Unfinished, "Game in progress")
  }

  /** The result of the human-move route once the game is over. */
  function HumanMoveResult<P>(chess: ChessJs<P>, p: P): (r: Option<string>)
    ensures r.Some? <==> chess.isGameOver(p)
  {
    if !chess.isGameOver(p) then None
    else if chess.isCheckmate(p) then Some(if chess.turn(p) == White then BlackWin else WhiteWin)
    else Some(Draw)
  }

  /**
   * The human-move route and `playGame` agree on every finished game that
   * chess.js reports as checkmate, stalemate or draw; any other game over
   * is a draw for the route.
   */
  lemma HumanResultAgrees<P>(chess: ChessJs<P>, p: P, moveCount: nat)
    requires chess.isGameOver(p)
    ensures chess.isCheckmate(p) || chess.isStalemate(p) || chess.isDraw(p) ==>
              HumanMoveResult(chess, p) == Some(GameResult(chess, p, moveCount).0)
    ensures !chess.isCheckmate(p) ==> HumanMoveResult(chess, p) == Some(Draw)
  {
  }

  /** The game `playGame` produces (with id `id`; the clock stamps it). */
  function GameOf<P>(env: Env<P>, clients: map<string, ModelClient>, white: string, black: string,
                     opening: string, id: string): (g: GameData)
    ensures g.white == white && g.black == black && g.id == id && g.totalMoves == |g.moves|
  {
    var o := if UsesOpening(opening) then ApplyOpening(env.chess, env.start, OpeningTokens(opening), [])
             else (env.start, []);
    var e := EngineLoop(env, clients, id, white, black, o.0, o.1, 0);
    var res := GameResult(env.chess, e.0, e.2);
    var stamp := env.clock(id);
    GameData(id, white, black, res.0, res.1, e.1, Pgn(white, black, res.0, e.1, res.1, stamp.date),
             env.chess.fen(e.0), stamp.duration, |e.1|, if opening == "" then "Unknown" else opening)
  }

  /**
   * A game's move list holds the opening moves played and then at most 200
   * engine moves; a result other than "*" means checkmate, stalemate, a
   * draw, or exactly 200 engine moves.
   */
  lemma GameOfBounded<P>(env: Env<P>, clients: map<string, ModelClient>, white: string, black: string,
                         opening: string, id: string)
    ensures var g := GameOf(env, clients, white, black, opening, id);
            g.totalMoves == |g.moves| &&
            g.totalMoves <= (if UsesOpening(opening) then |OpeningTokens(opening)| else 0) + MaxMoves &&
            g.result in {WhiteWin, BlackWin, Draw, Unfinished}
  {
    var o := if UsesOpening(opening) then ApplyOpening(env.chess, env.start, OpeningTokens(opening), [])
             else (env.start, []);
    EngineLoopBounded(env, clients, id, white, black, o.0, o.1, 0);
  }

  // -----------------------------------------------------------------------
  // generatePGN

  /** The tag section: the Seven Tag Roster of the PGN Standard (section 8.1.1) and Termination. */
  function PgnHeader(white: string, black: string, result: string, reason: string, date: string): string {
    "[Event \"LLM Chess Arena\"]\n[Site \"localhost:3000\"]\n[Date \"" + date + "\"]\n[Round \"1\"]\n" +
    "[White \"" + white + "\"]\n[Black \"" + black + "\"]\n[Result \"" + result + "\"]\n" +
    "[Termination \"" + reason + "\"]\n\n"
  }

  /** The text of the move-text line starting at half-move i, without its newline. */
  function LineBody(moves: seq<string>, i: nat): string
    requires i < |moves|
  {
    var b := if i + 1 < |moves| then moves[i + 1] else "";
    NatToString(i / 2 + 1) + ". " + moves[i] + (if b != "" then " " + b else "")
  }

  /** The move-text lines from half-move i on. */
  function LinesFrom(moves: seq<string>, i: nat): string
    decreases |moves| - i
  {
    if i >= |moves| then "" else LineBody(moves, i) + "\n" + LinesFrom(moves, i + 2)
  }

  /** The whole PGN text. */
  function Pgn(white: string, black: string, result: string, moves: seq<string>, reason: string,
               date: string): (pgn: string)
    ensures StartsWith(pgn, PgnHeader(white, black, result, reason, date))
    ensures EndsWith(pgn, " " + result)
  {
    var h := PgnHeader(white, black, result, reason, date);
    var pgn := h + LinesFrom(moves, 0) + " " + result;
    assert pgn[..|h|] == h;
    assert pgn[|pgn| - |" " + result|..] == " " + result;
    pgn
  }

  /** The bodies of the lines from half-move i on. */
  function BodiesFrom(moves: seq<string>, i: nat): (bs: seq<string>)
    ensures |bs| == if i >= |moves| then 0 else (|moves| - i + 1) / 2
    decreases |moves| - i
  {
    if i >= |moves| then [] else [LineBody(moves, i)] + BodiesFrom(moves, i + 2)
  }

  lemma {:induction false} LinesFromJoin(moves: seq<string>, i: nat)
    ensures LinesFrom(moves, i) == Join(BodiesFrom(moves, i) + [""], '\n')
    decreases |moves| - i
  {
    if i < |moves| {
      LinesFromJoin(moves, i + 2);
      var rest := BodiesFrom(moves, i + 2) + [""];
      assert BodiesFrom(moves, i) + [""] == [LineBody(moves, i)] + rest;
      assert ([LineBody(moves, i)] + rest)[1..] == rest;
    }
  }

  lemma {:induction false} BodiesHaveNoNewline(moves: seq<string>, i: nat)
    requires forall k :: 0 <= k < |moves| ==> '\n' !in moves[k]
    ensures forall k :: 0 <= k < |BodiesFrom(moves, i)| ==> '\n' !in BodiesFrom(moves, i)[k]
    decreases |moves| - i
  {
    if i < |moves| {
      BodiesHaveNoNewline(moves, i + 2);
      var n := NatToString(i / 2 + 1);
      assert '\n' !in n by {
        forall k | 0 <= k < |n| ensures n[k] != '\n' {
          assert IsDigit(n[k]);
        }
      }
    }
  }

  /**
   * The move text reads back line by line: split at newlines it is one line
   * per pair of half-moves, ⌈m/2⌉ of them, the k-th numbered k + 1 and
   * holding moves 2k and (when present) 2k + 1, then the empty rest after
   * the last newline.
   */
  lemma MoveTextLines(moves: seq<string>)
    requires forall k :: 0 <= k < |moves| ==> '\n' !in moves[k]
    ensures Split(LinesFrom(moves, 0), '\n') == BodiesFrom(moves, 0) + [""]
    ensures |BodiesFrom(moves, 0)| == (|moves| + 1) / 2
  {
    LinesFromJoin(moves, 0);
    BodiesHaveNoNewline(moves, 0);
    SplitJoin(BodiesFrom(moves, 0) + [""], '\n');
  }

  /** The lines emitted: line k holds the move pair starting at half-move i + 2k. */
  lemma {:induction false} BodiesFromAt(moves: seq<string>, i: nat, k: nat)
    requires k < |BodiesFrom(moves, i)|
    ensures i + 2 * k < |moves| && BodiesFrom(moves, i)[k] == LineBody(moves, i + 2 * k)
    decreases k
  {
    var bs := BodiesFrom(moves, i);
    assert i < |moves|;
    assert bs == [LineBody(moves, i)] + BodiesFrom(moves, i + 2);
    if k > 0 {
      BodiesFromAt(moves, i + 2, k - 1);
      assert bs[k] == BodiesFrom(moves, i + 2)[k - 1];
    }
  }

  /** `generatePGN`: the tag section, one line per move pair, then the result. */
  method GeneratePgn(white: string, black: string, result: string, moves: seq<string>, reason: string,
                     date: string) returns (pgn: string)
    ensures pgn == Pgn(white, black, result, moves, reason, date)
  {
    pgn := PgnHeader(white, black, result, reason, date);
    ghost var header := pgn;
    var i := 0;
    while i < |moves|
      invariant pgn + LinesFrom(moves, i) == header + LinesFrom(moves, 0)
      decreases |moves| - i
    {
      pgn := AppendMovePair(pgn, moves, i);
      i := i + 2;
    }
    assert pgn + LinesFrom(moves, i) == pgn;
    pgn := pgn + " " + result;
  }

  /** One pass of the `generatePGN` loop: the numbered line for half-moves i and i + 1. */
  method AppendMovePair(pgn0: string, moves: seq<string>, i: nat) returns (pgn: string)
    requires i < |moves|
    ensures pgn + LinesFrom(moves, i + 2) == pgn0 + LinesFrom(moves, i)
  {
    var moveNum := i / 2 + 1;
    var whiteMove := moves[i];
    var blackMove := if i + 1 < |moves| then moves[i + 1] else "";
    var line := NatToString(moveNum) + ". " + whiteMove + (if blackMove != "" then " " + blackMove else "") + "\n";
    assert line == LineBody(moves, i) + "\n";
    var rest := LinesFrom(moves, i + 2);
    assert LinesFrom(moves, i) == line + rest;
    pgn := pgn0 + line;
    assert pgn + rest == pgn0 + (line + rest);
  }

  // -----------------------------------------------------------------------
  // formatDuration

  /** `formatDuration(seconds)`: whole minutes (rounded down) and the remainder. */
  function FormatDuration(seconds: int): string {
    IntToString(seconds / 60) + "m " + IntToString(JsRem(seconds, 60)) + "s"
  }

  /** Reads "<minutes>m <seconds>s" back. */
  function ReadDuration(text: string): Option<int> {
    ReadParts(SplitOnce(text, "m "))
  }

  /** The minutes before "m " and the seconds before the final 's'. */
  function ReadParts(parts: Option<(string, string)>): Option<int> {
    if parts.None? then None
    else
      var rest := parts.value.1;
      if |rest| == 0 || rest[|rest| - 1] != 's' then None
      else
        var mins := ParseInt(parts.value.0);
        var secs := ParseInt(rest[..|rest| - 1]);
        if mins.Some? && secs.Some? then Some(60 * mins.value + secs.value) else None
  }

  /** Text of the form "<m>m <s>s" with no 'm' in <m> reads back as 60 m + s. */
  lemma ReadDurationParts(m: string, s: string, mins: int, secs: int)
    requires 'm' !in m && ParseInt(m) == Some(mins) && ParseInt(s) == Some(secs)
    ensures ReadDuration(m + "m " + s + "s").Some? && ReadDuration(m + "m " + s + "s").value == 60 * mins + secs
  {
    SplitDuration(m, s);
    var rest := s + "s";
    assert rest[..|rest| - 1] == s;
  }

  lemma SplitDuration(m: string, s: string)
    requires 'm' !in m
    ensures SplitOnce(m + "m " + s + "s", "m ") == Some((m, s + "s"))
  {
    assert m + "m " + s + "s" == m + "m " + (s + "s");
    SplitOnceAt(m, "m ", s + "s");
  }

  /** Any minutes and seconds printed by `FormatDuration` read back. */
  lemma ReadDurationOf(mins: int, secs: int, total: int)
    requires total == 60 * mins + secs
    ensures ReadDuration(IntToString(mins) + "m " + IntToString(secs) + "s").Some?
    ensures ReadDuration(IntToString(mins) + "m " + IntToString(secs) + "s").value == total
  {
    NoLetterInNumber(mins);
    ParseIntIntToString(mins);
    ParseIntIntToString(secs);
    ReadDurationParts(IntToString(mins), IntToString(secs), mins, secs);
  }

  /** A printed number holds no 'm'. */
  lemma NoLetterInNumber(i: int)
    ensures 'm' !in IntToString(i)
  {
    var m := IntToString(i);
    forall k | 0 <= k < |m| ensures m[k] != 'm' {
      assert IsDigit(m[k]) || m[k] == '-';
    }
  }

  /** For a natural number of seconds, the minutes and seconds printed add back up to it. */
  lemma FormatDurationRoundTrip(seconds: nat)
    ensures ReadDuration(FormatDuration(seconds)) == Some(seconds)
  {
    var mins := seconds / 60;
    var secs := JsRem(seconds, 60);
    assert 60 * mins + secs == seconds by {
      assert secs == seconds % 60;
    }
    ReadDurationOf(mins, secs, seconds);
  }

  // -----------------------------------------------------------------------
  // Path checks of the PGN routes

  /** list-games: the 400 message for a matchup name containing "..", else none. */
  function ListGamesCheck(matchup: string): (err: Option<string>)
    ensures err.None? <==> !Contains(matchup, "..")
  {
    if Includes(matchup, "..") then Some("Invalid matchup name") else None
  }

  /** pgn-data: ".." anywhere in either part is refused first, then a name not ending in ".pgn". */
  function PgnDataCheck(matchup: string, file: string): (err: Option<string>)
    ensures err.None? <==> !Contains(matchup, "..") && !Contains(file, "..") && EndsWith(file, ".pgn")
    ensures err == Some("Invalid path") <==> Contains(matchup, "..") || Contains(file, "..")
  {
    if Includes(matchup, "..") || Includes(file, "..") then Some("Invalid path")
    else if !EndsWith(file, ".pgn") then Some("Invalid file type. Must be a PGN file.")
    else None
  }

  /** A path the pgn-data route accepts, joined with "/", contains no "..". */
  lemma AcceptedPathHasNoDotDot(matchup: string, file: string)
    requires PgnDataCheck(matchup, file).None?
    ensures !Contains(matchup + "/" + file, "..")
  {
    var s := matchup + "/" + file;
    var a := |matchup|;
    forall i | 0 <= i <= |s| - 2 ensures !StartsWith(s[i..], "..") {
      DotDotAt(s, i);
      if i + 2 <= a {
        DotDotAt(matchup, i);
        assert !StartsWith(matchup[i..], "..");
        assert s[i] == matchup[i] && s[i + 1] == matchup[i + 1];
      } else if i > a {
        var j := i - a - 1;
        DotDotAt(file, j);
        assert !StartsWith(file[j..], "..");
        assert s[i] == file[j] && s[i + 1] == file[j + 1];
      } else {
        assert s[a] == '/';
      }
    }
  }

  /** ".." starts at position i exactly when the characters at i and i + 1 are dots. */
  lemma DotDotAt(t: string, i: nat)
    requires i + 2 <= |t|
    ensures StartsWith(t[i..], "..") <==> t[i] == '.' && t[i + 1] == '.'
  {
    assert |t[i..]| >= 2 && t[i..][0] == t[i] && t[i..][1] == t[i + 1];
    if t[i] == '.' && t[i + 1] == '.' {
      assert t[i..][..2] == "..";
    }
  }

  // -----------------------------------------------------------------------
  // Battles

  /** One element of `battle.results`. */
  datatype BattleResult = BattleResult(gameNumber: nat, white: string, black: string, result: string,
                                       moves: nat, duration: int, gameId: string)

  /** The battle's state that `runBattle` changes. */
  datatype Tally = Tally(currentGame: nat, results: seq<BattleResult>, whiteWins: nat, blackWins: nat, draws: nat)

  /** The running statistics `updateGameStats` changes. */
  datatype Stats = Stats(totalGames: nat, completedGames: nat, totalMoves: nat, averageGameDuration: int)

  /** `updateGameStats`: one more game, its moves added, and the average `Math.round((avg + d) / 2)`. */
  function StatsAfterGame(s: Stats, g: GameData): (s': Stats)
    ensures s'.totalGames == s.totalGames + 1 && s'.completedGames == s.completedGames + 1
    ensures s'.totalMoves == s.totalMoves + g.totalMoves
    ensures 2 * s'.averageGameDuration - 1 <= s.averageGameDuration + g.duration <= 2 * s'.averageGameDuration
  {
    Stats(s.totalGames + 1, s.completedGames + 1, s.totalMoves + g.totalMoves,
          (s.averageGameDuration + g.duration + 1) / 2)
  }

  /** Colours of game i (from 0): the battle's white model has White in the even games. */
  function WhiteOf(whiteModel: string, blackModel: string, i: nat): string {
    if i % 2 == 0 then whiteModel else blackModel
  }

  function BlackOf(whiteModel: string, blackModel: string, i: nat): string {
    if i % 2 == 0 then blackModel else whiteModel
  }

  /** The id of game i of a battle. */
  function BattleGameId(battleId: string, i: nat): string {
    battleId + "_game_" + NatToString(i + 1)
  }

  /** One finished game's effect on the battle's state (game index i). */
  function Record(t: Tally, whiteModel: string, blackModel: string, i: nat, g: GameData): (t': Tally)
    ensures t'.currentGame == i + 1 && t'.results == t.results + [BattleResult(i + 1, g.white, g.black, g.result,
                                                                              g.totalMoves, g.duration, g.id)]
    ensures t'.whiteWins + t'.blackWins + t'.draws == t.whiteWins + t.blackWins + t.draws + 1
  {
    var t1 := t.(currentGame := i + 1,
                 results := t.results + [BattleResult(i + 1, g.white, g.black, g.result, g.totalMoves, g.duration, g.id)]);
    if g.result == WhiteWin then
      if g.white == whiteModel then t1.(whiteWins := t.whiteWins + 1) else t1.(blackWins := t.blackWins + 1)
    else if g.result == BlackWin then
      if g.black == blackModel then t1.(blackWins := t.blackWins + 1) else t1.(whiteWins := t.whiteWins + 1)
    else t1.(draws := t.draws + 1)
  }

  /** A battle's configuration. */
  datatype BattleConfig = BattleConfig(id: string, whiteModel: string, blackModel: string, numGames: int,
                                       opening: string)

  /** The games `runBattle` attempts: `numGames` of them, none when it is not positive. */
  function Attempts(numGames: int): nat {
    if numGames > 0 then numGames else 0
  }

  /** Game i of a battle, as `playGame` produces it. */
  function BattleGameOf<P>(env: Env<P>, clients: map<string, ModelClient>, cfg: BattleConfig, i: nat): (g: GameData)
    ensures g.white == WhiteOf(cfg.whiteModel, cfg.blackModel, i) && g.black == BlackOf(cfg.whiteModel, cfg.blackModel, i)
  {
    GameOf(env, clients, WhiteOf(cfg.whiteModel, cfg.blackModel, i), BlackOf(cfg.whiteModel, cfg.blackModel, i),
           cfg.opening, BattleGameId(cfg.id, i))
  }

  /** The games of a battle, by index. */
  function BattleGames<P>(env: Env<P>, clients: map<string, ModelClient>, cfg: BattleConfig): nat -> GameData {
    (i: nat) => BattleGameOf(env, clients, cfg, i)
  }

  /** Game i was played with the colours `runBattle` assigns to it. */
  ghost predicate Alternating(cfg: BattleConfig, games: nat -> GameData) {
    forall i: nat :: games(i).white == WhiteOf(cfg.whiteModel, cfg.blackModel, i) &&
                     games(i).black == BlackOf(cfg.whiteModel, cfg.blackModel, i)
  }

  /** The games of a battle alternate colours. */
  lemma BattleGamesAlternate<P>(env: Env<P>, clients: map<string, ModelClient>, cfg: BattleConfig)
    ensures Alternating(cfg, BattleGames(env, clients, cfg))
  {
    forall i: nat
      ensures BattleGames(env, clients, cfg)(i).white == WhiteOf(cfg.whiteModel, cfg.blackModel, i)
      ensures BattleGames(env, clients, cfg)(i).black == BlackOf(cfg.whiteModel, cfg.blackModel, i)
    {
      var g := BattleGameOf(env, clients, cfg, i);
    }
  }

  /**
   * The battle's state and the statistics after the first k games; a game
   * whose index is in `crashes` throws out of `playGame` and changes nothing.
   */
  function BattleAfter(cfg: BattleConfig, games: nat -> GameData, crashes: set<nat>, t0: Tally, s0: Stats,
                       k: nat): (Tally, Stats)
  {
    if k == 0 then (t0, s0) else BattleStep(cfg, games, crashes, BattleAfter(cfg, games, crashes, t0, s0, k - 1), k - 1)
  }

  /** Game i's effect on the battle's state and on the statistics. */
  function BattleStep(cfg: BattleConfig, games: nat -> GameData, crashes: set<nat>, prev: (Tally, Stats),
                      i: nat): (Tally, Stats)
  {
    if i in crashes then prev
    else (Record(prev.0, cfg.whiteModel, cfg.blackModel, i, games(i)), StatsAfterGame(prev.1, games(i)))
  }

  /** Games in `results` won by model m, whichever colour it had. */
  function WinsOf(results: seq<BattleResult>, m: string): nat {
    if |results| == 0 then 0
    else
      var r := results[|results| - 1];
      WinsOf(results[..|results| - 1], m) +
      (if (r.result == WhiteWin && r.white == m) || (r.result == BlackWin && r.black == m) then 1 else 0)
  }

  /** Games in `results` that are neither "1-0" nor "0-1". */
  function Undecided(results: seq<BattleResult>): nat {
    if |results| == 0 then 0
    else
      var r := results[|results| - 1];
      Undecided(results[..|results| - 1]) + (if r.result != WhiteWin && r.result != BlackWin then 1 else 0)
  }

  /** The tallies count the recorded games by winner. */
  predicate Counted(t: Tally, cfg: BattleConfig) {
    t.whiteWins == WinsOf(t.results, cfg.whiteModel) && t.blackWins == WinsOf(t.results, cfg.blackModel) &&
    t.draws == Undecided(t.results) && t.whiteWins + t.blackWins + t.draws == |t.results|
  }

  /** The recorded games are numbered in increasing order, with the colours of their number. */
  predicate Numbered(t: Tally, cfg: BattleConfig) {
    (forall j :: 0 <= j < |t.results| ==>
       (1 <= t.results[j].gameNumber <= t.currentGame &&
        t.results[j].white == WhiteOf(cfg.whiteModel, cfg.blackModel, t.results[j].gameNumber - 1) &&
        t.results[j].black == BlackOf(cfg.whiteModel, cfg.blackModel, t.results[j].gameNumber - 1))) &&
    (forall j, l :: 0 <= j < l < |t.results| ==> t.results[j].gameNumber < t.results[l].gameNumber)
  }

  /**
   * For two different models, after any number of games: whiteWins and
   * blackWins count the games each model won with either colour, draws the
   * rest (including unfinished "*" games), so the three add up to the number
   * of results; results are numbered in increasing order up to
   * `currentGame`, and the battle's white model had White exactly in the
   * odd-numbered games.
   */
  lemma {:induction false} BattleAccounted(cfg: BattleConfig, games: nat -> GameData, crashes: set<nat>, k: nat)
    requires cfg.whiteModel != cfg.blackModel && Alternating(cfg, games)
    ensures Accounted(BattleAfter(cfg, games, crashes, Tally(0, [], 0, 0, 0), Stats(0, 0, 0, 0), k).0, cfg, k)
  {
    if k > 0 {
      BattleAccounted(cfg, games, crashes, k - 1);
      StepAccounted(cfg, games, crashes, Tally(0, [], 0, 0, 0), Stats(0, 0, 0, 0), k);
    }
  }

  /** What a battle's state satisfies after k games. */
  predicate Accounted(t: Tally, cfg: BattleConfig, k: nat) {
    Counted(t, cfg) && Numbered(t, cfg) && t.currentGame <= k
  }

  lemma StepAccounted(cfg: BattleConfig, games: nat -> GameData, crashes: set<nat>, t0: Tally, s0: Stats, k: nat)
    requires cfg.whiteModel != cfg.blackModel && Alternating(cfg, games) && k > 0
    requires Accounted(BattleAfter(cfg, games, crashes, t0, s0, k - 1).0, cfg, k - 1)
    ensures Accounted(BattleAfter(cfg, games, crashes, t0, s0, k).0, cfg, k)
  {
    var prev := BattleAfter(cfg, games, crashes, t0, s0, k - 1);
    var i := k - 1;
    if i !in crashes {
      var g := games(i);
      RecordAccounted(prev.0, cfg, i, g);
      assert BattleAfter(cfg, games, crashes, t0, s0, k).0 == Record(prev.0, cfg.whiteModel, cfg.blackModel, i, g);
    }
  }

  lemma RecordAccounted(t: Tally, cfg: BattleConfig, i: nat, g: GameData)
    requires cfg.whiteModel != cfg.blackModel && Accounted(t, cfg, i)
    requires g.white == WhiteOf(cfg.whiteModel, cfg.blackModel, i) && g.black == BlackOf(cfg.whiteModel, cfg.blackModel, i)
    ensures Accounted(Record(t, cfg.whiteModel, cfg.blackModel, i, g), cfg, i + 1)
  {
    RecordCounted(t, cfg, i, g);
    RecordNumbered(t, cfg, i, g);
  }

  lemma RecordCounted(t: Tally, cfg: BattleConfig, i: nat, g: GameData)
    requires cfg.whiteModel != cfg.blackModel && Counted(t, cfg)
    requires g.white == WhiteOf(cfg.whiteModel, cfg.blackModel, i) && g.black == BlackOf(cfg.whiteModel, cfg.blackModel, i)
    ensures Counted(Record(t, cfg.whiteModel, cfg.blackModel, i, g), cfg)
  {
    var t' := Record(t, cfg.whiteModel, cfg.blackModel, i, g);
    assert t'.results[..|t'.results| - 1] == t.results;
  }

  lemma RecordNumbered(t: Tally, cfg: BattleConfig, i: nat, g: GameData)
    requires Numbered(t, cfg) && t.currentGame <= i
    requires g.white == WhiteOf(cfg.whiteModel, cfg.blackModel, i) && g.black == BlackOf(cfg.whiteModel, cfg.blackModel, i)
    ensures Numbered(Record(t, cfg.whiteModel, cfg.blackModel, i, g), cfg)
  {
    var t' := Record(t, cfg.whiteModel, cfg.blackModel, i, g);
    assert forall j :: 0 <= j < |t.results| ==> t'.results[j] == t.results[j];
  }

  /** The statistics count each game a battle finished once, with its moves. */
  lemma {:induction false} BattleStats(cfg: BattleConfig, games: nat -> GameData, crashes: set<nat>, t0: Tally,
                                       s0: Stats, k: nat)
    ensures var r := BattleAfter(cfg, games, crashes, t0, s0, k);
            |r.0.results| - |t0.results| == r.1.totalGames - s0.totalGames == r.1.completedGames - s0.completedGames >= 0
  {
    if k > 0 {
      BattleStats(cfg, games, crashes, t0, s0, k - 1);
    }
  }

  /** A battle, as `startBattle` creates it and `runBattle` updates it in place. */
  class Battle {
    const config: BattleConfig
    var currentGame: nat
    var results: seq<BattleResult>
    var status: string
    var whiteWins: nat
    var blackWins: nat
    var draws: nat

    constructor (config: BattleConfig)
      ensures this.config == config && status == "running"
      ensures State() == Tally(0, [], 0, 0, 0)
    {
      this.config := config;
      currentGame := 0;
      results := [];
      status := "running";
      whiteWins := 0;
      blackWins := 0;
      draws := 0;
    }

    function State(): Tally
      reads this
    {
      Tally(currentGame, results, whiteWins, blackWins, draws)
    }
  }

  /** The bookkeeping of `runBattle` after game i, played by whiteModel (White) and blackModel. */
  method RecordGame(battle: Battle, i: nat, whiteModel: string, blackModel: string, game: GameData)
    requires game.white == whiteModel && game.black == blackModel
    modifies battle
    ensures battle.State() == Record(old(battle.State()), battle.config.whiteModel, battle.config.blackModel, i, game)
  {
    var cfg := battle.config;
    battle.currentGame := i + 1;
    battle.results := battle.results + [BattleResult(i + 1, whiteModel, blackModel, game.result, game.totalMoves,
                                                     game.duration, game.id)];
    if game.result == WhiteWin {
      if whiteModel == cfg.whiteModel {
        battle.whiteWins := battle.whiteWins + 1;
      } else {
        battle.blackWins := battle.blackWins + 1;
      }
    } else if game.result == BlackWin {
      if blackModel == cfg.blackModel {
        battle.blackWins := battle.blackWins + 1;
      } else {
        battle.whiteWins := battle.whiteWins + 1;
      }
    } else {
      battle.draws := battle.draws + 1;
    }
  }

  /** The server's `GameManager`: model clients, statistics and battles. */
  class GameManager {
    const clients: map<string, ModelClient>
    var totalGames: nat
    var activeGames: nat
    var completedGames: nat
    var totalMoves: nat
    var averageGameDuration: int
    var battles: map<string, Battle>

    constructor (clients: map<string, ModelClient>)
      ensures this.clients == clients && Current() == Stats(0, 0, 0, 0) && activeGames == 0 && battles == map[]
    {
      this.clients := clients;
      totalGames := 0;
      activeGames := 0;
      completedGames := 0;
      totalMoves := 0;
      averageGameDuration := 0;
      battles := map[];
    }

    function Current(): Stats
      reads this
    {
      Stats(totalGames, completedGames, totalMoves, averageGameDuration)
    }

    /** `updateGameStats`. */
    method UpdateGameStats(g: GameData)
      modifies this
      ensures Current() == StatsAfterGame(old(Current()), g)
      ensures battles == old(battles) && activeGames == old(activeGames)
    {
      totalGames := totalGames + 1;
      completedGames := completedGames + 1;
      totalMoves := totalMoves + g.totalMoves;
      averageGameDuration := (averageGameDuration + g.duration + 1) / 2;
    }

    /** `playGame`: the opening, the engine loop, the result, the PGN, then the statistics. */
    method PlayGame<P>(env: Env<P>, white: string, black: string, opening: string, id: string)
      returns (g: GameData)
      modifies this
      ensures g == GameOf(env, clients, white, black, opening, id)
      ensures Current() == StatsAfterGame(old(Current()), g)
      ensures battles == old(battles) && activeGames == old(activeGames)
    {
      var board := env.start;
      var history: seq<string> := [];
      if UsesOpening(opening) {
        board, history := PlayOpening(env.chess, env.start, OpeningTokens(opening));
      }
      var moveCount;
      board, history, moveCount := Engine(env, clients, id, white, black, board, history);
      var res := GameResult(env.chess, board, moveCount);
      var stamp := env.clock(id);
      var pgn := GeneratePgn(white, black, res.0, history, res.1, stamp.date);
      g := GameData(id, white, black, res.0, res.1, history, pgn, env.chess.fen(board), stamp.duration,
                    |history|, if opening == "" then "Unknown" else opening);
      UpdateGameStats(g);
    }

    /** `runBattle`: `numGames` games with alternating colours, tallied as they finish. */
    method RunBattle<P>(env: Env<P>, battle: Battle, crashes: set<nat>)
      modifies this, battle
      ensures battle.State() == BattleAfter(battle.config, BattleGames(env, clients, battle.config), crashes, old(battle.State()),
                                            old(Current()), Attempts(battle.config.numGames)).0
      ensures Current() == BattleAfter(battle.config, BattleGames(env, clients, battle.config), crashes, old(battle.State()),
                                       old(Current()), Attempts(battle.config.numGames)).1
      ensures battle.status == "completed" && battles == old(battles)
    {
      ghost var t0 := battle.State();
      ghost var s0 := Current();
      var cfg := battle.config;
      for i := 0 to Attempts(cfg.numGames)
        invariant battle.State() == BattleAfter(cfg, BattleGames(env, clients, cfg), crashes, t0, s0, i).0
        invariant Current() == BattleAfter(cfg, BattleGames(env, clients, cfg), crashes, t0, s0, i).1
        invariant battles == old(battles)
      {
        if i !in crashes {
          BattleGame(env, battle, i);
        }
      }
      battle.status := "completed";
    }

    /** One game of `runBattle`: play it, then record it and update the tallies. */
    method BattleGame<P>(env: Env<P>, battle: Battle, i: nat)
      modifies this, battle
      ensures battle.State() == Record(old(battle.State()), battle.config.whiteModel, battle.config.blackModel, i,
                                       BattleGameOf(env, clients, battle.config, i))
      ensures Current() == StatsAfterGame(old(Current()), BattleGameOf(env, clients, battle.config, i))
      ensures battles == old(battles)
    {
      var cfg := battle.config;
      var whiteModel := if i % 2 == 0 then cfg.whiteModel else cfg.blackModel;
      var blackModel := if i % 2 == 0 then cfg.blackModel else cfg.whiteModel;
      var game := PlayGame(env, whiteModel, blackModel, cfg.opening, cfg.id + "_game_" + NatToString(i + 1));
      RecordGame(battle, i, whiteModel, blackModel, game);
    }
    /** `startBattle`: a new running battle, registered under its id, then run to completion. */
    method StartBattle<P>(env: Env<P>, config: BattleConfig, crashes: set<nat>) returns (battle: Battle)
      modifies this
      ensures fresh(battle) && battle.config == config && battles == old(battles)[config.id := battle]
      ensures battle.State() == BattleAfter(config, BattleGames(env, clients, config), crashes, Tally(0, [], 0, 0, 0), old(Current()),
                                            Attempts(config.numGames)).0
      ensures battle.status == "completed"
    {
      battle := new Battle(config);
      battles := battles[config.id := battle];
      RunBattle(env, battle, crashes);
    }
  }

  /** The opening loop of `playGame`. */
  method PlayOpening<P>(chess: ChessJs<P>, start: P, tokens: seq<string>) returns (board: P, history: seq<string>)
    ensures (board, history) == ApplyOpening(chess, start, tokens, [])
  {
    board := start;
    history := [];
    var k := 0;
    while k < |tokens|
      invariant k <= |tokens|
      invariant ApplyOpening(chess, board, tokens[k..], history) == ApplyOpening(chess, start, tokens, [])
      decreases |tokens| - k
    {
      assert tokens[k..][1..] == tokens[k + 1..];
      match chess.move(board, tokens[k]) {
        case Played(q, san) =>
          board := q;
          history := history + [san];
        case Rejected =>
        case Threw =>
          return;
      }
      k := k + 1;
    }
  }

  /** The engine loop of `playGame`, from the position after the opening. */
  method Engine<P>(env: Env<P>, clients: map<string, ModelClient>, id: string, white: string, black: string, p0: P,
                   h0: seq<string>) returns (board: P, history: seq<string>, moveCount: nat)
    ensures (board, history, moveCount) == EngineLoop(env, clients, id, white, black, p0, h0, 0)
  {
    board := p0;
    history := h0;
    moveCount := 0;
    while !env.chess.isGameOver(board) && moveCount < MaxMoves
      invariant moveCount <= MaxMoves
      invariant EngineLoop(env, clients, id, white, black, board, history, moveCount) ==
                EngineLoop(env, clients, id, white, black, p0, h0, 0)
      decreases MaxMoves - moveCount
    {
      var currentModel := if env.chess.turn(board) == White then white else black;
      var move := MakeMove(clients, currentModel, env.chess.moves(board), env.reply(id, currentModel, board, history),
                           env.pick(id, currentModel, board, history));
      if move.Err? {
        break;
      }
      match env.chess.move(board, move.value) {
        case Played(q, san) =>
          board := q;
          history := history + [san];
        case Rejected =>
          break;
        case Threw =>
          break;
      }
      moveCount := moveCount + 1;
    }
  }
}
