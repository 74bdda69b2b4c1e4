/**
 * The sequential core of the Lichess integration
 * (public/js/enhanced_lichess_api.js): the NDJSON stream buffer, the
 * per-endpoint rate limiter, the game-phase rule, the per-move knowledge
 * entries `processGameForRAG` builds, their grouping by `updateRAGKnowledge`,
 * the opening and tactical lookups, and the error texts. chess.js is seen
 * through a record of functions over an abstract position; `JSON.parse`,
 * the clock and the network are parameters.
 */
module LichessRag {
  import opened Wrappers
  import opened Strings
  import opened Tables
  import opened Sorting

  // ---------------------------------------------------------------------
  // parseNDJSONStream
  // ---------------------------------------------------------------------

  /**
   * The lines handed to `JSON.parse`: those that are not whitespace only, in
   * order (`line.trim()` is truthy exactly then, by `TrimEmptyIffBlank`).
   */
  function NonBlank(lines: seq<string>): (r: seq<string>)
    ensures |r| <= |lines|
  {
    if |lines| == 0 then []
    else NonBlank(lines[..|lines| - 1]) + (if !IsBlank(lines[|lines| - 1]) then [lines[|lines| - 1]] else [])
  }

  /** `games.push(JSON.parse(line))` per line; a line `JSON.parse` rejects is skipped. */
  function ParseAll<G>(parse: string -> Option<G>, lines: seq<string>): seq<G>
  {
    if |lines| == 0 then []
    else ParseAll(parse, lines[..|lines| - 1]) + (match parse(lines[|lines| - 1]) case Some(g) => [g] case None => [])
  }

  /** The chunks of the stream, one after another. */
  function Concat(chunks: seq<string>): string
  {
    if |chunks| == 0 then "" else Concat(chunks[..|chunks| - 1]) + chunks[|chunks| - 1]
  }

  lemma {:induction false} NonBlankAppend(a: seq<string>, b: seq<string>)
    ensures NonBlank(a + b) == NonBlank(a) + NonBlank(b)
    decreases |b|
  {
    if |b| == 0 {
      assert a + b == a;
    } else {
      var init := b[..|b| - 1];
      assert (a + b)[..|a + b| - 1] == a + init;
      NonBlankAppend(a, init);
    }
  }

  lemma {:induction false} ParseAllAppend<G>(parse: string -> Option<G>, a: seq<string>, b: seq<string>)
    ensures ParseAll(parse, a + b) == ParseAll(parse, a) + ParseAll(parse, b)
    decreases |b|
  {
    if |b| == 0 {
      assert a + b == a;
    } else {
      var init := b[..|b| - 1];
      assert (a + b)[..|a + b| - 1] == a + init;
      ParseAllAppend(parse, a, init);
    }
  }

  lemma {:induction false} NonBlankKeeps(lines: seq<string>, x: string)
    ensures x in NonBlank(lines) <==> x in lines && !IsBlank(x)
    decreases |lines|
  {
    if |lines| > 0 {
      var init := lines[..|lines| - 1];
      NonBlankKeeps(init, x);
      assert lines == init + [lines[|lines| - 1]];
    }
  }

  /** A line is handed to `JSON.parse` exactly when it is one of the lines and is not blank. */
  lemma NonBlankMembers(lines: seq<string>, x: string)
    ensures x in NonBlank(lines) <==> x in lines && Trim(x) != ""
  {
    NonBlankKeeps(lines, x);
    TrimEmptyIffBlank(x);
  }

  /** One step of `Split` on a string starting with the separator. */
  lemma SplitConsSep(c: char, s: string, sep: char)
    requires c == sep
    ensures Split([c] + s, sep) == [""] + Split(s, sep)
  {
    assert ([c] + s)[0] == c && ([c] + s)[1..] == s;
  }

  /** One step of `Split` on a string starting with another character. */
  lemma SplitConsOther(c: char, s: string, sep: char)
    requires c != sep
    ensures Split([c] + s, sep) == [[c] + Split(s, sep)[0]] + Split(s, sep)[1..]
  {
    assert ([c] + s)[0] == c && ([c] + s)[1..] == s;
  }

  /** The shape `SplitAppend` states for `a` and `b`. */
  ghost predicate SplitsAcross(a: string, b: string, sep: char)
  {
    var pa := Split(a, sep);
    Split(a + b, sep) == pa[..|pa| - 1] + Split(pa[|pa| - 1] + b, sep)
  }

  /** The list reasoning behind a step of `SplitAppend` that starts a new, empty first piece. */
  lemma PrependEmptyPiece(whole: seq<string>, joined: seq<string>, pr: seq<string>, tail: seq<string>, pa: seq<string>)
    requires |pr| >= 1
    requires joined == pr[..|pr| - 1] + tail
    requires whole == [""] + joined
    requires pa == [""] + pr
    ensures whole == pa[..|pa| - 1] + tail && pa[|pa| - 1] == pr[|pr| - 1]
  {
    assert pa[..|pa| - 1] == [""] + pr[..|pr| - 1];
  }

  /** The inductive step of `SplitAppend` when the first character is the separator. */
  lemma SplitAcrossSep(c: char, rest: string, b: string, sep: char)
    requires c == sep && SplitsAcross(rest, b, sep)
    ensures SplitsAcross([c] + rest, b, sep)
  {
    var pr := Split(rest, sep);
    var whole := Split([c] + rest + b, sep);
    assert whole == [""] + Split(rest + b, sep) by {
      assert [c] + rest + b == [c] + (rest + b);
      SplitConsSep(c, rest + b, sep);
    }
    SplitConsSep(c, rest, sep);
    PrependEmptyPiece(whole, Split(rest + b, sep), pr, Split(pr[|pr| - 1] + b, sep), Split([c] + rest, sep));
  }

  /** The list reasoning behind a step of `SplitAppend` that extends the first piece by `h`. */
  lemma ExtendFirstPiece(whole: seq<string>, joined: seq<string>, pr: seq<string>, tail: seq<string>, pa: seq<string>, h: string)
    requires |pr| >= 1 && |tail| >= 1
    requires joined == pr[..|pr| - 1] + tail
    requires whole == [h + joined[0]] + joined[1..]
    requires pa == [h + pr[0]] + pr[1..]
    ensures |pr| > 1 ==> whole == pa[..|pa| - 1] + tail && pa[|pa| - 1] == pr[|pr| - 1]
    ensures |pr| == 1 ==> whole == [h + tail[0]] + tail[1..] && pa == [h + pr[0]]
  {
    if |pr| > 1 {
      assert joined[0] == pr[0];
      assert joined[1..] == pr[1..|pr| - 1] + tail;
      assert pa[..|pa| - 1] == [h + pr[0]] + pr[1..|pr| - 1];
    } else {
      assert joined == tail;
    }
  }

  /** The inductive step of `SplitAppend` when the first character is not the separator. */
  lemma SplitAcrossOther(c: char, rest: string, b: string, sep: char)
    requires c != sep && SplitsAcross(rest, b, sep)
    ensures SplitsAcross([c] + rest, b, sep)
  {
    var pr := Split(rest, sep);
    var last := pr[|pr| - 1];
    var tail := Split(last + b, sep);
    var pa := Split([c] + rest, sep);
    var whole := Split([c] + rest + b, sep);
    assert whole == [[c] + Split(rest + b, sep)[0]] + Split(rest + b, sep)[1..] by {
      assert [c] + rest + b == [c] + (rest + b);
      SplitConsOther(c, rest + b, sep);
    }
    SplitConsOther(c, rest, sep);
    ExtendFirstPiece(whole, Split(rest + b, sep), pr, tail, pa, [c]);
    if |pr| == 1 {
      assert ([c] + last) + b == [c] + (last + b);
      SplitConsOther(c, last + b, sep);
    }
  }

  /**
   * Splitting a concatenation: the pieces of `a` before its last one, then
   * the pieces of that last piece continued by `b`.
   */
  lemma {:induction false} SplitAppend(a: string, b: string, sep: char)
    ensures SplitsAcross(a, b, sep)
    decreases |a|
  {
    if |a| == 0 {
      assert a + b == b;
    } else {
      var c, rest := a[0], a[1..];
      assert a == [c] + rest;
      SplitAppend(rest, b, sep);
      if c == sep {
        SplitAcrossSep(c, rest, b, sep);
      } else {
        SplitAcrossOther(c, rest, b, sep);
      }
    }
  }

  /** What one line contributes: the parsed value when the line is not blank and `JSON.parse` accepts it. */
  function LineGames<G>(parse: string -> Option<G>, line: string): (r: seq<G>)
    ensures |r| <= 1
  {
    if !IsBlank(line) then (match parse(line) case Some(g) => [g] case None => []) else []
  }

  lemma ParseNonBlankAppend<G>(parse: string -> Option<G>, a: seq<string>, b: seq<string>)
    ensures ParseAll(parse, NonBlank(a + b)) == ParseAll(parse, NonBlank(a)) + ParseAll(parse, NonBlank(b))
  {
    NonBlankAppend(a, b);
    ParseAllAppend(parse, NonBlank(a), NonBlank(b));
  }

  lemma ParseNonBlankLine<G>(parse: string -> Option<G>, line: string)
    ensures ParseAll(parse, NonBlank([line])) == LineGames(parse, line)
  {
    assert [line][..0] == [];
    if !IsBlank(line) {
      assert NonBlank([line]) == [line];
      assert ParseAll(parse, [line]) == ParseAll(parse, []) + (match parse(line) case Some(g) => [g] case None => []);
    } else {
      assert NonBlank([line]) == [];
    }
  }

  lemma ParseNonBlankSnoc<G>(parse: string -> Option<G>, lines: seq<string>, i: nat)
    requires i < |lines|
    ensures ParseAll(parse, NonBlank(lines[..i + 1])) == ParseAll(parse, NonBlank(lines[..i])) + LineGames(parse, lines[i])
  {
    var prefix, line := lines[..i], lines[i];
    assert lines[..i + 1] == prefix + [line];
    ParseNonBlankAppend(parse, prefix, [line]);
    ParseNonBlankLine(parse, line);
  }

  /** One line's `if (line.trim()) { try { games.push(JSON.parse(line)) } catch {} }`. */
  method PushLine<G>(parse: string -> Option<G>, games: seq<G>, line: string) returns (r: seq<G>)
    ensures r == games + LineGames(parse, line)
  {
    r := games;
    TrimEmptyIffBlank(line);
    if Trim(line) != "" {
      match parse(line) {
        case Some(g) => r := r + [g];
        case None =>
      }
    }
  }

  /** `lines.forEach(...)`: push the value of every non-blank line `JSON.parse` accepts, in order. */
  method PushGames<G>(parse: string -> Option<G>, games: seq<G>, lines: seq<string>) returns (r: seq<G>)
    ensures r == games + ParseAll(parse, NonBlank(lines))
  {
    r := games;
    var i := 0;
    while i < |lines|
      invariant 0 <= i <= |lines|
      invariant r == games + ParseAll(parse, NonBlank(lines[..i]))
    {
      ParseNonBlankSnoc(parse, lines, i);
      r := PushLine(parse, r, lines[i]);
      i := i + 1;
    }
    assert lines[..i] == lines;
  }

  /** The list reasoning behind `ChunkSplit`: the old buffer's piece is replaced by the new pieces. */
  lemma ReplaceLastPiece(pa: seq<string>, complete: seq<string>, buffer: string, lines: seq<string>, whole: seq<string>)
    requires pa == complete + [buffer] && |lines| >= 1
    requires whole == pa[..|pa| - 1] + lines
    ensures pa[|pa| - 1] == buffer
    ensures whole == (complete + lines[..|lines| - 1]) + [lines[|lines| - 1]]
  {
    assert pa[..|pa| - 1] == complete;
    assert lines == lines[..|lines| - 1] + [lines[|lines| - 1]];
  }

  /** Appending a chunk to a text whose pieces are `complete + [buffer]`. */
  lemma ChunkSplit(received: string, complete: seq<string>, buffer: string, chunk: string)
    requires Split(received, '\n') == complete + [buffer]
    ensures var lines := Split(buffer + chunk, '\n');
      Split(received + chunk, '\n') == (complete + lines[..|lines| - 1]) + [lines[|lines| - 1]]
  {
    SplitAppend(received, chunk, '\n');
    var pa := Split(received, '\n');
    ReplaceLastPiece(pa, complete, buffer, Split(pa[|pa| - 1] + chunk, '\n'), Split(received + chunk, '\n'));
  }

  /**
   * `parseNDJSONStream`'s state: `buffer` is the partial line after the last
   * newline received; `games` holds what `JSON.parse` returned for the
   * non-blank complete lines. `received` and `complete` are the text so far
   * and its newline-terminated lines, kept for the specification.
   */
  class NdjsonStream<G> {
    const parse: string -> Option<G>
    var buffer: string
    var games: seq<G>
    ghost var received: string
    ghost var complete: seq<string>

    ghost predicate Valid()
      reads this
    {
      Split(received, '\n') == complete + [buffer] && games == ParseAll(parse, NonBlank(complete))
    }

    constructor (parse: string -> Option<G>)
      ensures Valid() && this.parse == parse && received == "" && games == []
    {
      this.parse := parse;
      buffer := "";
      games := [];
      received := "";
      complete := [];
    }

    /** The 'data' handler: append the chunk, keep the last piece as the buffer, parse the others. */
    method OnData(chunk: string)
      requires Valid()
      modifies this
      ensures Valid() && received == old(received) + chunk
    {
      ChunkSplit(received, complete, buffer, chunk);
      buffer := buffer + chunk;
      var lines := Split(buffer, '\n');
      var n := |lines| - 1;
      buffer := lines[n];
      ParseNonBlankAppend(parse, complete, lines[..n]);
      games := PushGames(parse, games, lines[..n]);
      received := received + chunk;
      complete := complete + lines[..n];
    }

    /** The 'end' handler: a non-blank buffer is the last line; the games are the result. */
    method OnEnd() returns (result: seq<G>)
      requires Valid()
      modifies this`games
      ensures result == games == ParseAll(parse, NonBlank(Split(received, '\n')))
    {
      ParseNonBlankAppend(parse, complete, [buffer]);
      ParseNonBlankLine(parse, buffer);
      games := PushLine(parse, games, buffer);
      result := games;
    }
  }

  /**
   * `parseNDJSONStream` over a stream that delivers `chunks` and then ends:
   * the games are those of the non-blank lines of the whole text, however
   * it was cut into chunks.
   */
  lemma ConcatSnoc(chunks: seq<string>, i: nat)
    requires i < |chunks|
    ensures Concat(chunks[..i + 1]) == Concat(chunks[..i]) + chunks[i]
  {
    assert chunks[..i + 1][..i] == chunks[..i];
  }

  method ParseNdjsonStream<G>(parse: string -> Option<G>, chunks: seq<string>) returns (games: seq<G>)
    ensures games == ParseAll(parse, NonBlank(Split(Concat(chunks), '\n')))
  {
    var stream := new NdjsonStream(parse);
    var i := 0;
    while i < |chunks|
      invariant 0 <= i <= |chunks|
      invariant stream.Valid() && stream.parse == parse && stream.received == Concat(chunks[..i])
    {
      ConcatSnoc(chunks, i);
      stream.OnData(chunks[i]);
      i := i + 1;
    }
    assert chunks[..|chunks|] == chunks;
    games := stream.OnEnd();
  }

  /** Every line handed to `JSON.parse` is a whole line of the text with something other than whitespace on it. */
  lemma HandedLines(text: string, line: string)
    ensures line in NonBlank(Split(text, '\n')) <==> line in Split(text, '\n') && Trim(line) != ""
    ensures line in NonBlank(Split(text, '\n')) ==> '\n' !in line
  {
    NonBlankMembers(Split(text, '\n'), line);
  }

  // ---------------------------------------------------------------------
  // checkRateLimit
  // ---------------------------------------------------------------------

  /** `this.rateLimiter.get(endpoint) || 0`. */
  function LastCallOf(calls: map<string, int>, endpoint: string): int
  {
    if endpoint in calls then calls[endpoint] else 0
  }

  /** The delay handed to `setTimeout`: what is left of one second since the last call. */
  function Wait(last: int, now: int): (w: int)
    ensures w >= 0 && now + w >= last + 1000
    ensures w > 0 <==> now - last < 1000
    ensures w > 0 ==> now + w == last + 1000
  {
    var timeDiff := now - last;
    if timeDiff < 1000 then 1000 - timeDiff else 0
  }

  /** The time of the last call per endpoint. `Date.now()` readings are parameters. */
  class RateLimiter {
    var lastCall: map<string, int>

    constructor ()
      ensures lastCall == map[]
    {
      lastCall := map[];
    }

    /**
     * `checkRateLimit(endpoint)`: `now` is the clock on entry, `after` the
     * clock once the wait is over; the result is the delay waited.
     */
    method CheckRateLimit(endpoint: string, now: int, after: int) returns (wait: int)
      modifies this
      ensures wait == Wait(LastCallOf(old(lastCall), endpoint), now)
      ensures lastCall == old(lastCall)[endpoint := after]
    {
      var last := LastCallOf(lastCall, endpoint);
      var timeDiff := now - last;
      wait := 0;
      if timeDiff < 1000 {
        wait := 1000 - timeDiff;
      }
      lastCall := lastCall[endpoint := after];
    }
  }

  // ---------------------------------------------------------------------
  // determineGamePhase
  // ---------------------------------------------------------------------

  /** The phase from the move number and the number of pieces on the board. */
  function DetermineGamePhase(moveNumber: int, pieceCount: nat): (phase: string)
    ensures phase == "opening" <==> moveNumber <= 15
    ensures phase == "endgame" <==> moveNumber > 15 && pieceCount <= 12
    ensures phase == "middlegame" <==> moveNumber > 15 && pieceCount > 12
  {
    if moveNumber <= 15 then "opening"
    else if pieceCount <= 12 then "endgame"
    else "middlegame"
  }

  // ---------------------------------------------------------------------
  // processGameForRAG
  // ---------------------------------------------------------------------

  /** A chess.js verbose move object. */
  datatype VerboseMove = VerboseMove(
    san: string, piece: string, from: string, to: string,
    captured: Option<string>, promotion: Option<string>,
    check: bool, checkmate: bool, flags: string)

  /** Outcome of chess.js `move(text)` when the move object is used. */
  datatype VerboseOutcome<P> =
    | Moved(next: P, info: VerboseMove)
    | NoMove    // `move` returned null: the position is unchanged
    | Raised    // `move` threw

  /** chess.js as `processGameForRAG` uses it. */
  datatype VerboseChess<!P> = VerboseChess(
    start: P,                                  // `new Chess()`
    fen: P -> string,                          // `fen()`
    move: (P, string) -> VerboseOutcome<P>,    // `move(text)`
    pieceCount: P -> nat)                      // pieces on `board()`

  /** One element of `gameData.analysis`. */
  datatype Annotation = Annotation(evaluation: Option<int>, best: Option<string>, variation: Option<string>)

  /** The fields of a Lichess game record that `processGameForRAG` reads. */
  datatype GameData = GameData(
    moves: Option<string>,
    openingName: Option<string>,
    whiteRating: Option<int>,
    blackRating: Option<int>,
    speed: Option<string>,
    analysis: Option<seq<Option<Annotation>>>)

  /** The knowledge entry for one half-move. */
  datatype RagEntry = RagEntry(
    position: string, move: string, info: VerboseMove,
    moveNumber: int, white: bool,
    opening: Option<string>, gamePhase: string,
    playerRating: Option<int>, timeControl: Option<string>,
    previousMoves: seq<string>, nextMoves: seq<string>,
    annotation: Option<Annotation>)

  /** `gameData.moves ? gameData.moves.split(' ') : []`. */
  function MovesOf(game: GameData): (moves: seq<string>)
    ensures Truthy(game.moves) ==> |moves| >= 1 && forall k :: 0 <= k < |moves| ==> ' ' !in moves[k]
    ensures !Truthy(game.moves) ==> moves == []
  {
    if Truthy(game.moves) then Split(game.moves.value, ' ') else []
  }

  /** `gameData.analysis[i]` when both are present. */
  function AnnotationAt(game: GameData, i: nat): Option<Annotation>
  {
    if game.analysis.Some? && i < |game.analysis.value| then game.analysis.value[i] else None
  }

  function Min(a: int, b: int): int { if a < b then a else b }

  /** The entry `processGameForRAG` pushes for half-move `i`, played from `pos` into `next`. */
  function EntryFor<P>(chess: VerboseChess<P>, game: GameData, moves: seq<string>, i: nat, pos: P, next: P, info: VerboseMove): RagEntry
    requires i < |moves|
  {
    var moveNumber := i / 2 + 1;
    var isWhite := i % 2 == 0;
    RagEntry(
      chess.fen(pos), moves[i], info, moveNumber, isWhite, game.openingName,
      DetermineGamePhase(moveNumber, chess.pieceCount(next)),
      if isWhite then game.whiteRating else game.blackRating,
      game.speed,
      moves[if i >= 3 then i - 3 else 0..i],
      moves[i + 1..Min(|moves|, i + 4)],
      AnnotationAt(game, i))
  }

  /**
   * What an entry for half-move `j` looks like: its move, its number and
   * colour, up to three moves before and after it, and the game's fields.
   */
  predicate ShapedAt(e: RagEntry, game: GameData, moves: seq<string>, j: nat)
    requires j < |moves|
  {
    && e.move == moves[j]
    && e.moveNumber == j / 2 + 1
    && e.white == (j % 2 == 0)
    && |e.previousMoves| == Min(j, 3)
    && (forall k :: 0 <= k < |e.previousMoves| ==> e.previousMoves[k] == moves[j - |e.previousMoves| + k])
    && |e.nextMoves| == Min(|moves| - j - 1, 3)
    && (forall k :: 0 <= k < |e.nextMoves| ==> e.nextMoves[k] == moves[j + 1 + k])
    && e.opening == game.openingName
    && e.timeControl == game.speed
    && e.playerRating == (if j % 2 == 0 then game.whiteRating else game.blackRating)
    && e.annotation == AnnotationAt(game, j)
  }

  lemma EntryForShaped<P>(chess: VerboseChess<P>, game: GameData, moves: seq<string>, i: nat, pos: P, next: P, info: VerboseMove)
    requires i < |moves|
    ensures ShapedAt(EntryFor(chess, game, moves, i, pos, next, info), game, moves, i)
    ensures EntryFor(chess, game, moves, i, pos, next, info).position == chess.fen(pos)
    ensures EntryFor(chess, game, moves, i, pos, next, info).gamePhase == DetermineGamePhase(i / 2 + 1, chess.pieceCount(next))
  {
  }

  /**
   * The entries from half-move `i` on, at position `pos`: a rejected move is
   * skipped, and a move that throws ends the processing.
   */
  function Walk<P>(chess: VerboseChess<P>, game: GameData, moves: seq<string>, pos: P, i: nat): (r: seq<RagEntry>)
    requires i <= |moves|
    decreases |moves| - i
  {
    if i == |moves| then []
    else match chess.move(pos, moves[i])
      case Moved(next, info) => [EntryFor(chess, game, moves, i, pos, next, info)] + Walk(chess, game, moves, next, i + 1)
      case NoMove => Walk(chess, game, moves, pos, i + 1)
      case Raised => []
  }

  /** The half-moves that produce entries, in the order `Walk` visits them. */
  function MovedIndices<P>(chess: VerboseChess<P>, moves: seq<string>, pos: P, i: nat): (r: seq<nat>)
    requires i <= |moves|
    ensures forall k :: 0 <= k < |r| ==> i <= r[k] < |moves|
    ensures forall k, l :: 0 <= k < l < |r| ==> r[k] < r[l]
    decreases |moves| - i
  {
    if i == |moves| then []
    else match chess.move(pos, moves[i])
      case Moved(next, _) => [i] + MovedIndices(chess, moves, next, i + 1)
      case NoMove => MovedIndices(chess, moves, pos, i + 1)
      case Raised => []
  }

  /** The k-th entry is the entry for the k-th accepted half-move, in increasing order. */
  lemma {:induction false} WalkShape<P>(chess: VerboseChess<P>, game: GameData, moves: seq<string>, pos: P, i: nat)
    requires i <= |moves|
    ensures var r, idx := Walk(chess, game, moves, pos, i), MovedIndices(chess, moves, pos, i);
      |idx| == |r| && forall k :: 0 <= k < |r| ==> ShapedAt(r[k], game, moves, idx[k])
    decreases |moves| - i
  {
    if i < |moves| {
      match chess.move(pos, moves[i])
      case Moved(next, info) =>
        var e := EntryFor(chess, game, moves, i, pos, next, info);
        var rest, later := Walk(chess, game, moves, next, i + 1), MovedIndices(chess, moves, next, i + 1);
        WalkShape(chess, game, moves, next, i + 1);
        EntryForShaped(chess, game, moves, i, pos, next, info);
        assert Walk(chess, game, moves, pos, i) == [e] + rest;
        assert MovedIndices(chess, moves, pos, i) == [i] + later;
        forall k | 0 < k <= |rest|
          ensures ShapedAt(([e] + rest)[k], game, moves, ([i] + later)[k])
        {
          assert ([e] + rest)[k] == rest[k - 1] && ([i] + later)[k] == later[k - 1];
        }
      case NoMove =>
        WalkShape(chess, game, moves, pos, i + 1);
      case Raised =>
    }
  }

  /** chess.js accepts every remaining move. */
  predicate AcceptsAll<P>(chess: VerboseChess<P>, moves: seq<string>, pos: P, i: nat)
    requires i <= |moves|
    decreases |moves| - i
  {
    i == |moves| || match chess.move(pos, moves[i])
      case Moved(next, _) => AcceptsAll(chess, moves, next, i + 1)
      case _ => false
  }

  /** When every move is accepted, every half-move gets its entry, in order. */
  lemma {:induction false} WalkAcceptsAll<P>(chess: VerboseChess<P>, moves: seq<string>, pos: P, i: nat)
    requires i <= |moves| && AcceptsAll(chess, moves, pos, i)
    ensures var idx := MovedIndices(chess, moves, pos, i);
      |idx| == |moves| - i && forall k :: 0 <= k < |idx| ==> idx[k] == i + k
    decreases |moves| - i
  {
    if i < |moves| {
      match chess.move(pos, moves[i])
      case Moved(next, _) =>
        WalkAcceptsAll(chess, moves, next, i + 1);
    }
  }

  /** What `processGameForRAG` returns besides the echoed game fields. */
  datatype ProcessedGame = ProcessedGame(moveCount: nat, ragData: seq<RagEntry>)

  /** The move loop of `processGameForRAG`. */
  method ProcessGameForRag<P>(chess: VerboseChess<P>, game: GameData) returns (result: ProcessedGame)
    ensures result.moveCount == |MovesOf(game)|
    ensures result.ragData == Walk(chess, game, MovesOf(game), chess.start, 0)
  {
    var moves := MovesOf(game);
    var pos := chess.start;
    var ragData := [];
    var i := 0;
    while i < |moves|
      invariant 0 <= i <= |moves|
      invariant ragData + Walk(chess, game, moves, pos, i) == Walk(chess, game, moves, chess.start, 0)
    {
      match chess.move(pos, moves[i]) {
        case Moved(next, info) =>
          var entry := EntryFor(chess, game, moves, i, pos, next, info);
          assert ragData + Walk(chess, game, moves, pos, i) == (ragData + [entry]) + Walk(chess, game, moves, next, i + 1);
          ragData := ragData + [entry];
          pos := next;
        case NoMove =>
        case Raised =>
          assert ragData == ragData + Walk(chess, game, moves, pos, i);
          break;
      }
      i := i + 1;
    }
    result := ProcessedGame(|moves|, ragData);
  }

  // ---------------------------------------------------------------------
  // updateRAGKnowledge
  // ---------------------------------------------------------------------

  /** The group stored under `k`, or none. */
  function GroupOf(t: Table<seq<RagEntry>>, k: string): seq<RagEntry>
  {
    if k in t.entries then t.entries[k] else []
  }

  /** `if (!m.has(k)) m.set(k, []); m.get(k).push(e)`. */
  function AppendTo(t: Table<seq<RagEntry>>, k: string, e: RagEntry): Table<seq<RagEntry>>
  {
    t.Put(k, GroupOf(t, k) + [e])
  }

  /** The opening group an entry joins: its opening, when it is in the opening phase. */
  function OpeningKey(e: RagEntry): Option<string>
  {
    if e.gamePhase == "opening" && Truthy(e.opening) then Some(e.opening.value) else None
  }

  /** The tactical group an entry joins: `<piece>_capture` or `<piece>_tactic`. */
  function TacticalKey(e: RagEntry): Option<string>
  {
    if Truthy(e.info.captured) || e.info.check || e.info.checkmate then
      Some(e.info.piece + "_" + (if Truthy(e.info.captured) then "capture" else "tactic"))
    else None
  }

  /** The endgame group an entry joins: the board field of its FEN. */
  function EndgameKey(e: RagEntry): Option<string>
  {
    if e.gamePhase == "endgame" then Some(Split(e.position, ' ')[0]) else None
  }

  /** The table after every entry of `es` has joined its group under `keyOf`. */
  function GroupAll(t: Table<seq<RagEntry>>, es: seq<RagEntry>, keyOf: RagEntry -> Option<string>): Table<seq<RagEntry>>
  {
    if |es| == 0 then t
    else
      var before := GroupAll(t, es[..|es| - 1], keyOf);
      match keyOf(es[|es| - 1])
      case Some(k) => AppendTo(before, k, es[|es| - 1])
      case None => before
  }

  /** The entries of `es` that `keyOf` sends to `k`, in order. */
  function Matching(es: seq<RagEntry>, keyOf: RagEntry -> Option<string>, k: string): (r: seq<RagEntry>)
    ensures |r| <= |es|
  {
    if |es| == 0 then []
    else Matching(es[..|es| - 1], keyOf, k) + (if keyOf(es[|es| - 1]) == Some(k) then [es[|es| - 1]] else [])
  }

  /** Grouping only appends: each group gains exactly the new entries sent to it, in order. */
  lemma {:induction false} GroupAllLookup(t: Table<seq<RagEntry>>, es: seq<RagEntry>, keyOf: RagEntry -> Option<string>, k: string)
    ensures GroupOf(GroupAll(t, es, keyOf), k) == GroupOf(t, k) + Matching(es, keyOf, k)
    ensures k in GroupAll(t, es, keyOf).entries <==> k in t.entries || Matching(es, keyOf, k) != []
  {
    if |es| > 0 {
      var init, e := es[..|es| - 1], es[|es| - 1];
      GroupAllLookup(t, init, keyOf, k);
      var before := GroupAll(t, init, keyOf);
      assert GroupOf(t, k) + Matching(init, keyOf, k) + [e] == GroupOf(t, k) + (Matching(init, keyOf, k) + [e]);
      match keyOf(e)
      case Some(k') =>
        if k' != k {
          assert GroupOf(AppendTo(before, k', e), k) == GroupOf(before, k);
        }
      case None =>
    }
  }

  /** Grouping keeps the table well formed and only adds keys after the existing ones. */
  lemma {:induction false} GroupAllKeys(t: Table<seq<RagEntry>>, es: seq<RagEntry>, keyOf: RagEntry -> Option<string>)
    requires t.Valid()
    ensures GroupAll(t, es, keyOf).Valid()
    ensures t.keys <= GroupAll(t, es, keyOf).keys
  {
    if |es| > 0 {
      GroupAllKeys(t, es[..|es| - 1], keyOf);
    }
  }

  /** A tactical key names the piece and whether the move captured. */
  lemma TacticalKeyShape(e: RagEntry)
    ensures TacticalKey(e).Some? <==> Truthy(e.info.captured) || e.info.check || e.info.checkmate
    ensures Truthy(e.info.captured) ==> TacticalKey(e) == Some(e.info.piece + "_capture")
    ensures !Truthy(e.info.captured) && (e.info.check || e.info.checkmate) ==> TacticalKey(e) == Some(e.info.piece + "_tactic")
  {
    var piece := e.info.piece;
    assert piece + "_" + "capture" == piece + "_capture";
    assert piece + "_" + "tactic" == piece + "_tactic";
  }

  /** An endgame key is the start of the FEN up to its first space. */
  lemma {:induction false} SplitFirstIsPrefix(s: string, sep: char)
    ensures Split(s, sep)[0] <= s && sep !in Split(s, sep)[0]
    ensures |Split(s, sep)[0]| < |s| ==> s[|Split(s, sep)[0]|] == sep
    decreases |s|
  {
    if |s| > 0 && s[0] != sep {
      SplitFirstIsPrefix(s[1..], sep);
      assert s == [s[0]] + s[1..];
    }
  }

  /** The sizes `updateRAGKnowledge` reports. */
  datatype KnowledgeSizes = KnowledgeSizes(openingPatterns: nat, tacticalMotifs: nat, endgamePositions: nat)

  /** `ragData`'s three groupings; each is a Map from key to the entries filed under it. */
  class RagKnowledge {
    var openingPatterns: Table<seq<RagEntry>>
    var tacticalMotifs: Table<seq<RagEntry>>
    var endgamePositions: Table<seq<RagEntry>>

    predicate Valid()
      reads this
    {
      openingPatterns.Valid() && tacticalMotifs.Valid() && endgamePositions.Valid()
    }

    constructor ()
      ensures Valid()
      ensures openingPatterns.entries == map[] && tacticalMotifs.entries == map[] && endgamePositions.entries == map[]
    {
      openingPatterns := EmptyTable();
      tacticalMotifs := EmptyTable();
      endgamePositions := EmptyTable();
    }

    /** `updateRAGKnowledge`: file every entry under its groups, then report the number of keys of each. */
    method UpdateRagKnowledge(data: seq<RagEntry>) returns (sizes: KnowledgeSizes)
      requires Valid()
      modifies this
      ensures Valid()
      ensures openingPatterns == GroupAll(old(openingPatterns), data, OpeningKey)
      ensures tacticalMotifs == GroupAll(old(tacticalMotifs), data, TacticalKey)
      ensures endgamePositions == GroupAll(old(endgamePositions), data, EndgameKey)
      ensures sizes == KnowledgeSizes(|openingPatterns.keys|, |tacticalMotifs.keys|, |endgamePositions.keys|)
    {
      var i := 0;
      while i < |data|
        invariant 0 <= i <= |data|
        invariant openingPatterns == GroupAll(old(openingPatterns), data[..i], OpeningKey)
        invariant tacticalMotifs == GroupAll(old(tacticalMotifs), data[..i], TacticalKey)
        invariant endgamePositions == GroupAll(old(endgamePositions), data[..i], EndgameKey)
      {
        var entry := data[i];
        assert data[..i + 1][..i] == data[..i] && data[..i + 1][i] == entry;
        if entry.gamePhase == "opening" && Truthy(entry.opening) {
          openingPatterns := AppendTo(openingPatterns, entry.opening.value, entry);
        }
        if Truthy(entry.info.captured) || entry.info.check || entry.info.checkmate {
          var tacticalKey := entry.info.piece + "_" + (if Truthy(entry.info.captured) then "capture" else "tactic");
          tacticalMotifs := AppendTo(tacticalMotifs, tacticalKey, entry);
        }
        if entry.gamePhase == "endgame" {
          endgamePositions := AppendTo(endgamePositions, Split(entry.position, ' ')[0], entry);
        }
        i := i + 1;
      }
      assert data[..i] == data;
      GroupAllKeys(old(openingPatterns), data, OpeningKey);
      GroupAllKeys(old(tacticalMotifs), data, TacticalKey);
      GroupAllKeys(old(endgamePositions), data, EndgameKey);
      sizes := KnowledgeSizes(|openingPatterns.keys|, |tacticalMotifs.keys|, |endgamePositions.keys|);
    }

    /** `findRelevantOpenings(moveHistory)`: the hints of every opening group, most frequent first, at most three. */
    method FindRelevantOpenings(history: seq<string>) returns (r: seq<OpeningHint>)
      requires Valid()
      ensures r == Take(SortDesc(Hints(openingPatterns, openingPatterns.keys, history), Frequency), 3)
    {
      var keys := openingPatterns.keys;
      var openings := [];
      var i := 0;
      while i < |keys|
        invariant 0 <= i <= |keys|
        invariant openings == Hints(openingPatterns, keys[..i], history)
      {
        assert keys[..i + 1][..i] == keys[..i] && keys[..i + 1][i] == keys[i];
        var openingName := keys[i];
        var relevantEntries := RelevantEntries(openingPatterns.entries[openingName], history);
        if |relevantEntries| > 0 {
          var commonMoves := Dedupe(Sans(relevantEntries));
          openings := openings + [OpeningHint(openingName, Take(commonMoves, 5), |relevantEntries|)];
        }
        i := i + 1;
      }
      assert keys[..i] == keys;
      r := Take(SortDesc(openings, Frequency), 3);
    }
  }

  // ---------------------------------------------------------------------
  // findRelevantOpenings
  // ---------------------------------------------------------------------

  /** One element of `findRelevantOpenings`' result. */
  datatype OpeningHint = OpeningHint(name: string, commonMoves: seq<string>, frequency: nat)

  function Frequency(h: OpeningHint): int { h.frequency }

  /** The entry's move was played, or one of the moves before it was. */
  predicate Relevant(e: RagEntry, history: seq<string>)
  {
    e.info.san in history || exists m :: m in history && m in e.previousMoves
  }

  /** `entries.filter(entry => ...)`. */
  function RelevantEntries(es: seq<RagEntry>, history: seq<string>): (r: seq<RagEntry>)
    ensures |r| <= |es|
    ensures forall e :: e in r <==> e in es && Relevant(e, history)
  {
    if |es| == 0 then []
    else
      var init := es[..|es| - 1];
      assert es == init + [es[|es| - 1]];
      RelevantEntries(init, history) + (if Relevant(es[|es| - 1], history) then [es[|es| - 1]] else [])
  }

  /** `relevantEntries.map(entry => entry.san)`. */
  function Sans(es: seq<RagEntry>): (r: seq<string>)
    ensures |r| == |es| && forall i :: 0 <= i < |es| ==> r[i] == es[i].info.san
  {
    seq(|es|, i requires 0 <= i < |es| => es[i].info.san)
  }

  /** `[...new Set(xs)]`: each value once, at its first occurrence. */
  function Dedupe(xs: seq<string>): (r: seq<string>)
    ensures Distinct(r)
    ensures forall x :: x in r <==> x in xs
  {
    if |xs| == 0 then []
    else
      var init := xs[..|xs| - 1];
      var seen := Dedupe(init);
      assert xs == init + [xs[|xs| - 1]];
      if xs[|xs| - 1] in seen then seen else seen + [xs[|xs| - 1]]
  }

  /** The hint for one opening group, when some of its entries are relevant. */
  function HintFor(name: string, entries: seq<RagEntry>, history: seq<string>): (h: Option<OpeningHint>)
    ensures h.Some? <==> exists e :: e in entries && Relevant(e, history)
    ensures h.Some? ==> h.value.name == name && h.value.frequency > 0 && |h.value.commonMoves| <= 5 && Distinct(h.value.commonMoves)
    ensures h.Some? ==> forall m :: m in h.value.commonMoves ==> exists e :: e in entries && Relevant(e, history) && e.info.san == m
  {
    var relevant := RelevantEntries(entries, history);
    if |relevant| > 0 then
      assert relevant[0] in relevant;
      var moves := Take(Dedupe(Sans(relevant)), 5);
      assert forall m :: m in moves ==> m in Sans(relevant);
      Some(OpeningHint(name, moves, |relevant|))
    else None
  }

  /** The hints of the groups under `keys`, in key order. */
  function Hints(t: Table<seq<RagEntry>>, keys: seq<string>, history: seq<string>): seq<OpeningHint>
    requires forall k :: k in keys ==> k in t.entries
  {
    if |keys| == 0 then []
    else
      var k := keys[|keys| - 1];
      Hints(t, keys[..|keys| - 1], history) + (match HintFor(k, t.entries[k], history) case Some(h) => [h] case None => [])
  }

  /** A hint is listed exactly when it is the hint of one of the groups. */
  lemma {:induction false} HintsMembers(t: Table<seq<RagEntry>>, keys: seq<string>, history: seq<string>, h: OpeningHint)
    requires forall k :: k in keys ==> k in t.entries
    ensures h in Hints(t, keys, history) <==> h.name in keys && HintFor(h.name, t.entries[h.name], history) == Some(h)
    decreases |keys|
  {
    if |keys| > 0 {
      var init := keys[..|keys| - 1];
      assert keys == init + [keys[|keys| - 1]];
      HintsMembers(t, init, history, h);
    }
  }

  /**
   * `openings.sort(...).slice(0, 3)`: at most three, most frequent first,
   * each one of the candidates, and none left out more frequent than one kept.
   */
  lemma TopThree(hints: seq<OpeningHint>)
    ensures var r := Take(SortDesc(hints, Frequency), 3);
      && |r| <= 3 && SortedDesc(r, Frequency)
      && (forall h :: h in r ==> h in hints)
      && (forall h, x :: h in hints && h !in r && x in r ==> x.frequency >= h.frequency)
  {
    var sorted := SortDesc(hints, Frequency);
    var r := Take(sorted, 3);
    SortDescCorrect(hints, Frequency);
    forall h | h in r
      ensures h in hints
    {
      assert h in multiset(sorted);
    }
    forall h, x | h in hints && h !in r && x in r
      ensures x.frequency >= h.frequency
    {
      assert h in multiset(sorted);
      var j :| 0 <= j < |sorted| && sorted[j] == h;
      var i :| 0 <= i < |r| && r[i] == x;
      assert j >= |r|;
      assert sorted[i] == x;
    }
  }

  // ---------------------------------------------------------------------
  // findTacticalPatterns
  // ---------------------------------------------------------------------

  /** One element of `findTacticalPatterns`' result. */
  datatype Pattern = Pattern(kind: string, description: string)

  /** `toUpperCase()` on ASCII letters. */
  function Upper(s: string): (u: string)
    ensures |u| == |s| && forall i :: 0 <= i < |s| ==> u[i] == ToUpper(s[i])
  {
    seq(|s|, i requires 0 <= i < |s| => ToUpper(s[i]))
  }

  function CapturePattern(m: VerboseMove): Pattern
    requires m.captured.Some?
  {
    Pattern("Capture", Upper(m.piece) + " captures " + Upper(m.captured.value) + " on " + m.to)
  }

  function CheckPattern(m: VerboseMove): Pattern
  {
    Pattern("Check", Upper(m.piece) + " to " + m.to + " gives check")
  }

  function MatePattern(m: VerboseMove): Pattern
  {
    Pattern("Checkmate", Upper(m.piece) + " to " + m.to + " is checkmate!")
  }

  /** The letters chess.js puts in `flags`: normal, big pawn push, en passant, capture, promotion, castling. */
  const MoveFlagLetters := "nbecpkq"

  predicate ChessJsFlags(m: VerboseMove)
  {
    forall i :: 0 <= i < |m.flags| ==> m.flags[i] in MoveFlagLetters
  }

  /** The patterns of one move as the source computes them: `flags` tested for 'c' and '#'. */
  function MovePatternsAsWritten(m: VerboseMove): seq<Pattern>
  {
    (if Truthy(m.captured) then [CapturePattern(m)] else [])
    + (if 'c' in m.flags then [CheckPattern(m)] else [])
    + (if '#' in m.flags then [MatePattern(m)] else [])
  }

  /** A plain pawn capture with no check, as chess.js describes it. */
  const PlainCapture := VerboseMove("exd5", "p", "e4", "d5", Some("p"), None, false, false, "c")

  /**
   * As written, a plain capture is reported twice, once as a check, and no
   * chess.js move is ever reported as checkmate.
   */
  lemma AsWrittenMisreadsFlags(m: VerboseMove)
    ensures MovePatternsAsWritten(PlainCapture) == [CapturePattern(PlainCapture), CheckPattern(PlainCapture)]
    ensures '+' !in PlainCapture.san
    ensures ChessJsFlags(m) ==> forall p :: p in MovePatternsAsWritten(m) ==> p.kind != "Checkmate"
  {
    assert 'c' in PlainCapture.flags && '#' !in PlainCapture.flags;
    assert Truthy(PlainCapture.captured);
  }

  /** The patterns of one move, with check and mate read from the SAN suffix chess.js writes. */
  function MovePatterns(m: VerboseMove): seq<Pattern>
  {
    (if Truthy(m.captured) then [CapturePattern(m)] else [])
    + (if '+' in m.san then [CheckPattern(m)] else [])
    + (if '#' in m.san then [MatePattern(m)] else [])
  }

  /** A move yields a capture, check or mate pattern exactly when it captures, checks or mates. */
  lemma MovePatternsCorrect(m: VerboseMove)
    ensures (exists p :: p in MovePatterns(m) && p.kind == "Capture") <==> Truthy(m.captured)
    ensures (exists p :: p in MovePatterns(m) && p.kind == "Check") <==> '+' in m.san
    ensures (exists p :: p in MovePatterns(m) && p.kind == "Checkmate") <==> '#' in m.san
    ensures |MovePatterns(m)| <= 3
  {
    var a := if Truthy(m.captured) then [CapturePattern(m)] else [];
    var b := if '+' in m.san then [CheckPattern(m)] else [];
    var c := if '#' in m.san then [MatePattern(m)] else [];
    assert MovePatterns(m) == a + b + c;
    if Truthy(m.captured) { assert a[0] in MovePatterns(m); }
    if '+' in m.san { assert b[0] in MovePatterns(m); }
    if '#' in m.san { assert c[0] in MovePatterns(m); }
  }

  /** All patterns of the moves, move by move. */
  function PatternsOf(moves: seq<VerboseMove>, patternsOf: VerboseMove -> seq<Pattern>): seq<Pattern>
  {
    if |moves| == 0 then [] else PatternsOf(moves[..|moves| - 1], patternsOf) + patternsOf(moves[|moves| - 1])
  }

  /** A pattern is found exactly when one of the moves yields it. */
  lemma {:induction false} PatternsOfMembers(moves: seq<VerboseMove>, patternsOf: VerboseMove -> seq<Pattern>, p: Pattern)
    ensures p in PatternsOf(moves, patternsOf) <==> exists m :: m in moves && p in patternsOf(m)
    decreases |moves|
  {
    if |moves| > 0 {
      var init := moves[..|moves| - 1];
      assert moves == init + [moves[|moves| - 1]];
      PatternsOfMembers(init, patternsOf, p);
    }
  }

  /** `findTacticalPatterns` as written, over the position's verbose moves. */
  function FindTacticalPatternsAsWritten(moves: seq<VerboseMove>): (r: seq<Pattern>)
    ensures |r| <= 3
  {
    Take(PatternsOf(moves, MovePatternsAsWritten), 3)
  }

  /** `findTacticalPatterns` over the position's verbose moves: the first three patterns found. */
  function FindTacticalPatterns(moves: seq<VerboseMove>): (r: seq<Pattern>)
    ensures |r| <= 3
  {
    Take(PatternsOf(moves, MovePatterns), 3)
  }

  /** At most three patterns, each one that some move yields; fewer than three only when that is all there are. */
  lemma FindTacticalPatternsSound(moves: seq<VerboseMove>, p: Pattern)
    ensures p in FindTacticalPatterns(moves) ==> exists m :: m in moves && p in MovePatterns(m)
    ensures |FindTacticalPatterns(moves)| < 3 ==> FindTacticalPatterns(moves) == PatternsOf(moves, MovePatterns)
  {
    PatternsOfMembers(moves, MovePatterns, p);
  }

  // ---------------------------------------------------------------------
  // parseError
  // ---------------------------------------------------------------------

  /** `error.response`: the status and `data.error`. */
  datatype HttpResponse = HttpResponse(status: int, dataError: Option<string>)

  /** The fields of an axios error that `parseError` reads. */
  datatype RequestError = RequestError(response: Option<HttpResponse>, code: Option<string>, message: Option<string>)

  /** `${value}` for a string that may be `undefined`. */
  function Interpolated(s: Option<string>): string
  {
    if s.Some? then s.value else "undefined"
  }

  const TimeoutText := "Request timeout - Lichess API is slow to respond"
  const UnknownText := "Unknown error occurred"

  /** `parseError(error)`. */
  function ParseError(e: RequestError): (text: string)
  {
    if e.response.Some? then
      var detail := if Truthy(e.response.value.dataError) then e.response.value.dataError.value else Interpolated(e.message);
      HttpText(e.response.value.status, detail)
    else if e.code == Some("ECONNABORTED") then TimeoutText
    else if Truthy(e.message) then e.message.value
    else UnknownText
  }

  /** A digit string followed by a non-digit parses to the digits' value. */
  lemma {:induction false} DigitPrefixAppend(digits: string, rest: string)
    requires AllDigits(digits) && (|rest| == 0 || !IsDigit(rest[0]))
    ensures DigitPrefix(digits + rest) == digits
    decreases |digits|
  {
    if |digits| > 0 {
      assert (digits + rest)[1..] == digits[1..] + rest;
      DigitPrefixAppend(digits[1..], rest);
    } else {
      assert digits + rest == rest;
    }
  }

  /** `TrimStart` leaves a string alone when it does not start with whitespace. */
  lemma TrimStartKeeps(s: string)
    requires |s| > 0 && !IsWhitespace(s[0])
    ensures TrimStart(s) == s
  {
  }

  lemma ParseNatFollowedBy(n: nat, rest: string)
    requires |rest| > 0 && !IsDigit(rest[0])
    ensures ParseInt(NatToString(n) + rest) == Some(n)
  {
    var digits := NatToString(n);
    var s := digits + rest;
    DigitsValueNatToString(n);
    DigitPrefixAppend(digits, rest);
    assert s[0] == digits[0] && IsDigit(s[0]);
    TrimStartKeeps(s);
  }

  /** A minus sign, a digit string and then a non-digit: `ParseInt` reads the negated digits. */
  lemma ParseNegatedFollowedBy(s: string, digits: string, rest: string)
    requires |digits| > 0 && AllDigits(digits) && (|rest| == 0 || !IsDigit(rest[0]))
    requires |s| > 1 && s[0] == '-' && s[1..] == digits + rest
    ensures ParseInt(s) == Some(-(DigitsValue(digits) as int))
  {
    TrimStartKeeps(s);
    DigitPrefixAppend(digits, rest);
    ParseIntMinusDigits(s, digits);
  }

  /** A printed integer followed by a non-digit reads back as that integer. */
  lemma ParseIntFollowedBy(i: int, rest: string)
    requires |rest| > 0 && !IsDigit(rest[0])
    ensures ParseInt(IntToString(i) + rest) == Some(i)
  {
    if i < 0 {
      var digits := NatToString(-i);
      var s := IntToString(i) + rest;
      assert s[0] == '-' && s[1..] == digits + rest;
      ParseNegatedFollowedBy(s, digits, rest);
      DigitsValueNatToString(-i);
    } else {
      ParseNatFollowedBy(i, rest);
    }
  }

  /** The text for an HTTP failure: the status, then the server's error or the message. */
  function HttpText(status: int, detail: string): string
  {
    "HTTP " + IntToString(status) + ": " + detail
  }

  /** An HTTP failure's text names its status, which reads back from the text. */
  lemma HttpTextStatus(status: int, detail: string)
    ensures StartsWith(HttpText(status, detail), "HTTP ")
    ensures ParseInt(HttpText(status, detail)[5..]) == Some(status)
  {
    var tail := ": " + detail;
    var digits := IntToString(status);
    assert HttpText(status, detail) == "HTTP " + digits + tail;
    PrefixedParts("HTTP ", digits, tail);
    assert HttpText(status, detail)[5..] == digits + tail;
    ParseIntFollowedBy(status, tail);
  }

  /** An HTTP failure's text ends with the detail. */
  lemma HttpTextDetail(status: int, detail: string)
    ensures EndsWith(HttpText(status, detail), ": " + detail)
  {
    var tail := ": " + detail;
    var text := HttpText(status, detail);
    assert text == ("HTTP " + IntToString(status)) + tail;
    assert text[|text| - |tail|..] == tail;
  }

  /** The list facts behind `HttpTextStatus`. */
  lemma PrefixedParts(a: string, b: string, c: string)
    ensures StartsWith(a + b + c, a)
    ensures (a + b + c)[|a|..] == b + c
  {
    assert a + b + c == a + (b + c);
  }

  /** For an HTTP failure: the status, then the server's error when there is one, else the message. */
  lemma ParseErrorHttp(e: RequestError)
    requires e.response.Some?
    ensures Truthy(e.response.value.dataError) ==> ParseError(e) == HttpText(e.response.value.status, e.response.value.dataError.value)
    ensures !Truthy(e.response.value.dataError) ==> ParseError(e) == HttpText(e.response.value.status, Interpolated(e.message))
  {
  }

  /** Without a response: the timeout text for ECONNABORTED, else the message, else the fallback text. */
  lemma ParseErrorNoResponse(e: RequestError)
    requires e.response.None?
    ensures ParseError(e) == TimeoutText <==> e.code == Some("ECONNABORTED") || (Truthy(e.message) && e.message.value == TimeoutText)
    ensures e.code != Some("ECONNABORTED") ==> (ParseError(e) == UnknownText <==> !Truthy(e.message) || e.message.value == UnknownText)
    ensures e.code != Some("ECONNABORTED") && Truthy(e.message) ==> ParseError(e) == e.message.value
  {
  }
}
