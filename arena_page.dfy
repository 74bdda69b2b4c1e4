/**
 * The arena page of the browser (public/js/arena.js): the result and winner
 * labels, the complexity band of a game, the matchup name split on " vs ",
 * and the quick tally over a sample of a matchup's games. Loading a game's
 * PGN is a parameter that either yields its Result header or fails.
 */
module ArenaPage {
  import opened Wrappers
  import opened Strings

  /** `formatArenaResult(result)`. */
  function FormatArenaResult(result: string): string
  {
    if result == "1-0" then "🏆 Vitória Brancas"
    else if result == "0-1" then "🏆 Vitória Pretas"
    else if result == "1/2-1/2" then "🤝 Empate"
    else "⏳ Em andamento"
  }

  /** `getWinnerFromResult(result, white, black)`; an empty or missing name falls back to the colour. */
  function WinnerFromResult(result: string, white: Option<string>, black: Option<string>): string
  {
    if result == "1-0" then "🏆 " + (if Truthy(white) then white.value else "Brancas")
    else if result == "0-1" then "🏆 " + (if Truthy(black) then black.value else "Pretas")
    else if result == "1/2-1/2" then "🤝 Empate"
    else "⏳ Em andamento"
  }

  /**
   * Both labels announce a winner exactly for "1-0" and "0-1", naming the
   * winning side's model when it is known; they agree on draws and on every
   * other result, which reads as a game in progress.
   */
  lemma ArenaLabelsAgree(result: string, white: Option<string>, black: Option<string>)
    ensures StartsWith(FormatArenaResult(result), "🏆 ") <==> result == "1-0" || result == "0-1"
    ensures StartsWith(WinnerFromResult(result, white, black), "🏆 ") <==> result == "1-0" || result == "0-1"
    ensures result == "1-0" && Truthy(white) ==> WinnerFromResult(result, white, black) == "🏆 " + white.value
    ensures result == "0-1" && Truthy(black) ==> WinnerFromResult(result, white, black) == "🏆 " + black.value
    ensures result != "1-0" && result != "0-1" ==> WinnerFromResult(result, white, black) == FormatArenaResult(result)
    ensures FormatArenaResult(result) == "⏳ Em andamento" <==> result != "1-0" && result != "0-1" && result != "1/2-1/2"
  {
    var w := "🏆 ";
    var labels := ["🏆 Vitória Brancas", "🏆 Vitória Pretas", "🏆 " + (if Truthy(white) then white.value else "Brancas"),
      "🏆 " + (if Truthy(black) then black.value else "Pretas")];
    forall k | 0 <= k < |labels| ensures StartsWith(labels[k], w) {
      assert labels[k][..|w|] == w;
    }
    assert !StartsWith("🤝 Empate", w) by {
      assert "🤝 Empate"[0] != w[0];
    }
    assert !StartsWith("⏳ Em andamento", w) by {
      assert "⏳ Em andamento"[0] != w[0];
    }
  }

  // ---------------------------------------------------------------------
  // Complexity

  /** The complexity shown for a game of `gameLength` moves. */
  function Complexity(gameLength: nat): (c: string)
    ensures c == "Alta" <==> gameLength > 40
    ensures c == "Média" <==> 26 <= gameLength <= 40
    ensures c == "Baixa" <==> gameLength <= 25
  {
    if gameLength > 40 then "Alta" else if gameLength > 25 then "Média" else "Baixa"
  }

  function Level(complexity: string): nat
  {
    if complexity == "Alta" then 2 else if complexity == "Média" then 1 else 0
  }

  /** A longer game is never rated less complex. */
  lemma ComplexityMonotone(n: nat, m: nat)
    requires n <= m
    ensures Level(Complexity(n)) <= Level(Complexity(m))
  {
  }

  // ---------------------------------------------------------------------
  // The matchup name

  /** JavaScript `s.split(sep)` for a non-empty separator. */
  function SplitOn(s: string, sep: string): (parts: seq<string>)
    requires |sep| > 0
    ensures |parts| >= 1
    decreases |s|
  {
    match SplitOnce(s, sep)
    case None => [s]
    case Some((a, b)) => [a] + SplitOn(b, sep)
  }

  /** `parts.join(sep)`. */
  function JoinOn(parts: seq<string>, sep: string): string
  {
    if |parts| == 0 then ""
    else if |parts| == 1 then parts[0]
    else parts[0] + sep + JoinOn(parts[1..], sep)
  }

  /** The text before the first separator holds no separator. */
  lemma FirstPartClean(s: string, sep: string)
    requires |sep| > 0 && SplitOnce(s, sep).Some?
    ensures !Contains(SplitOnce(s, sep).value.0, sep)
  {
    var a, b := SplitOnce(s, sep).value.0, SplitOnce(s, sep).value.1;
    assert s == a + sep + b;
    forall i | 0 <= i <= |a| - |sep| ensures !StartsWith(a[i..], sep) {
      assert !StartsWith(s[i..], sep);
      assert a[i..][..|sep|] == s[i..][..|sep|];
    }
  }

  /** Joining the pieces with the separator gives back the text. */
  lemma {:induction false} SplitOnJoin(s: string, sep: string)
    requires |sep| > 0
    ensures JoinOn(SplitOn(s, sep), sep) == s
    decreases |s|
  {
    match SplitOnce(s, sep)
    case None =>
    case Some((a, b)) =>
      SplitOnJoin(b, sep);
      var parts := SplitOn(s, sep);
      assert parts[1..] == SplitOn(b, sep);
  }

  /** No piece holds the separator. */
  lemma {:induction false} SplitOnClean(s: string, sep: string)
    requires |sep| > 0
    ensures forall k :: 0 <= k < |SplitOn(s, sep)| ==> !Contains(SplitOn(s, sep)[k], sep)
    decreases |s|
  {
    match SplitOnce(s, sep)
    case None =>
    case Some((a, b)) =>
      SplitOnClean(b, sep);
      FirstPartClean(s, sep);
      CleanCons(a, SplitOn(b, sep), sep);
  }

  lemma CleanCons(a: string, rest: seq<string>, sep: string)
    requires !Contains(a, sep) && forall k :: 0 <= k < |rest| ==> !Contains(rest[k], sep)
    ensures forall k :: 0 <= k < |[a] + rest| ==> !Contains(([a] + rest)[k], sep)
  {
    forall k | 0 <= k < |[a] + rest| ensures !Contains(([a] + rest)[k], sep) {
      if k > 0 {
        assert ([a] + rest)[k] == rest[k - 1];
      }
    }
  }

  const Versus := " vs "

  /** `matchup.split(" vs ")`: the model names of a matchup. */
  function MatchupModels(matchup: string): seq<string>
  {
    SplitOn(matchup, Versus)
  }

  // ---------------------------------------------------------------------
  // loadArenaConfrontoStats

  /** Loading one game: its Result header (`None` when absent), or a thrown error. */
  datatype Loaded = Loaded(result: Option<string>) | LoadFailed

  /** The games the tally reads: the first ten, or all when fewer. */
  function Sample(games: seq<string>, load: string -> Loaded): (s: seq<Loaded>)
    ensures |s| == if |games| < 10 then |games| else 10
    ensures forall i :: 0 <= i < |s| ==> s[i] == load(games[i])
  {
    var n := if |games| < 10 then |games| else 10;
    seq(n, i requires 0 <= i < n => load(games[i]))
  }

  /** How many loaded games carry the given result. */
  function CountResult(loads: seq<Loaded>, result: string): (n: nat)
    ensures n <= |loads|
  {
    if |loads| == 0 then 0
    else CountResult(loads[..|loads| - 1], result) + (if loads[|loads| - 1] == Loaded(Some(result)) then 1 else 0)
  }

  predicate Recognised(l: Loaded)
  {
    l == Loaded(Some("1-0")) || l == Loaded(Some("0-1")) || l == Loaded(Some("1/2-1/2"))
  }

  /**
   * Each loaded game with one of the three results raises exactly one
   * counter, so the counters add up to the sample size exactly when every
   * sampled game loaded with a recognised result.
   */
  lemma {:induction false} TallyAddsUp(loads: seq<Loaded>)
    ensures CountResult(loads, "1-0") + CountResult(loads, "0-1") + CountResult(loads, "1/2-1/2") <= |loads|
    ensures CountResult(loads, "1-0") + CountResult(loads, "0-1") + CountResult(loads, "1/2-1/2") == |loads|
      <==> forall i :: 0 <= i < |loads| ==> Recognised(loads[i])
    decreases |loads|
  {
    if |loads| > 0 {
      var init := loads[..|loads| - 1];
      TallyAddsUp(init);
      if forall i :: 0 <= i < |init| ==> Recognised(init[i]) {
        assert forall i :: 0 <= i < |init| ==> init[i] == loads[i];
      } else {
        var i :| 0 <= i < |init| && !Recognised(init[i]);
        assert loads[i] == init[i];
      }
    }
  }

  /** What `updateArenaConfrontoDisplay` receives. */
  datatype ConfrontoStats = ConfrontoStats(models: seq<string>, whiteWins: nat, blackWins: nat, draws: nat, totalGames: nat)

  /** `loadArenaConfrontoStats(matchup, games, arena)`. */
  method LoadArenaConfrontoStats(matchup: string, games: seq<string>, load: string -> Loaded) returns (stats: ConfrontoStats)
    ensures stats.models == MatchupModels(matchup) && stats.totalGames == |games|
    ensures stats.whiteWins == CountResult(Sample(games, load), "1-0")
    ensures stats.blackWins == CountResult(Sample(games, load), "0-1")
    ensures stats.draws == CountResult(Sample(games, load), "1/2-1/2")
  {
    var whiteWins, blackWins, draws := 0, 0, 0;
    var models := MatchupModels(matchup);
    var sampleSize := if |games| < 10 then |games| else 10;
    ghost var sample := Sample(games, load);
    for i := 0 to sampleSize
      invariant whiteWins == CountResult(sample[..i], "1-0")
      invariant blackWins == CountResult(sample[..i], "0-1")
      invariant draws == CountResult(sample[..i], "1/2-1/2")
    {
      assert sample[..i + 1][..i] == sample[..i];
      match load(games[i]) {
        case LoadFailed =>
        case Loaded(result) =>
          if result == Some("1-0") {
            whiteWins := whiteWins + 1;
          } else if result == Some("0-1") {
            blackWins := blackWins + 1;
          } else if result == Some("1/2-1/2") {
            draws := draws + 1;
          }
      }
    }
    assert sample[..sampleSize] == sample;
    stats := ConfrontoStats(models, whiteWins, blackWins, draws, |games|);
  }
}
