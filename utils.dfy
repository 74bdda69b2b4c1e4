/**
 * The pure helpers of the client utility class (public/js/utils.js):
 * square names and board coordinates, hexadecimal colours, durations,
 * Elo display, result labels, the two validators, move formatting and
 * parsing, and `deepClone`.
 */
module Utils {
  import opened Wrappers
  import opened Strings
  import Json
  import TournamentElo

  // ---------------------------------------------------------------------
  // Squares
  // ---------------------------------------------------------------------

  /** A file and a rank; `None` stands for NaN. */
  datatype Coords = Coords(file: Option<int>, rank: Option<int>)

  /**
   * `squareToCoords`: the file from the first character's code (a = 0) and
   * the rank from `parseInt` of the second character, minus one.
   */
  function SquareToCoords(square: string): Coords
  {
    var file := if |square| == 0 then None else Some(square[0] as int - 97);
    var rank := if |square| < 2 then None else Less1(ParseDigit(square[1]));
    Coords(file, rank)
  }

  /** `parseInt` of a one-character string: the digit's value, or NaN. */
  function ParseDigit(c: char): Option<int>
  {
    if IsDigit(c) then Some(DigitValue(c)) else None
  }

  /** One less than a parsed number; NaN stays NaN. */
  function Less1(n: Option<int>): Option<int>
  {
    if n.Some? then Some(n.value - 1) else None
  }

  /** `ParseDigit` is `parseInt` on the one-character string. */
  lemma ParseDigitAgrees(c: char)
    ensures ParseDigit(c) == ParseInt([c])
  {
    if IsDigit(c) {
      DigitParses(c);
    } else {
      var t := TrimStart([c]);
      var body := if |t| > 0 && (t[0] == '-' || t[0] == '+') then t[1..] else t;
      assert |body| == 0 || body == [c] by {
        if !IsWhitespace(c) {
          assert t == [c];
        }
      }
      assert DigitPrefix(body) == [];
    }
  }

  lemma DigitParses(c: char)
    requires IsDigit(c)
    ensures ParseInt([c]) == Some(DigitValue(c))
  {
    ParseIntDigits([c]);
    assert [c][..0] == [];
  }

  /** `coordsToSquare`: the letter with code 97 + file, then rank + 1 in decimal. */
  function CoordsToSquare(file: int, rank: int): string
    requires 0 <= 97 + file < 0xD800
  {
    [(97 + file) as char] + IntToString(rank + 1)
  }

  /** A square name a1 … h8. */
  predicate IsSquare(s: string)
  {
    |s| == 2 && 'a' <= s[0] <= 'h' && '1' <= s[1] <= '8'
  }

  /** On the board, coordinates name a square and read back as themselves. */
  lemma CoordsRoundTrip(file: int, rank: int)
    requires 0 <= file < 8 && 0 <= rank < 8
    ensures IsSquare(CoordsToSquare(file, rank))
    ensures SquareToCoords(CoordsToSquare(file, rank)) == Coords(Some(file), Some(rank))
  {
    var digit := DigitChar(rank + 1);
    assert IntToString(rank + 1) == [digit];
  }

  /** A digit 1 … 8 prints as itself. */
  lemma SmallIntToString(c: char)
    requires '1' <= c <= '8'
    ensures IntToString(DigitValue(c)) == [c]
  {
    assert DigitChar(DigitValue(c)) == c;
  }

  /** The coordinates of a square name: its letter from a and its digit from 1. */
  lemma SquareCoords(square: string)
    requires IsSquare(square)
    ensures SquareToCoords(square) == Coords(Some(square[0] as int - 97), Some(DigitValue(square[1]) - 1))
  {
  }

  /** A square name reads as coordinates on the board that name it again. */
  lemma SquareRoundTrip(square: string)
    requires IsSquare(square)
    ensures var c := SquareToCoords(square);
      c.file.Some? && c.rank.Some? && 0 <= c.file.value < 8 && 0 <= c.rank.value < 8 &&
      CoordsToSquare(c.file.value, c.rank.value) == square
  {
    var file := square[0] as int - 97;
    var rank := DigitValue(square[1]) - 1;
    SquareCoords(square);
    assert SquareToCoords(square) == Coords(Some(file), Some(rank));
    SmallIntToString(square[1]);
    assert square == [square[0]] + [square[1]];
    assert CoordsToSquare(file, rank) == square;
  }

  // ---------------------------------------------------------------------
  // Colours
  // ---------------------------------------------------------------------

  function HexDigit(d: nat): (c: char)
    requires d < 16
  {
    if d < 10 then DigitChar(d) else ('a' as int + d - 10) as char
  }

  /** The value of a hexadecimal digit of either case. */
  function HexValue(c: char): Option<nat>
  {
    if IsDigit(c) then Some(DigitValue(c))
    else if 'a' <= c <= 'f' then Some(c as int - 'a' as int + 10)
    else if 'A' <= c <= 'F' then Some(c as int - 'A' as int + 10)
    else None
  }

  lemma HexValueDigit(d: nat)
    requires d < 16
    ensures HexValue(HexDigit(d)) == Some(d)
  {
  }

  function Pow16(w: nat): nat
  {
    if w == 0 then 1 else 16 * Pow16(w - 1)
  }

  /** `n.toString(16)` for a natural number. */
  function ToHex(n: nat): (s: string)
    ensures |s| >= 1
    decreases n
  {
    if n < 16 then [HexDigit(n)] else ToHex(n / 16) + [HexDigit(n % 16)]
  }

  /** The last w hexadecimal digits of v. */
  function Fixed(v: nat, w: nat): (s: string)
    ensures |s| == w
  {
    if w == 0 then "" else Fixed(v / 16, w - 1) + [HexDigit(v % 16)]
  }

  lemma DivMod16(n: nat, q: nat, r: nat)
    requires n == 16 * q + r && r < 16
    ensures n / 16 == q && n % 16 == r
  {
  }

  /** Dividing below a power of sixteen by sixteen stays below the next lower power. */
  lemma ShiftBelow(v: nat, w: nat)
    requires w > 0 && v < Pow16(w)
    ensures v / 16 < Pow16(w - 1)
  {
    assert Pow16(w) == 16 * Pow16(w - 1);
  }

  lemma MulPow16(a: nat, w: nat)
    requires w > 0
    ensures a * Pow16(w) == 16 * (a * Pow16(w - 1))
  {
    var p := Pow16(w - 1);
    assert Pow16(w) == 16 * p;
    calc {
      a * (16 * p);
      (a * 16) * p;
      (16 * a) * p;
      16 * (a * p);
    }
  }

  /** Printing 16^w + v in hexadecimal gives a 1 and then v in w digits. */
  lemma {:induction false} ToHexLeadingOne(v: nat, w: nat)
    requires v < Pow16(w)
    ensures ToHex(Pow16(w) + v) == "1" + Fixed(v, w)
    decreases w
  {
    if w > 0 {
      var n := Pow16(w) + v;
      var q := Pow16(w - 1) + v / 16;
      assert n == 16 * q + v % 16;
      DivMod16(n, q, v % 16);
      ShiftBelow(v, w);
      ToHexLeadingOne(v / 16, w - 1);
      assert n >= 16;
    }
  }

  /** w digits of a·16^w + v, behind k digits of a, are k + w digits of the whole. */
  lemma {:induction false} FixedSplit(n: nat, a: nat, v: nat, k: nat, w: nat)
    requires v < Pow16(w) && n == a * Pow16(w) + v
    ensures Fixed(n, k + w) == Fixed(a, k) + Fixed(v, w)
    decreases w
  {
    if w > 0 {
      var q := a * Pow16(w - 1) + v / 16;
      MulPow16(a, w);
      assert n == 16 * q + v % 16;
      DivMod16(n, q, v % 16);
      ShiftBelow(v, w);
      FixedSplit(q, a, v / 16, k, w - 1);
      assert Fixed(n, k + w) == Fixed(q, k + w - 1) + [HexDigit(v % 16)];
    }
  }

  /** `rgbToHex` for channels in 0..255: "#" and the last six digits of 2^24 + r·2^16 + g·2^8 + b. */
  function RgbToHex(r: nat, g: nat, b: nat): string
    requires r < 256 && g < 256 && b < 256
  {
    "#" + ToHex(16777216 + r * 65536 + g * 256 + b)[1..]
  }

  /** The value of two hexadecimal digits. */
  function PairValue(s: string): Option<nat>
    requires |s| == 2
  {
    match (HexValue(s[0]), HexValue(s[1]))
    case (Some(hi), Some(lo)) => Some(16 * hi + lo)
    case _ => None
  }

  /**
   * `hexToRgb`: an optional '#' and exactly six hexadecimal digits of either
   * case, read as three channels; `null` (here `None`) for anything else.
   */
  function HexToRgb(hex: string): Option<(nat, nat, nat)>
  {
    var body := if |hex| > 0 && hex[0] == '#' then hex[1..] else hex;
    if |body| != 6 then None
    else match (PairValue(body[..2]), PairValue(body[2..4]), PairValue(body[4..]))
      case (Some(r), Some(g), Some(b)) => Some((r, g, b))
      case _ => None
  }

  predicate IsLowerHex(c: char)
  {
    IsDigit(c) || 'a' <= c <= 'f'
  }

  /** A channel as two hexadecimal digits. */
  function Byte(x: nat): (s: string)
    requires x < 256
    ensures |s| == 2 && IsLowerHex(s[0]) && IsLowerHex(s[1])
  {
    [HexDigit(x / 16), HexDigit(x % 16)]
  }

  /** Two digits of a number below 256 are its `Byte`. */
  lemma FixedByte(x: nat, two: nat)
    requires x < 256 && two == 2
    ensures Fixed(x, two) == Byte(x)
  {
    assert x / 16 / 16 == 0 && x / 16 % 16 == x / 16;
  }

  lemma PairOfByte(x: nat)
    requires x < 256
    ensures PairValue(Byte(x)) == Some(x)
  {
    HexValueDigit(x / 16);
    HexValueDigit(x % 16);
  }

  lemma Pow16Values()
    ensures Pow16(2) == 256 && Pow16(6) == 16777216
  {
  }

  lemma Regroup(whole: string, front: string, a: string, b: string, c: string)
    requires whole == front + c && front == a + b
    ensures whole == a + b + c
  {
  }

  /**
   * Three channels below 16^w written with w digits each. The widths are
   * parameters so that the solver does not unfold `Fixed` on literal widths.
   */
  lemma FixedChannels(n: nat, rg: nat, r: nat, g: nat, b: nat, w: nat, w2: nat, w3: nat)
    requires g < Pow16(w) && b < Pow16(w) && w2 == w + w && w3 == w2 + w
    requires rg == r * Pow16(w) + g && n == rg * Pow16(w) + b
    ensures Fixed(n, w3) == Fixed(r, w) + Fixed(g, w) + Fixed(b, w)
  {
    FixedSplit(n, rg, b, w2, w);
    FixedSplit(rg, r, g, w, w);
    Regroup(Fixed(n, w3), Fixed(rg, w2), Fixed(r, w), Fixed(g, w), Fixed(b, w));
  }

  /** Six digits of the packed channels are two digits per channel. */
  lemma PackedDigits(n: nat, r: nat, g: nat, b: nat, six: nat)
    requires r < 256 && g < 256 && b < 256 && n == (r * 256 + g) * 256 + b && six == 6
    ensures Fixed(n, six) == Byte(r) + Byte(g) + Byte(b)
  {
    Pow16Values();
    FixedChannels(n, r * 256 + g, r, g, b, 2, 4, six);
    FixedByte(r, 2);
    FixedByte(g, 2);
    FixedByte(b, 2);
  }

  /** The six digits of `rgbToHex` are the three channels, two digits each. */
  lemma RgbDigits(r: nat, g: nat, b: nat)
    requires r < 256 && g < 256 && b < 256
    ensures RgbToHex(r, g, b) == "#" + (Byte(r) + Byte(g) + Byte(b))
  {
    var n := (r * 256 + g) * 256 + b;
    assert 16777216 + r * 65536 + g * 256 + b == 16777216 + n;
    var six := 6;
    assert ToHex(16777216 + n) == "1" + Fixed(n, six) by {
      Pow16Values();
      ToHexLeadingOne(n, six);
    }
    PackedDigits(n, r, g, b, six);
    var digits := Fixed(n, six);
    assert ("1" + digits)[1..] == digits;
  }

  /** '#' and six digits, two per channel, read back as the three channels. */
  lemma ReadChannels(r: nat, g: nat, b: nat)
    requires r < 256 && g < 256 && b < 256
    ensures HexToRgb("#" + (Byte(r) + Byte(g) + Byte(b))) == Some((r, g, b))
  {
    var digits := Byte(r) + Byte(g) + Byte(b);
    var hex := "#" + digits;
    assert hex[1..] == digits;
    assert digits[..2] == Byte(r) && digits[2..4] == Byte(g) && digits[4..] == Byte(b);
    PairOfByte(r);
    PairOfByte(g);
    PairOfByte(b);
  }

  /**
   * For channels in 0..255, `rgbToHex` gives '#' and six lowercase
   * hexadecimal digits, two per channel, and `hexToRgb` reads the channels
   * back.
   */
  lemma ColorRoundTrip(r: nat, g: nat, b: nat)
    requires r < 256 && g < 256 && b < 256
    ensures RgbToHex(r, g, b) == "#" + Byte(r) + Byte(g) + Byte(b)
    ensures |RgbToHex(r, g, b)| == 7 && forall i :: 1 <= i < 7 ==> IsLowerHex(RgbToHex(r, g, b)[i])
    ensures HexToRgb(RgbToHex(r, g, b)) == Some((r, g, b))
  {
    RgbDigits(r, g, b);
    ReadChannels(r, g, b);
    var hex := RgbToHex(r, g, b);
    forall i | 1 <= i < 7
      ensures IsLowerHex(hex[i])
    {
      if i < 3 {
        assert hex[i] == Byte(r)[i - 1];
      } else if i < 5 {
        assert hex[i] == Byte(g)[i - 3];
      } else {
        assert hex[i] == Byte(b)[i - 5];
      }
    }
  }

  // ---------------------------------------------------------------------
  // Durations
  // ---------------------------------------------------------------------

  /** The text for h hours, m minutes and s seconds, leading zero units left out. */
  function ShowDuration(h: nat, m: nat, s: nat): string
  {
    if h > 0 then NatToString(h) + "h " + NatToString(m) + "m " + NatToString(s) + "s"
    else if m > 0 then NatToString(m) + "m " + NatToString(s) + "s"
    else NatToString(s) + "s"
  }

  /** `formatDuration` on a whole number of seconds; "0s" for zero or a negative count. */
  function FormatDuration(seconds: int): string
  {
    if seconds <= 0 then "0s"
    else ShowDuration(seconds / 3600, (seconds % 3600) / 60, seconds % 60)
  }

  lemma DivMod60(n: int, q: int, r: int)
    requires 0 <= r < 60 && n == 60 * q + r
    ensures n / 60 == q && n % 60 == r
  {
  }

  lemma DivMod3600(n: int, q: int, r: int)
    requires 0 <= r < 3600 && n == 3600 * q + r
    ensures n / 3600 == q && n % 3600 == r
  {
  }

  /**
   * The text shows the unique hours, minutes (below 60) and seconds (below
   * 60) that make up the count.
   */
  lemma DurationParts(seconds: int, h: nat, m: nat, s: nat)
    requires seconds > 0 && m < 60 && s < 60 && 3600 * h + 60 * m + s == seconds
    ensures FormatDuration(seconds) == ShowDuration(h, m, s)
  {
    var rest := 60 * m + s;
    DivMod3600(seconds, h, rest);
    DivMod60(rest, m, s);
    DivMod60(seconds, 60 * h + m, s);
  }

  // ---------------------------------------------------------------------
  // Elo and results
  // ---------------------------------------------------------------------

  /** `formatElo`: a number rounded as `Math.round` does; "1500" for anything else. */
  function FormatElo(rating: Json.Value): string
  {
    if rating.Num? then IntToString(TournamentElo.RoundHalfUp(rating.n)) else "1500"
  }

  /** The text reads back as the nearest whole rating, within half a point of the number. */
  lemma FormatEloReadsBack(rating: Json.Value)
    ensures rating.Num? ==>
      var n := ParseInt(FormatElo(rating)).value;
      ParseInt(FormatElo(rating)).Some? && rating.n - 0.5 < n as real <= rating.n + 0.5
    ensures !rating.Num? ==> FormatElo(rating) == "1500"
  {
    if rating.Num? {
      ParseIntIntToString(TournamentElo.RoundHalfUp(rating.n));
    }
  }

  /** `getResultText`. */
  function ResultText(result: string): string
  {
    if result == "1-0" then "Brancas vencem"
    else if result == "0-1" then "Pretas vencem"
    else if result == "1/2-1/2" then "Empate"
    else "Em andamento"
  }

  /** `getResultColor`. */
  function ResultColor(result: string): string
  {
    if result == "1-0" then "#28a745"
    else if result == "0-1" then "#dc3545"
    else if result == "1/2-1/2" then "#6c757d"
    else "#007bff"
  }

  predicate IsFinalResult(result: string)
  {
    result == "1-0" || result == "0-1" || result == "1/2-1/2"
  }

  /**
   * Label and colour agree: "in progress" and blue exactly for a string
   * that is not one of the three results, and the three results get three
   * different labels and colours.
   */
  lemma ResultLabels(a: string, b: string)
    ensures ResultText(a) == "Em andamento" <==> !IsFinalResult(a)
    ensures ResultColor(a) == "#007bff" <==> !IsFinalResult(a)
    ensures IsFinalResult(a) && IsFinalResult(b) && a != b ==>
      ResultText(a) != ResultText(b) && ResultColor(a) != ResultColor(b)
  {
  }

  // ---------------------------------------------------------------------
  // Validators
  // ---------------------------------------------------------------------

  datatype Check = Passed | Thrown(message: string)

  /** `validateRequired`: throws for a falsy value or a string that trims to nothing. */
  function ValidateRequired(value: Json.Value, fieldName: string): Check
  {
    if !Json.Truthy(value) || (value.Str? && Trim(value.s) == "") then Thrown(fieldName + " é obrigatório.")
    else Passed
  }

  /** A value is refused exactly when it is falsy or a whitespace-only string. */
  lemma RequiredRefuses(value: Json.Value, fieldName: string)
    ensures ValidateRequired(value, fieldName).Thrown? <==> !Json.Truthy(value) || (value.Str? && IsBlank(value.s))
  {
    if value.Str? {
      TrimEmptyIffBlank(value.s);
    }
  }

  /** `validateRange` on whole numbers. */
  function ValidateRange(value: int, min: int, max: int, fieldName: string): (c: Check)
    ensures c == Passed <==> min <= value <= max
  {
    if value < min || value > max then
      Thrown(fieldName + " deve estar entre " + IntToString(min) + " e " + IntToString(max) + ".")
    else Passed
  }

  // ---------------------------------------------------------------------
  // Moves
  // ---------------------------------------------------------------------

  /** `formatMove`: "n. white", and " black" only when black is non-empty. */
  function FormatMove(moveNumber: nat, whiteMove: string, blackMove: string): string
  {
    var formatted := NatToString(moveNumber) + ". " + whiteMove;
    if blackMove != "" then formatted + " " + blackMove else formatted
  }

  /** Split at spaces, the line gives back the number, the white move and the black move if any. */
  lemma FormatMoveSplit(moveNumber: nat, whiteMove: string, blackMove: string)
    requires ' ' !in whiteMove && ' ' !in blackMove
    ensures Split(FormatMove(moveNumber, whiteMove, blackMove), ' ')
      == [NatToString(moveNumber) + ".", whiteMove] + (if blackMove != "" then [blackMove] else [])
  {
    var numbered := NatToString(moveNumber) + ".";
    assert ' ' !in NatToString(moveNumber);
    assert ' ' !in numbered;
    var parts := [numbered, whiteMove] + (if blackMove != "" then [blackMove] else []);
    if blackMove != "" {
      assert parts[1..] == [whiteMove, blackMove] && parts[1..][1..] == [blackMove];
      assert Join([whiteMove, blackMove], ' ') == whiteMove + [' '] + blackMove;
      assert Join(parts, ' ') == numbered + [' '] + (whiteMove + [' '] + blackMove);
      assert FormatMove(moveNumber, whiteMove, blackMove) == numbered + [' '] + (whiteMove + [' '] + blackMove);
    } else {
      assert parts[1..] == [whiteMove];
      assert Join(parts, ' ') == numbered + [' '] + whiteMove;
      assert FormatMove(moveNumber, whiteMove, blackMove) == numbered + [' '] + whiteMove;
    }
    SplitJoin(parts, ' ');
  }

  predicate IsAnnotation(c: char)
  {
    c == '!' || c == '?' || c == '+' || c == '#' || c == '='
  }

  /** The longest prefix of whitespace, dots or digits as a predicate picks. */
  function Leading(s: string, p: char -> bool): (n: nat)
    ensures n <= |s| && forall i :: 0 <= i < n ==> p(s[i])
    ensures n < |s| ==> !p(s[n])
  {
    if |s| > 0 && p(s[0]) then 1 + Leading(s[1..], p) else 0
  }

  /** The length of the longest suffix of annotation marks. */
  function TrailingMarks(s: string): (n: nat)
    ensures n <= |s| && forall i :: |s| - n <= i < |s| ==> IsAnnotation(s[i])
    ensures n < |s| ==> !IsAnnotation(s[|s| - n - 1])
  {
    if |s| > 0 && IsAnnotation(s[|s| - 1]) then 1 + TrailingMarks(s[..|s| - 1]) else 0
  }

  /** `replace(/^\d+\.+\s*\/, '')`: digits, at least one dot and any spaces at the start. */
  function StripMoveNumber(s: string): string
  {
    var digits := Leading(s, IsDigit);
    var dots := Leading(s[digits..], c => c == '.');
    if digits == 0 || dots == 0 then s
    else
      var rest := s[digits + dots..];
      rest[Leading(rest, IsWhitespace)..]
  }

  /** `parsePGNMove`: the move number and trailing annotation marks removed, then trimmed. */
  function ParsePgnMove(moveText: string): string
  {
    var unnumbered := StripMoveNumber(moveText);
    Trim(unnumbered[..|unnumbered| - TrailingMarks(unnumbered)])
  }

  lemma {:induction false} LeadingAll(s: string, p: char -> bool, t: string)
    requires forall i :: 0 <= i < |s| ==> p(s[i])
    requires |t| > 0 ==> !p(t[0])
    ensures Leading(s + t, p) == |s|
    decreases |s|
  {
    if |s| > 0 {
      assert (s + t)[1..] == s[1..] + t;
      LeadingAll(s[1..], p, t);
    }
  }

  lemma {:induction false} TrailingAll(s: string, marks: string)
    requires forall i :: 0 <= i < |marks| ==> IsAnnotation(marks[i])
    requires |s| > 0 ==> !IsAnnotation(s[|s| - 1])
    ensures TrailingMarks(s + marks) == |marks|
    decreases |marks|
  {
    if |marks| > 0 {
      assert (s + marks)[..|s + marks| - 1] == s + marks[..|marks| - 1];
      TrailingAll(s, marks[..|marks| - 1]);
    }
  }

  /** A move with a leading move number loses the number and the spaces after it. */
  lemma StripNumbered(digits: string, rest: string)
    requires |digits| > 0 && AllDigits(digits)
    requires |rest| > 0 && !IsDigit(rest[0]) && rest[0] != '.' && !IsWhitespace(rest[0])
    ensures StripMoveNumber(digits + ". " + rest) == rest
  {
    var text := digits + ". " + rest;
    assert text == digits + (". " + rest);
    LeadingAll(digits, IsDigit, ". " + rest);
    assert text[|digits|..] == "." + (" " + rest);
    LeadingAll(".", c => c == '.', " " + rest);
    var after := text[|digits| + 1..];
    assert after == " " + rest;
    LeadingAll(" ", IsWhitespace, rest);
    assert after[1..] == rest;
  }

  /** Trailing annotation marks come off a move that does not end in one. */
  lemma StripMarks(san: string, marks: string)
    requires |san| > 0 && !IsAnnotation(san[|san| - 1])
    requires forall i :: 0 <= i < |marks| ==> IsAnnotation(marks[i])
    ensures var text := san + marks; text[..|text| - TrailingMarks(text)] == san
  {
    TrailingAll(san, marks);
    assert (san + marks)[..|san + marks| - |marks|] == san;
  }

  /** An unnumbered move with trailing marks parses to the move. */
  lemma ParseUnnumberedMove(san: string, marks: string)
    requires |san| > 0 && !IsDigit(san[0])
    requires !IsAnnotation(san[|san| - 1]) && !IsWhitespace(san[0]) && !IsWhitespace(san[|san| - 1])
    requires forall i :: 0 <= i < |marks| ==> IsAnnotation(marks[i])
    ensures ParsePgnMove(san + marks) == san
  {
    assert Leading(san + marks, IsDigit) == 0;
    StripMarks(san, marks);
    TrimUnchanged(san);
  }

  /**
   * A move written "n. " before it and annotation marks after it parses to
   * the move itself, for a move that starts with neither a digit, a dot nor
   * whitespace and ends with neither a mark nor whitespace.
   */
  lemma ParseNumberedMove(moveNumber: nat, san: string, marks: string)
    requires |san| > 0 && !IsDigit(san[0]) && san[0] != '.' && !IsWhitespace(san[0])
    requires !IsAnnotation(san[|san| - 1]) && !IsWhitespace(san[|san| - 1])
    requires forall i :: 0 <= i < |marks| ==> IsAnnotation(marks[i])
    ensures ParsePgnMove(NatToString(moveNumber) + ". " + san + marks) == san
    ensures ParsePgnMove(san + marks) == san
  {
    var digits := NatToString(moveNumber);
    var text := digits + ". " + san + marks;
    assert text == digits + ". " + (san + marks);
    StripNumbered(digits, san + marks);
    assert StripMoveNumber(text) == StripMoveNumber(san + marks) by {
      ParseUnnumberedMove(san, marks);
      assert Leading(san + marks, IsDigit) == 0;
    }
    ParseUnnumberedMove(san, marks);
  }

  // ---------------------------------------------------------------------
  // deepClone
  // ---------------------------------------------------------------------

  /** `deepClone`: arrays element by element, objects property by property, anything else as is. */
  function DeepClone(v: Json.Value): Json.Value
  {
    match v
    case Arr(items) => Json.Arr(seq(|items|, i requires 0 <= i < |items| => DeepClone(items[i])))
    case Obj(fields) =>
      Json.Obj(seq(|fields|, i requires 0 <= i < |fields| => Json.Field(fields[i].key, DeepClone(fields[i].value))))
    case _ => v
  }

  /** The clone is structurally equal to the original at every depth. */
  lemma {:induction false} DeepCloneEqual(v: Json.Value)
    ensures DeepClone(v) == v
  {
    match v
    case Arr(items) =>
      forall i | 0 <= i < |items|
        ensures DeepClone(items[i]) == items[i]
      {
        DeepCloneEqual(items[i]);
      }
      assert DeepClone(v).items == items;
    case Obj(fields) =>
      forall i | 0 <= i < |fields|
        ensures DeepClone(fields[i].value) == fields[i].value
      {
        DeepCloneEqual(fields[i].value);
      }
      assert DeepClone(v).fields == fields;
    case _ =>
  }
}
