/**
 * JavaScript's conversion of text to a number: what `Number(s)` gives, and
 * what `<` and `>` compare when one operand is a string. The text is
 * trimmed; blank text is 0; otherwise it must be one whole numeric literal
 * (a signed decimal with optional fraction and exponent, a signed
 * `Infinity`, or an unsigned `0x`/`0o`/`0b` integer), and anything else is
 * NaN. Decimal literals are read as exact reals: the rounding to the
 * nearest double is not modelled.
 */
module NumberText {
  import opened Wrappers
  import Strings

  /** A JavaScript number as the comparisons see it. */
  datatype Number = NaN | Finite(value: real) | Infinite(positive: bool)

  /** `x × 10^e`, one power of ten at a time. */
  function Scale(x: real, e: int): real
    decreases if e < 0 then -e else e
  {
    if e == 0 then x else if e > 0 then 10.0 * Scale(x, e - 1) else Scale(x, e + 1) / 10.0
  }

  // ---------------------------------------------------------------------
  // 0x, 0o and 0b integers

  predicate IsHexLetter(c: char) { 'a' <= c <= 'f' || 'A' <= c <= 'F' }

  function RadixDigitValue(c: char): (d: nat)
    requires Strings.IsDigit(c) || IsHexLetter(c)
    ensures d < 16
  {
    if Strings.IsDigit(c) then Strings.DigitValue(c)
    else if 'a' <= c <= 'f' then (c as int - 'a' as int + 10) as nat
    else (c as int - 'A' as int + 10) as nat
  }

  predicate IsRadixDigit(c: char, radix: nat)
  {
    (Strings.IsDigit(c) || IsHexLetter(c)) && RadixDigitValue(c) < radix
  }

  predicate AllRadixDigits(s: string, radix: nat)
  {
    forall i :: 0 <= i < |s| ==> IsRadixDigit(s[i], radix)
  }

  /** The value of a digit string in the given base. */
  function RadixValue(s: string, radix: nat): nat
    requires AllRadixDigits(s, radix)
    decreases |s|
  {
    if |s| == 0 then 0 else RadixValue(s[..|s| - 1], radix) * radix + RadixDigitValue(s[|s| - 1])
  }

  /** The base a prefix letter selects, 0 for any other character. */
  function Radix(c: char): (r: nat)
    ensures r in {0, 2, 8, 16}
  {
    if c == 'x' || c == 'X' then 16
    else if c == 'o' || c == 'O' then 8
    else if c == 'b' || c == 'B' then 2
    else 0
  }

  /** `StrNonDecimalIntegerLiteral`: "0", a base letter, then at least one digit of that base. */
  function NonDecimal(t: string): Option<nat>
  {
    if |t| >= 3 && t[0] == '0' && Radix(t[1]) > 0 && AllRadixDigits(t[2..], Radix(t[1]))
    then Some(RadixValue(t[2..], Radix(t[1])))
    else None
  }

  /** Read in base ten, the general digit reader agrees with the decimal one. */
  lemma {:induction false} RadixTenAgrees(s: string)
    requires Strings.AllDigits(s)
    ensures AllRadixDigits(s, 10) && RadixValue(s, 10) == Strings.DigitsValue(s)
    decreases |s|
  {
    if |s| > 0 {
      var init := s[..|s| - 1];
      assert Strings.AllDigits(init);
      RadixTenAgrees(init);
    }
  }

  // ---------------------------------------------------------------------
  // Decimal literals

  /** The index of the first 'e' or 'E', or the length when there is none. */
  function ExponentMark(t: string): (m: nat)
    ensures m <= |t|
    ensures forall i :: 0 <= i < m ==> t[i] != 'e' && t[i] != 'E'
    ensures m < |t| ==> t[m] == 'e' || t[m] == 'E'
  {
    if |t| == 0 || t[0] == 'e' || t[0] == 'E' then 0 else 1 + ExponentMark(t[1..])
  }

  /**
   * Digits, optionally a point and more digits, at least one digit in all:
   * the value of all the digits and the number of them after the point.
   */
  function Mantissa(s: string): Option<(nat, nat)>
  {
    var whole := Strings.DigitPrefix(s);
    var rest := s[|whole|..];
    if |rest| == 0 then
      if |whole| == 0 then None else Some((Strings.DigitsValue(whole), 0))
    else if rest[0] != '.' then None
    else
      var fraction := rest[1..];
      if !Strings.AllDigits(fraction) || |whole| + |fraction| == 0 then None
      else Some((Strings.DigitsValue(whole + fraction), |fraction|))
  }

  /** The text after the exponent mark: an optional sign and at least one digit. */
  function Exponent(s: string): Option<int>
  {
    var digits := if |s| > 0 && (s[0] == '+' || s[0] == '-') then s[1..] else s;
    if |digits| == 0 || !Strings.AllDigits(digits) then None
    else if s[0] == '-' then Some(-(Strings.DigitsValue(digits) as int))
    else Some(Strings.DigitsValue(digits))
  }

  /** `StrUnsignedDecimalLiteral` without `Infinity`: a mantissa and an optional exponent. */
  function UnsignedDecimal(t: string): Option<real>
  {
    var m := ExponentMark(t);
    var mantissa := Mantissa(t[..m]);
    var exponent := if m < |t| then Exponent(t[m + 1..]) else Some(0);
    if mantissa.Some? && exponent.Some?
    then Some(Scale(mantissa.value.0 as real, exponent.value - mantissa.value.1))
    else None
  }

  /** `Number(s)` for a string. */
  function StringToNumber(s: string): Number
  {
    var t := Strings.Trim(s);
    if t == "" then Finite(0.0)
    else match NonDecimal(t)
      case Some(n) => Finite(n as real)
      case None =>
        var body := if t[0] == '-' || t[0] == '+' then t[1..] else t;
        if body == "Infinity" then Infinite(t[0] != '-')
        else match UnsignedDecimal(body)
          case Some(x) => Finite(if t[0] == '-' then -x else x)
          case None => NaN
  }

  // ---------------------------------------------------------------------
  // What the conversion promises

  /** Blank text converts to 0. */
  lemma BlankIsZero(s: string)
    requires Strings.IsBlank(s)
    ensures StringToNumber(s) == Finite(0.0)
  {
    Strings.TrimEmptyIffBlank(s);
  }

  /** The decimal text of a natural number converts back to the number. */
  lemma NatTextReadsBack(n: nat)
    ensures StringToNumber(Strings.NatToString(n)) == Finite(n as real)
  {
    var t := Strings.NatToString(n);
    Strings.TrimUnchanged(t);
    DigitsRead(t);
    Strings.DigitsValueNatToString(n);
  }

  /** The decimal text of an integer, with its minus sign, converts back to the integer. */
  lemma IntTextReadsBack(i: int)
    ensures StringToNumber(Strings.IntToString(i)) == Finite(i as real)
  {
    if i >= 0 {
      NatTextReadsBack(i);
    } else {
      MinusTextReadsBack(-i);
    }
  }

  /** The decimal text of a positive number after a minus sign converts back to the negated number. */
  lemma MinusTextReadsBack(n: nat)
    requires n > 0
    ensures StringToNumber("-" + Strings.NatToString(n)) == Finite(-(n as real))
  {
    var digits := Strings.NatToString(n);
    MinusTextParts(n);
    NegatedDecimal("-" + digits, digits, n as real);
  }

  /** How the text "-" followed by the digits of n reads: signed, trimmed, not a radix literal. */
  lemma MinusTextParts(n: nat)
    requires n > 0
    ensures var digits := Strings.NatToString(n); var t := "-" + digits;
      |t| > 1 && t[0] == '-' && t[1..] == digits && Strings.Trim(t) == t &&
      NonDecimal(t).None? && digits != "Infinity" && UnsignedDecimal(digits) == Some(n as real)
  {
    var digits := Strings.NatToString(n);
    var t := "-" + digits;
    assert t[0] == '-' && t[1..] == digits;
    assert t[|t| - 1] == digits[|digits| - 1];
    Strings.TrimUnchanged(t);
    if |t| >= 3 {
      DigitIsNoRadix(t[1]);
    }
    assert digits != "Infinity" by { assert Strings.IsDigit(digits[0]); }
    DigitsDecimal(digits);
    Strings.DigitsValueNatToString(n);
  }

  lemma NegatedDecimal(t: string, body: string, x: real)
    requires |t| > 1 && t[0] == '-' && t[1..] == body && Strings.Trim(t) == t
    requires NonDecimal(t).None? && body != "Infinity" && UnsignedDecimal(body) == Some(x)
    ensures StringToNumber(t) == Finite(-x)
  {
  }

  lemma DigitIsNoRadix(c: char)
    requires Strings.IsDigit(c)
    ensures Radix(c) == 0
  {
  }

  /** A digit string on its own: no base prefix, no sign, read as a decimal. */
  lemma DigitsRead(t: string)
    requires |t| > 0 && Strings.AllDigits(t) && Strings.Trim(t) == t
    ensures StringToNumber(t) == Finite(Strings.DigitsValue(t) as real)
  {
    if |t| >= 3 {
      DigitIsNoRadix(t[1]);
    }
    assert t != "Infinity" by { assert Strings.IsDigit(t[0]); }
    DigitsDecimal(t);
  }

  /** A non-empty digit string is an unsigned decimal worth its digits. */
  lemma DigitsDecimal(t: string)
    requires |t| > 0 && Strings.AllDigits(t)
    ensures UnsignedDecimal(t) == Some(Strings.DigitsValue(t) as real)
  {
    NoExponentMark(t);
    MantissaDigits(t);
    WithoutExponent(t, Strings.DigitsValue(t));
  }

  lemma WithoutExponent(t: string, n: nat)
    requires ExponentMark(t) == |t| && Mantissa(t) == Some((n, 0))
    ensures UnsignedDecimal(t) == Some(n as real)
  {
    assert t[..ExponentMark(t)] == t;
  }

  lemma NoExponentMark(t: string)
    requires Strings.AllDigits(t)
    ensures ExponentMark(t) == |t|
  {
  }

  lemma MantissaDigits(t: string)
    requires |t| > 0 && Strings.AllDigits(t)
    ensures Mantissa(t) == Some((Strings.DigitsValue(t), 0))
  {
    Strings.DigitPrefixAllDigits(t);
    assert t[|t|..] == [];
  }

  // ---------------------------------------------------------------------
  // Characters a numeric literal can hold

  /** The characters that occur in some numeric literal. */
  predicate LiteralChar(c: char)
  {
    Strings.IsDigit(c) || IsHexLetter(c) || c == '+' || c == '-' || c == '.' ||
    c == 'x' || c == 'X' || c == 'o' || c == 'O' ||
    c == 'I' || c == 'n' || c == 'i' || c == 't' || c == 'y'
  }

  predicate LiteralText(t: string)
  {
    forall i :: 0 <= i < |t| ==> LiteralChar(t[i])
  }

  /**
   * Text that, once trimmed, holds a character no numeric literal has (a
   * comma, a letter such as 'z', an inner space) converts to NaN.
   */
  lemma ForeignCharIsNaN(s: string, i: nat)
    requires i < |Strings.Trim(s)| && !LiteralChar(Strings.Trim(s)[i])
    ensures StringToNumber(s) == NaN
  {
    if StringToNumber(s) != NaN {
      ConvertedIsLiteral(s);
    }
  }

  /** Whatever converts to a number, trimmed, is made of literal characters. */
  lemma ConvertedIsLiteral(s: string)
    requires StringToNumber(s) != NaN
    ensures LiteralText(Strings.Trim(s))
  {
    var t := Strings.Trim(s);
    if t == "" {
    } else if NonDecimal(t).Some? {
      NonDecimalLiteral(t);
    } else {
      var body := if t[0] == '-' || t[0] == '+' then t[1..] else t;
      if body == "Infinity" {
        InfinityLiteral();
      } else {
        DecimalLiteral(body);
      }
      SignedLiteral(t, body);
    }
  }

  lemma InfinityLiteral()
    ensures LiteralText("Infinity")
  {
    var t := "Infinity";
    assert t[0] == 'I' && t[1] == 'n' && t[2] == 'f' && t[3] == 'i';
    assert t[4] == 'n' && t[5] == 'i' && t[6] == 't' && t[7] == 'y';
  }

  lemma SignedLiteral(t: string, body: string)
    requires |t| > 0 && body == (if t[0] == '-' || t[0] == '+' then t[1..] else t)
    requires LiteralText(body)
    ensures LiteralText(t)
  {
    if t[0] == '-' || t[0] == '+' {
      forall i | 0 < i < |t|
        ensures LiteralChar(t[i])
      {
        assert t[i] == body[i - 1];
      }
    }
  }

  lemma NonDecimalLiteral(t: string)
    requires NonDecimal(t).Some?
    ensures LiteralText(t)
  {
    forall i | 2 <= i < |t|
      ensures LiteralChar(t[i])
    {
      assert t[i] == t[2..][i - 2];
    }
  }

  lemma DecimalLiteral(t: string)
    requires UnsignedDecimal(t).Some?
    ensures LiteralText(t)
  {
    var m := ExponentMark(t);
    MantissaLiteral(t[..m]);
    if m < |t| {
      ExponentLiteral(t[m + 1..]);
    }
    SplitLiteral(t, m);
  }

  /** Text whose two sides of an exponent mark at m are literal text is literal text. */
  lemma SplitLiteral(t: string, m: nat)
    requires m <= |t| && LiteralText(t[..m])
    requires m < |t| ==> LiteralChar(t[m]) && LiteralText(t[m + 1..])
    ensures LiteralText(t)
  {
    if m < |t| {
      JoinLiteral(t[..m], t[m], t[m + 1..]);
      assert t == t[..m] + [t[m]] + t[m + 1..];
    } else {
      assert t == t[..m];
    }
  }

  lemma JoinLiteral(a: string, c: char, b: string)
    requires LiteralText(a) && LiteralChar(c) && LiteralText(b)
    ensures LiteralText(a + [c] + b)
  {
    var t := a + [c] + b;
    forall i | 0 <= i < |t|
      ensures LiteralChar(t[i])
    {
      if i > |a| {
        assert t[i] == b[i - |a| - 1];
      }
    }
  }

  lemma MantissaLiteral(s: string)
    requires Mantissa(s).Some?
    ensures LiteralText(s)
  {
    var whole := Strings.DigitPrefix(s);
    var rest := s[|whole|..];
    forall i | 0 <= i < |s|
      ensures LiteralChar(s[i])
    {
      if i < |whole| {
        assert s[i] == whole[i];
      } else if i > |whole| {
        assert s[i] == rest[1..][i - |whole| - 1];
      }
    }
  }

  lemma ExponentLiteral(s: string)
    requires Exponent(s).Some?
    ensures LiteralText(s)
  {
    if |s| > 0 && (s[0] == '+' || s[0] == '-') {
      forall i | 0 < i < |s|
        ensures LiteralChar(s[i])
      {
        assert s[i] == s[1..][i - 1];
      }
    }
  }
}
