/** Java's 32-bit `int`, `Integer.parseInt` and `Integer.toString` (decimal). */
module JavaInt {
  import opened Results

  const MinValue: int := -0x8000_0000
  const MaxValue: int := 0x7fff_ffff

  /** The values a Java `int` can hold. */
  newtype int32 = x: int | -0x8000_0000 <= x <= 0x7fff_ffff

  predicate IsDigit(c: char) {
    '0' <= c <= '9'
  }

  /** A non-empty run of ASCII decimal digits. */
  predicate IsNumeral(s: string) {
    |s| > 0 && forall i :: 0 <= i < |s| ==> IsDigit(s[i])
  }

  function DigitValue(c: char): nat
    requires IsDigit(c)
  {
    c as int - '0' as int
  }

  function DigitChar(d: nat): (c: char)
    requires d < 10
    ensures IsDigit(c) && DigitValue(c) == d
  {
    ('0' as int + d) as char
  }

  /** The value of a digit string, most significant digit first. */
  function NumeralValue(s: string): nat
    requires forall i :: 0 <= i < |s| ==> IsDigit(s[i])
    decreases |s|
  {
    if |s| == 0 then 0 else 10 * NumeralValue(s[..|s| - 1]) + DigitValue(s[|s| - 1])
  }

  /** A decimal literal as `Integer.parseInt` reads it: digits, after at most one leading
      `-` or `+`, and at least one digit. */
  predicate IsDecimalLiteral(s: string) {
    && |s| > 0
    && (IsDigit(s[0]) || (|s| > 1 && (s[0] == '-' || s[0] == '+')))
    && forall i :: 0 < i < |s| ==> IsDigit(s[i])
  }

  /** The value of a decimal literal: its digits read as a number, negated after a `-`. */
  function LiteralValue(s: string): int
    requires IsDecimalLiteral(s)
  {
    var magnitude := if IsDigit(s[0]) then NumeralValue(s) else NumeralValue(s[1..]);
    if s[0] == '-' then -magnitude else magnitude
  }

  /** `Integer.parseInt(s)`: an optional `-` or `+` followed by at least one digit, whose
      value fits in 32 bits. `None` is the NumberFormatException. Leading zeros are allowed. */
  function ParseInt(s: string): Option<int32> {
    if |s| == 0 then None
    else
      var digits := if s[0] == '-' || s[0] == '+' then s[1..] else s;
      match ScanDigits(digits)
      case None => None
      case Some(magnitude) =>
        var v: int := if s[0] == '-' then -(magnitude as int) else magnitude as int;
        if MinValue <= v <= MaxValue then Some(v as int32) else None
  }

  /** Reads a run of digits from the left, as `parseInt`'s loop does: `None` at the first
      character that is not a digit, and for no digits at all. */
  function ScanDigits(s: string): Option<nat>
    decreases |s|
  {
    if |s| == 0 || !IsDigit(s[|s| - 1]) then None
    else if |s| == 1 then Some(DigitValue(s[0]))
    else
      match ScanDigits(s[..|s| - 1])
      case None => None
      case Some(p) => Some(10 * p + DigitValue(s[|s| - 1]))
  }

  /** The scan succeeds exactly on a numeral, with the numeral's value. */
  lemma {:induction false} ScanDigitsReadsNumeral(s: string)
    ensures ScanDigits(s).Some? <==> IsNumeral(s)
    ensures ScanDigits(s).Some? ==> ScanDigits(s).value == NumeralValue(s)
    decreases |s|
  {
    if |s| > 1 {
      var init := s[..|s| - 1];
      ScanDigitsReadsNumeral(init);
      assert forall i :: 0 <= i < |init| ==> init[i] == s[i];
    }
  }

  /** `Integer.parseInt` succeeds exactly on a decimal literal whose value fits in 32 bits,
      and returns that value. */
  lemma ParseIntMeaning(s: string)
    ensures ParseInt(s).Some? <==> IsDecimalLiteral(s) && MinValue <= LiteralValue(s) <= MaxValue
    ensures ParseInt(s).Some? ==> ParseInt(s).value as int == LiteralValue(s)
  {
    if |s| > 0 {
      var digits := if s[0] == '-' || s[0] == '+' then s[1..] else s;
      ScanDigitsReadsNumeral(digits);
    }
  }

  /** The decimal digits of `n` with no leading zero ("0" for zero). */
  function NatToString(n: nat): (r: string)
    ensures IsNumeral(r) && NumeralValue(r) == n
    ensures r[0] == '0' ==> r == "0"
    decreases n
  {
    if n < 10 then [DigitChar(n)]
    else
      var prefix := NatToString(n / 10);
      var r := prefix + [DigitChar(n % 10)];
      assert r[..|r| - 1] == prefix;
      r
  }

  /** `Integer.toString(n)`: a minus sign for negative values, then the digits of |n|. */
  function IntToString(n: int): (r: string)
    ensures n < 0 ==> |r| > 1 && r[0] == '-' && IsNumeral(r[1..]) && NumeralValue(r[1..]) == -n
    ensures n >= 0 ==> IsNumeral(r) && NumeralValue(r) == n
  {
    if n < 0 then "-" + NatToString(-n) else NatToString(n)
  }

  /** Printing an `int` and parsing it back gives the same `int`. */
  lemma ParseIntToString(n: int32)
    ensures ParseInt(IntToString(n as int)) == Some(n)
  {
    var s := IntToString(n as int);
    if n < 0 {
      ScanDigitsReadsNumeral(s[1..]);
    } else {
      ScanDigitsReadsNumeral(s);
    }
  }

  /** A printed `int` is never empty and has no comma, space or line break in it. */
  lemma IntToStringCharacters(n: int)
    ensures |IntToString(n)| > 0
    ensures forall i :: 0 <= i < |IntToString(n)| ==> IntToString(n)[i] == '-' || IsDigit(IntToString(n)[i])
  {
  }
}
