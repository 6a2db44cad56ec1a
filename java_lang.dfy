/** The few pieces of the Java platform the patterns rely on: nullable strings,
    32-bit `int` and its decimal rendering, and the console as a trace of lines. */
module JavaLang {

  datatype Option<T> = None | Some(value: T)

  /** A Java `String` reference: either `null` or a character sequence. */
  datatype JString = Null | Str(chars: string)

  /** The text that string concatenation and `StringBuilder.append` produce for a
      `String` reference: `null` is rendered as the four letters "null". */
  function Show(s: JString): string
  {
    match s
    case Null => "null"
    case Str(chars) => chars
  }

  /** Java's 32-bit `int`. */
  newtype int32 = x: int | -0x8000_0000 <= x < 0x8000_0000

  predicate IsDigit(c: char) { '0' <= c <= '9' }

  /** Characters that can occur in the decimal form of an `int`. */
  predicate IsDecimalChar(c: char) { IsDigit(c) || c == '-' }

  predicate AllDigits(s: string) { forall i | 0 <= i < |s| :: IsDigit(s[i]) }

  function DigitChar(d: nat): (c: char)
    requires d < 10
    ensures IsDigit(c) && c as int - '0' as int == d
  {
    ('0' as int + d) as char
  }

  function DigitValue(c: char): nat
    requires IsDigit(c)
  {
    c as int - '0' as int
  }

  /** The decimal digits of `n`, most significant first. */
  function Digits(n: nat): (s: string)
    ensures |s| > 0 && AllDigits(s)
    ensures s[0] == '0' ==> n == 0
    decreases n
  {
    if n < 10 then [DigitChar(n)] else Digits(n / 10) + [DigitChar(n % 10)]
  }

  /** `Integer.toString(n)`, which is also what `StringBuilder.append(int)` appends:
      a minus sign for a negative value, then the digits of its magnitude. */
  function IntToString(n: int32): (s: string)
    ensures |s| > 0 && forall i | 0 <= i < |s| :: IsDecimalChar(s[i])
    ensures s[0] == '-' <==> n < 0
    ensures n < 0 ==> AllDigits(s[1..])
    ensures n >= 0 ==> AllDigits(s)
  {
    if n < 0 then "-" + Digits(-(n as int)) else Digits(n as int)
  }

  /** The value of a string of decimal digits, most significant first. */
  function DigitsValue(s: string): nat
    requires AllDigits(s)
    decreases |s|
  {
    if |s| == 0 then 0 else DigitsValue(s[..|s| - 1]) * 10 + DigitValue(s[|s| - 1])
  }

  /** Reads a decimal integer back: an optional leading minus sign and at least one digit. */
  function ParseDecimal(s: string): Option<int>
  {
    if |s| > 1 && s[0] == '-' && AllDigits(s[1..]) then Some(-(DigitsValue(s[1..]) as int))
    else if |s| > 0 && AllDigits(s) then Some(DigitsValue(s))
    else None
  }

  lemma {:induction false} DigitsRoundTrip(n: nat)
    ensures DigitsValue(Digits(n)) == n
    decreases n
  {
    if n >= 10 {
      var s := Digits(n);
      DigitsRoundTrip(n / 10);
      assert s[..|s| - 1] == Digits(n / 10);
    }
  }

  /** The decimal rendering of an `int` loses nothing: it reads back as the same value. */
  lemma IntToStringRoundTrip(n: int32)
    ensures ParseDecimal(IntToString(n)) == Some(n as int)
  {
    var s := IntToString(n);
    if n < 0 {
      DigitsRoundTrip(-(n as int));
      assert s[1..] == Digits(-(n as int));
    } else {
      DigitsRoundTrip(n as int);
    }
  }

  lemma IntToStringInjective(a: int32, b: int32)
    ensures IntToString(a) == IntToString(b) ==> a == b
  {
    IntToStringRoundTrip(a);
    IntToStringRoundTrip(b);
  }

  /** `System.out`: every `println` appends one line to `lines`. */
  class Console {
    var lines: seq<string>

    constructor ()
      ensures lines == []
    {
      lines := [];
    }

    method PrintLn(line: string)
      modifies this
      ensures lines == old(lines) + [line]
    {
      lines := lines + [line];
    }
  }

  /** Splitting text that ends in a decimal number: when the characters just before
      the numbers are not decimal characters, the split point is determined. */
  lemma SplitBeforeDecimal(p1: string, d1: string, p2: string, d2: string)
    requires p1 + d1 == p2 + d2
    requires |p1| > 0 && !IsDecimalChar(p1[|p1| - 1])
    requires |p2| > 0 && !IsDecimalChar(p2[|p2| - 1])
    requires forall i | 0 <= i < |d1| :: IsDecimalChar(d1[i])
    requires forall i | 0 <= i < |d2| :: IsDecimalChar(d2[i])
    ensures p1 == p2 && d1 == d2
  {
    var s := p1 + d1;
    assert p1 == s[..|p1|] && p2 == s[..|p2|];
    assert d1 == s[|p1|..] && d2 == s[|p2|..];
  }

  lemma StripPrefix(p: string, x: string, y: string)
    requires p + x == p + y
    ensures x == y
  {
    assert x == (p + x)[|p|..];
  }

  lemma StripSuffix(x: string, y: string, q: string)
    requires x + q == y + q
    ensures x == y
  {
    assert x == (x + q)[..|x|];
  }

  /** Splitting after the last occurrence of a character that the trailing parts do not contain. */
  lemma SplitAfterLast(a1: string, f1: string, a2: string, f2: string, c: char)
    requires a1 + f1 == a2 + f2
    requires |a1| > 0 && a1[|a1| - 1] == c && |a2| > 0 && a2[|a2| - 1] == c
    requires c !in f1 && c !in f2
    ensures a1 == a2 && f1 == f2
  {
    var s := a1 + f1;
    assert a1 == s[..|a1|] && a2 == s[..|a2|];
    assert f1 == s[|a1|..] && f2 == s[|a2|..];
  }
}
