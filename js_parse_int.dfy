/**
 * `parseInt(string, 10)` as ECMA-262 defines it (section 19.2.5, "parseInt
 * (string, radix)"), and the decimal numeral of a non-negative integer
 * (no leading zeros), which the round-trip properties use.
 *
 * A JavaScript number is modelled as an unbounded integer or NaN; the
 * floating-point rounding above 2^53 and the sign of zero are not modelled.
 */
module JsParseInt {
  import opened JsText

  /** The numbers `parseInt` can return, and the sums built from them. */
  datatype JsNumber = Num(value: int) | NaN

  function DigitValue(c: char): (d: nat)
    requires IsDigit(c)
    ensures d < 10
  {
    (c as int) - ('0' as int)
  }

  function DigitChar(d: nat): (c: char)
    requires d < 10
    ensures IsDigit(c) && DigitValue(c) == d
  {
    (('0' as int) + d) as char
  }

  /** The value of a string of decimal digits, most significant first. */
  function DecimalValue(s: seq<char>): nat
    requires AllIn(s, Digit)
  {
    if |s| == 0 then 0 else 10 * DecimalValue(s[..|s| - 1]) + DigitValue(s[|s| - 1])
  }

  /** The decimal numeral of a non-negative integer `n`, without leading zeros. */
  function Decimal(n: nat): (s: seq<char>)
    ensures IsRun(s, Digit)
    ensures |s| > 1 ==> s[0] != '0'
  {
    if n < 10 then [DigitChar(n)] else Decimal(n / 10) + [DigitChar(n % 10)]
  }

  /** Reading back the decimal text of `n` gives `n`. */
  lemma {:induction false} DecimalRoundTrip(n: nat)
    ensures DecimalValue(Decimal(n)) == n
  {
    if n >= 10 {
      var s := Decimal(n);
      assert s[..|s| - 1] == Decimal(n / 10);
      DecimalRoundTrip(n / 10);
    }
  }

  /**
   * `parseInt(s, 10)`: skip leading white space, take one optional `+` or
   * `-`, then read the longest run of decimal digits; anything after that run
   * is ignored, and NaN comes back when the run is empty.
   */
  function ParseInt(s: seq<char>): (r: JsNumber)
    ensures (forall i :: 0 <= i < |s| ==> !IsDigit(s[i])) ==> r == NaN
  {
    var t := s[Span(s, Space)..];
    var negative := |t| > 0 && t[0] == '-';
    var body := if |t| > 0 && (t[0] == '-' || t[0] == '+') then t[1..] else t;
    var n := Span(body, Digit);
    if n == 0 then
      NaN
    else
      assert body[0] in s;
      var magnitude: int := DecimalValue(body[..n]);
      Num(if negative then -magnitude else magnitude)
  }

  /**
   * A text that starts with digits parses to the value of its leading
   * digit run, whatever follows the run.
   */
  lemma ParseIntOfDigits(digits: seq<char>, rest: seq<char>)
    requires IsRun(digits, Digit)
    requires |rest| == 0 || !IsDigit(rest[0])
    ensures ParseInt(digits + rest) == Num(DecimalValue(digits))
  {
    var s := digits + rest;
    assert s[0] == digits[0];
    DigitIsNotSpace(digits[0]);
    assert Span(s, Space) == 0;
    assert s[0..] == s;
    SpanOf(digits, rest, Digit);
    assert s[..|digits|] == digits;
  }

  /** A text of digits only parses to its decimal value. */
  lemma ParseIntOfNumeral(digits: seq<char>)
    requires IsRun(digits, Digit)
    ensures ParseInt(digits) == Num(DecimalValue(digits))
  {
    ParseIntOfDigits(digits, []);
    assert digits + [] == digits;
  }

  /**
   * After an explicit sign the digit run is read the same way, and `-`
   * negates it.
   */
  lemma ParseIntOfSigned(sign: char, digits: seq<char>, rest: seq<char>)
    requires sign == '+' || sign == '-'
    requires IsRun(digits, Digit)
    requires |rest| == 0 || !IsDigit(rest[0])
    ensures ParseInt([sign] + digits + rest)
         == Num(if sign == '-' then -(DecimalValue(digits) as int) else DecimalValue(digits))
  {
    var s := [sign] + digits + rest;
    assert Span(s, Space) == 0;
    assert s[0..] == s;
    assert s[1..] == digits + rest;
    SpanOf(digits, rest, Digit);
    assert (digits + rest)[..|digits|] == digits;
  }

  /** A sign with no digit right after it gives NaN, not an error. */
  lemma ParseIntOfSignWithoutDigits(sign: char, rest: seq<char>)
    requires sign == '+' || sign == '-'
    requires |rest| == 0 || !IsDigit(rest[0])
    ensures ParseInt([sign] + rest) == NaN
  {
    var s := [sign] + rest;
    assert Span(s, Space) == 0;
    assert s[0..] == s;
    assert s[1..] == rest;
  }

  /** Leading white space never changes what `parseInt` returns. */
  lemma ParseIntSkipsLeadingSpace(space: seq<char>, s: seq<char>)
    requires AllIn(space, Space)
    ensures ParseInt(space + s) == ParseInt(s)
  {
    SpanAcross(space, s, Space);
    var n := Span(s, Space);
    assert (space + s)[|space| + n..] == s[n..];
  }
}
