/**
 * The pieces of ECMAScript string handling that `parseInput` relies on:
 * the regular-expression classes `\d` and `\s`, the length of the longest
 * prefix drawn from one of them, and `String.prototype.startsWith`.
 *
 * Strings are sequences of characters; UTF-16 surrogate pairs are not
 * modelled, which makes no difference here because every character the two
 * classes contain lies in the Basic Multilingual Plane.
 */
module JsText {

  /** The two classes the go-to-line pattern and `parseInt` use. */
  datatype CharClass = Digit | Space

  /** `\d` in a regular expression without the `u` flag: ASCII `0` to `9` only. */
  predicate IsDigit(c: char)
  {
    '0' <= c <= '9'
  }

  /**
   * `\s`: the ECMAScript WhiteSpace and LineTerminator characters (tab, LF,
   * VT, FF, CR, space, no-break space, the Unicode space separators, the line
   * and paragraph separators and the byte order mark). `parseInt` skips the
   * same set when it trims leading white space.
   */
  predicate IsSpace(c: char)
  {
    var k := c as int;
    || (0x09 <= k <= 0x0D)
    || k == 0x20
    || k == 0xA0
    || k == 0x1680
    || (0x2000 <= k <= 0x200A)
    || k == 0x2028
    || k == 0x2029
    || k == 0x202F
    || k == 0x205F
    || k == 0x3000
    || k == 0xFEFF
  }

  predicate InClass(c: char, k: CharClass) {
    match k
    case Digit => IsDigit(c)
    case Space => IsSpace(c)
  }

  /** Every character of `s` belongs to `k` (true of the empty string). */
  predicate AllIn(s: seq<char>, k: CharClass) {
    forall i :: 0 <= i < |s| ==> InClass(s[i], k)
  }

  /** `s` is one or more characters of `k`: what `\d+` or `\s+` matches. */
  predicate IsRun(s: seq<char>, k: CharClass) {
    |s| > 0 && AllIn(s, k)
  }

  /** `String.prototype.startsWith(prefix)` at position 0. */
  predicate StartsWith(s: seq<char>, prefix: seq<char>) {
    |prefix| <= |s| && s[..|prefix|] == prefix
  }

  /**
   * The length of the longest prefix of `s` whose characters all belong to
   * `k`: how far a greedy `\d+` or `\s+` reaches.
   */
  function Span(s: seq<char>, k: CharClass): (n: nat)
    ensures n <= |s|
    ensures AllIn(s[..n], k)
    ensures n < |s| ==> !InClass(s[n], k)
  {
    if |s| > 0 && InClass(s[0], k) then
      var m := Span(s[1..], k);
      assert s[..1 + m] == [s[0]] + s[1..][..m];
      1 + m
    else
      0
  }

  /** No character is both a digit and white space. */
  /** `\d` is exactly the ten ASCII digit characters. */
  lemma DigitChars(c: char)
    ensures IsDigit(c) <==> c in "0123456789"
  {
  }

  /** `\s` is exactly these code points, listed one by one. */
  lemma SpaceCodePoints(c: char)
    ensures IsSpace(c) <==> (c as int in {
                               0x09, 0x0A, 0x0B, 0x0C, 0x0D, 0x20, 0xA0, 0x1680,
                               0x2000, 0x2001, 0x2002, 0x2003, 0x2004, 0x2005,
                               0x2006, 0x2007, 0x2008, 0x2009, 0x200A,
                               0x2028, 0x2029, 0x202F, 0x205F, 0x3000, 0xFEFF})
  {
  }

  lemma DigitIsNotSpace(c: char)
    requires IsDigit(c)
    ensures !IsSpace(c)
  {
  }

  /**
   * A greedy scan over `run + rest` stops exactly at the end of `run` when
   * `run` lies in the class and `rest` does not start in it.
   */
  lemma SpanOf(run: seq<char>, rest: seq<char>, k: CharClass)
    requires AllIn(run, k)
    requires |rest| == 0 || !InClass(rest[0], k)
    ensures Span(run + rest, k) == |run|
  {
    SpanAcross(run, rest, k);
  }

  /** Scanning across a prefix that lies wholly in the class adds its length. */
  lemma {:induction false} SpanAcross(run: seq<char>, s: seq<char>, k: CharClass)
    requires AllIn(run, k)
    ensures Span(run + s, k) == |run| + Span(s, k)
  {
    if |run| > 0 {
      var t := run + s;
      assert t[0] == run[0] && t[1..] == run[1..] + s;
      assert InClass(t[0], k);
      SpanAcross(run[1..], s, k);
      assert Span(t, k) == 1 + Span(t[1..], k);
    } else {
      assert run + s == s;
    }
  }
}
