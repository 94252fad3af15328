/**
 * The anchored regular expression `^(\d+)(?:\s+(\d+))?$` that reads the
 * absolute "line" and "line column" forms, as a function that returns the
 * capture groups, and the language it denotes stated on its own.
 */
module LineColumnPattern {
  import opened Wrappers
  import opened JsText

  /**
   * The capture groups of a successful match: group 1 (the line digits) and
   * group 2 (the column digits, undefined when the optional part did not
   * take part in the match).
   */
  datatype Groups = Groups(line: seq<char>, column: Option<seq<char>>)

  /**
   * The pattern matches the whole of `s` with groups `g`: `s` is the line
   * digits alone, or the line digits, one or more white-space characters and
   * the column digits.
   */
  ghost predicate MatchesAs(s: seq<char>, g: Groups)
    ensures MatchesAs(s, g) ==> |s| > 0 && IsDigit(s[0]) && StartsWith(s, g.line)
  {
    && IsRun(g.line, Digit)
    && match g.column
       case None => s == g.line
       case Some(c) =>
         && IsRun(c, Digit)
         && exists gap :: IsRun(gap, Space) && s == g.line + gap + c
  }

  /**
   * The tail `(?:\s+(\d+))?$` of the pattern, applied to the text left after
   * a non-empty group 1 when that text is not empty: a greedy white-space
   * run, then a digit run that must reach the end. Returns group 2.
   */
  function ExecColumn(rest: seq<char>): (r: Option<seq<char>>)
    ensures r.Some? ==> IsRun(r.value, Digit)
    ensures r.Some? ==> exists gap :: IsRun(gap, Space) && rest == gap + r.value
  {
    var w := Span(rest, Space);
    var column := rest[w..];
    if w == 0 || |column| == 0 || Span(column, Digit) != |column| then
      None
    else
      assert column[..|column|] == column;
      assert rest == rest[..w] + column;
      Some(column)
  }

  /**
   * `RegExp.prototype.exec` for the whole pattern: a greedy digit run (group
   * 1), then either the end of the text or the tail above. Because no
   * character is both a digit and white space, greedy scanning finds every
   * match there is.
   */
  function Exec(s: seq<char>): (r: Option<Groups>)
    ensures r.Some? ==> MatchesAs(s, r.value)
  {
    var n := Span(s, Digit);
    if n == 0 then
      None
    else if n == |s| then
      assert s[..n] == s;
      Some(Groups(s, None))
    else
      match ExecColumn(s[n..])
      case None => None
      case Some(column) =>
        assert s == s[..n] + s[n..];
        Some(Groups(s[..n], Some(column)))
  }

  /** The line form: digits alone give group 1 and no group 2. */
  lemma ExecOfLine(line: seq<char>)
    requires IsRun(line, Digit)
    ensures Exec(line) == Some(Groups(line, None))
  {
    SpanOf(line, [], Digit);
    assert line + [] == line;
  }

  /**
   * After group 1 the match is decided by the tail alone: group 1 is exactly
   * the leading digits, and group 2 is what the tail yields.
   */
  lemma ExecAfterLine(line: seq<char>, more: seq<char>)
    requires IsRun(line, Digit)
    requires |more| > 0 && !IsDigit(more[0])
    ensures Exec(line + more)
         == match ExecColumn(more)
            case None => None
            case Some(column) => Some(Groups(line, Some(column)))
  {
    var s := line + more;
    SpanOf(line, more, Digit);
    assert s[|line|..] == more;
    assert s[..|line|] == line;
  }

  /** White space then digits up to the end is accepted as group 2. */
  lemma ExecColumnOf(gap: seq<char>, column: seq<char>)
    requires IsRun(gap, Space) && IsRun(column, Digit)
    ensures ExecColumn(gap + column) == Some(column)
  {
    DigitIsNotSpace(column[0]);
    SpanOf(gap, column, Space);
    assert (gap + column)[|gap|..] == column;
    SpanOf(column, [], Digit);
    assert column + [] == column;
  }

  /** Group 2 must reach the end: anything but a digit after it fails. */
  lemma ExecColumnNeedsEnd(gap: seq<char>, column: seq<char>, more: seq<char>)
    requires IsRun(gap, Space) && IsRun(column, Digit)
    requires |more| > 0 && !IsDigit(more[0])
    ensures ExecColumn(gap + column + more) == None
  {
    var rest := gap + (column + more);
    assert gap + column + more == rest;
    DigitIsNotSpace(column[0]);
    SpanOf(gap, column + more, Space);
    assert rest[|gap|..] == column + more;
    SpanOf(column, more, Digit);
  }

  /**
   * The line-column form: the digit groups come back in order, whatever
   * white space separates them.
   */
  lemma ExecOfLineColumn(line: seq<char>, gap: seq<char>, column: seq<char>)
    requires IsRun(line, Digit) && IsRun(gap, Space) && IsRun(column, Digit)
    ensures Exec(line + gap + column) == Some(Groups(line, Some(column)))
  {
    assert line + gap + column == line + (gap + column);
    assert (gap + column)[0] == gap[0];
    ExecAfterLine(line, gap + column);
    ExecColumnOf(gap, column);
  }

  /**
   * The pattern is anchored at the end: after line, white space and column,
   * anything that does not continue the column digits (more white space, a
   * third number, a letter) makes the match fail.
   */
  lemma ExecRejectsTrailing(line: seq<char>, gap: seq<char>, column: seq<char>, more: seq<char>)
    requires IsRun(line, Digit) && IsRun(gap, Space) && IsRun(column, Digit)
    requires |more| > 0 && !IsDigit(more[0])
    ensures Exec(line + gap + column + more) == None
  {
    var tail := gap + column + more;
    assert line + gap + column + more == line + tail;
    assert tail[0] == gap[0];
    ExecAfterLine(line, tail);
    ExecColumnNeedsEnd(gap, column, more);
  }

  /** Every way the pattern matches `s` is the one `Exec` reports. */
  lemma ExecFindsEveryMatch(s: seq<char>, g: Groups)
    requires MatchesAs(s, g)
    ensures Exec(s) == Some(g)
  {
    match g.column
    case None =>
      ExecOfLine(s);
    case Some(c) =>
      var gap :| IsRun(gap, Space) && s == g.line + gap + c;
      ExecOfLineColumn(g.line, gap, c);
  }

  /** `exec` returns null exactly when the pattern matches `s` in no way. */
  lemma ExecRejectsExactly(s: seq<char>)
    ensures Exec(s) == None <==> forall g :: !MatchesAs(s, g)
  {
    if Exec(s) == None {
      forall g | MatchesAs(s, g)
        ensures false
      {
        ExecFindsEveryMatch(s, g);
      }
    }
  }

  /** A text the pattern accepts ends in a digit. */
  lemma MatchEndsInDigit(s: seq<char>, g: Groups)
    requires MatchesAs(s, g)
    ensures |s| > 0 && IsDigit(s[|s| - 1])
  {
    match g.column
    case None =>
    case Some(c) =>
      var gap :| IsRun(gap, Space) && s == g.line + gap + c;
      assert s[|s| - 1] == c[|c| - 1];
  }
}
