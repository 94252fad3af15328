/**
 * `StandaloneGotoLineQuickAccessProvider.parseInput`: the text typed into the
 * "go to line" prompt becomes a target line and an optional column, either
 * relative to the cursor (`:c+N`, `:c-N`) or absolute (`L` or `L C`).
 *
 * The focused code editor the provider reads through its
 * `activeTextEditorControl` getter is an explicit parameter, and each
 * `throw new Error(...)` is a variant of the outcome.
 */
module GotoLine {
  import opened Wrappers
  import opened JsText
  import opened JsParseInt
  import opened LineColumnPattern

  /** A position in a text model; line and column numbers start at 1 in the editor. */
  datatype Position = Position(lineNumber: int, column: int)

  /**
   * The focused code editor, reduced to what `parseInput` reads from it: the
   * start of its selection, absent when the editor has no selection.
   */
  datatype Editor = Editor(selectionStart: Option<Position>)

  /**
   * What `parseInput` returns, `[line, column]` with `column` possibly
   * undefined, or which error it throws.
   */
  datatype Outcome =
    | Target(line: JsNumber, column: Option<JsNumber>)
    | NoActiveEditor     // 'No active editor'
    | NoCurrentPosition  // 'No current position'
    | InvalidInput       // 'Invalid input'

  /** A focused editor whose selection starts at `current`. */
  function At(current: Position): Option<Editor> {
    Some(Editor(Some(current)))
  }

  /** The relative form is recognised by its three-character prefix alone. */
  predicate IsRelative(input: seq<char>)
    ensures IsRelative(input)
        <==> |input| >= 3 && input[0] == ':' && input[1] == 'c' && (input[2] == '+' || input[2] == '-')
  {
    StartsWith(input, ":c+") || StartsWith(input, ":c-")
  }

  /** `currentPosition.lineNumber + relativeLine`: NaN stays NaN. */
  function AddToLine(lineNumber: int, offset: JsNumber): (r: JsNumber)
    ensures r.NaN? <==> offset.NaN?
    ensures r.Num? ==> r.value - lineNumber == offset.value
  {
    match offset
    case NaN => NaN
    case Num(d) => Num(lineNumber + d)
  }

  /**
   * A capture group is truthy when it took part in the match and is not
   * empty; every digit capture is truthy, `"0"` included.
   */
  predicate Truthy(group: Option<seq<char>>)
    ensures Truthy(group) <==> group.Some? && group.value != ""
    ensures group.Some? && IsRun(group.value, Digit) ==> Truthy(group)
  {
    group.Some? && |group.value| > 0
  }

  /**
   * `parseInput(input)` with the focused editor `focused`. The editor and its
   * position are checked before the input is looked at; the relative form is
   * tried before the pattern; nothing is trimmed and nothing is clamped.
   */
  function ParseInput(input: seq<char>, focused: Option<Editor>): (r: Outcome)
    ensures focused.None? <==> r == NoActiveEditor
    ensures (focused.Some? && focused.value.selectionStart.None?) <==> r == NoCurrentPosition
    ensures IsRelative(input) && r.Target? ==> r.column.None?
  {
    match focused
    case None => NoActiveEditor
    case Some(editor) =>
      match editor.selectionStart
      case None => NoCurrentPosition
      case Some(current) =>
        if IsRelative(input) then
          Target(AddToLine(current.lineNumber, ParseInt(input[2..])), None)
        else
          match Exec(input)
          case None => InvalidInput
          case Some(groups) =>
            Target(ParseInt(groups.line),
                   if Truthy(groups.column) then Some(ParseInt(groups.column.value)) else None)
  }

  // The next three lemmas only unfold one branch of `ParseInput` each. The
  // property lemmas below go through them so that each proof unfolds just
  // the branch it is about.

  /** Relative input with a position: the current line plus `parseInt` of all but the first two characters. */
  lemma ParseInputRelative(input: seq<char>, current: Position)
    requires IsRelative(input)
    ensures ParseInput(input, At(current))
         == Target(AddToLine(current.lineNumber, ParseInt(input[2..])), None)
  {
  }

  /** Other input with a position: `parseInt` of the groups `Exec` returns. */
  lemma ParseInputAbsolute(input: seq<char>, current: Position, g: Groups)
    requires !IsRelative(input)
    requires Exec(input) == Some(g)
    ensures ParseInput(input, At(current))
         == Target(ParseInt(g.line), if Truthy(g.column) then Some(ParseInt(g.column.value)) else None)
  {
  }

  /** Other input with a position that the pattern does not match is rejected. */
  lemma ParseInputRejected(input: seq<char>, current: Position)
    requires !IsRelative(input)
    requires Exec(input) == None
    ensures ParseInput(input, At(current)) == InvalidInput
  {
  }

  // `NotRelative` and `RelativeSign` are small steps about the prefix test,
  // stated once so that the property lemmas need not unfold `StartsWith`.

  /** Input whose first character is not `:` is never relative. */
  lemma NotRelative(input: seq<char>)
    requires |input| > 0 && input[0] != ':'
    ensures !IsRelative(input)
  {
  }

  /** The third character of relative input is its sign. */
  lemma RelativeSign(input: seq<char>)
    requires IsRelative(input)
    ensures |input| >= 3 && (input[2] == '+' || input[2] == '-')
  {
    assert input[2] == input[..3][2];
  }

  /**
   * Once there is a position, relative input always resolves, to a line
   * with no column: it never reaches the pattern and is never rejected.
   */
  lemma RelativeAlwaysResolves(input: seq<char>, current: Position)
    requires IsRelative(input)
    ensures ParseInput(input, At(current)).Target?
    ensures ParseInput(input, At(current)).column.None?
  {
  }

  /**
   * `:c+N` adds the leading digit run N after the sign to the current line
   * and `:c-N` subtracts it; whatever follows the run is ignored, and the
   * result may be zero or negative.
   */
  lemma RelativeOffset(input: seq<char>, digits: seq<char>, rest: seq<char>, current: Position)
    requires IsRelative(input)
    requires input[3..] == digits + rest
    requires IsRun(digits, Digit)
    requires |rest| == 0 || !IsDigit(rest[0])
    ensures ParseInput(input, At(current))
         == Target(Num(if input[2] == '+' then current.lineNumber + DecimalValue(digits)
                       else current.lineNumber - DecimalValue(digits)),
                   None)
  {
    RelativeOffsetValue(input, digits, rest);
    ParseInputRelative(input, current);
  }

  /** The signed offset `parseInt` reads after the `:c` of relative input. */
  lemma RelativeOffsetValue(input: seq<char>, digits: seq<char>, rest: seq<char>)
    requires IsRelative(input)
    requires input[3..] == digits + rest
    requires IsRun(digits, Digit)
    requires |rest| == 0 || !IsDigit(rest[0])
    ensures ParseInt(input[2..])
         == Num(if input[2] == '+' then DecimalValue(digits) else -(DecimalValue(digits) as int))
  {
    RelativeSign(input);
    var sign := input[2];
    assert input[2..] == [sign] + input[3..];
    assert [sign] + (digits + rest) == [sign] + digits + rest;
    ParseIntOfSigned(sign, digits, rest);
  }

  /**
   * With no digit right after the sign (`:c+`, `:c+x`, `:c- 5`) the line is
   * NaN rather than an error.
   */
  lemma RelativeWithoutDigits(input: seq<char>, current: Position)
    requires IsRelative(input)
    requires |input| == 3 || !IsDigit(input[3])
    ensures ParseInput(input, At(current)) == Target(NaN, None)
  {
    RelativeSign(input);
    assert ParseInt(input[2..]) == NaN by {
      assert input[2..] == [input[2]] + input[3..];
      ParseIntOfSignWithoutDigits(input[2], input[3..]);
    }
    ParseInputRelative(input, current);
  }

  /** Digits alone are a line with no column. */
  lemma AbsoluteLine(line: seq<char>, current: Position)
    requires IsRun(line, Digit)
    ensures ParseInput(line, At(current)) == Target(Num(DecimalValue(line)), None)
  {
    NotRelative(line);
    ExecOfLine(line);
    ParseInputAbsolute(line, current, Groups(line, None));
    ParseIntOfNumeral(line);
  }

  /**
   * Digits, white space, digits are a line and a column, in that order; a
   * column of `0` is kept, since a non-empty capture is truthy.
   */
  lemma AbsoluteLineColumn(line: seq<char>, gap: seq<char>, column: seq<char>, current: Position)
    requires IsRun(line, Digit) && IsRun(gap, Space) && IsRun(column, Digit)
    ensures ParseInput(line + gap + column, At(current))
         == Target(Num(DecimalValue(line)), Some(Num(DecimalValue(column))))
  {
    var input := line + gap + column;
    assert input[0] == line[0];
    NotRelative(input);
    ExecOfLineColumn(line, gap, column);
    ParseInputAbsolute(input, current, Groups(line, Some(column)));
    ParseIntOfNumeral(line);
    ParseIntOfNumeral(column);
  }

  /**
   * Whatever the absolute form yields is a non-negative number, never NaN,
   * and so is its column when there is one.
   */
  lemma AbsoluteNeverNaN(input: seq<char>, current: Position)
    requires !IsRelative(input)
    requires ParseInput(input, At(current)).Target?
    ensures ParseInput(input, At(current)).line.Num?
    ensures ParseInput(input, At(current)).line.value >= 0
    ensures ParseInput(input, At(current)).column.Some? ==>
              ParseInput(input, At(current)).column.value.Num? &&
              ParseInput(input, At(current)).column.value.value >= 0
  {
    var g := Exec(input).value;
    match g.column
    case None =>
      AbsoluteLine(input, current);
    case Some(c) =>
      var gap :| IsRun(gap, Space) && input == g.line + gap + c;
      AbsoluteLineColumn(g.line, gap, c, current);
  }

  /**
   * With a position available, input is rejected exactly when it is not
   * relative and the anchored pattern matches it in no way.
   */
  lemma RejectsExactlyTheRest(input: seq<char>, current: Position)
    ensures ParseInput(input, At(current)) == InvalidInput
        <==> !IsRelative(input) && forall g :: !MatchesAs(input, g)
  {
    ExecRejectsExactly(input);
  }

  /** The empty string is rejected. */
  lemma RejectsEmpty(current: Position)
    ensures ParseInput("", At(current)) == InvalidInput
  {
  }

  /** Nothing is trimmed: input that starts with white space is rejected. */
  lemma RejectsLeadingSpace(input: seq<char>, current: Position)
    requires |input| > 0 && IsSpace(input[0])
    ensures ParseInput(input, At(current)) == InvalidInput
  {
    assert input[0] != ':';
    assert Span(input, Digit) == 0;
  }

  /** Non-relative input that ends in white space is rejected. */
  lemma RejectsTrailingSpace(input: seq<char>, current: Position)
    requires !IsRelative(input)
    requires |input| > 0 && IsSpace(input[|input| - 1])
    ensures ParseInput(input, At(current)) == InvalidInput
  {
    forall g | MatchesAs(input, g)
      ensures false
    {
      MatchEndsInDigit(input, g);
    }
    RejectsExactlyTheRest(input, current);
  }

  /** A sign in front of absolute digits is rejected. */
  lemma RejectsSign(input: seq<char>, current: Position)
    requires |input| > 0 && (input[0] == '+' || input[0] == '-')
    ensures ParseInput(input, At(current)) == InvalidInput
  {
    assert input[0] != ':';
    assert Span(input, Digit) == 0;
  }

  /** A third number is rejected. */
  lemma RejectsThirdNumber(line: seq<char>, gap: seq<char>, column: seq<char>,
                           gap2: seq<char>, extra: seq<char>, current: Position)
    requires IsRun(line, Digit) && IsRun(gap, Space) && IsRun(column, Digit)
    requires IsRun(gap2, Space) && IsRun(extra, Digit)
    ensures ParseInput(line + gap + column + gap2 + extra, At(current)) == InvalidInput
  {
    var input := line + gap + column + (gap2 + extra);
    assert line + gap + column + gap2 + extra == input;
    assert input[0] == line[0];
    NotRelative(input);
    ExecRejectsTrailing(line, gap, column, gap2 + extra);
    ParseInputRejected(input, current);
  }

  /** Parsing the decimal text of a line alone gives that line and no column. */
  lemma RoundTripLine(line: nat, current: Position)
    ensures ParseInput(Decimal(line), At(current)) == Target(Num(line), None)
  {
    AbsoluteLine(Decimal(line), current);
    DecimalRoundTrip(line);
  }

  /** Parsing `line + " " + column` in decimal gives back the line and the column. */
  lemma RoundTripLineColumn(line: nat, column: nat, current: Position)
    ensures ParseInput(Decimal(line) + " " + Decimal(column), At(current))
         == Target(Num(line), Some(Num(column)))
  {
    AbsoluteLineColumn(Decimal(line), " ", Decimal(column), current);
    DecimalRoundTrip(line);
    DecimalRoundTrip(column);
  }

  /** Nothing is clamped: line 0 comes through as line 0. */
  lemma LineZeroKept(current: Position)
    ensures ParseInput("0", At(current)) == Target(Num(0), None)
  {
    assert DecimalValue("0") == 0;
    AbsoluteLine("0", current);
  }

  /** Nothing is clamped: column 0 comes through, since the capture "0" is truthy. */
  lemma ColumnZeroKept(current: Position)
    ensures ParseInput("5 0", At(current)) == Target(Num(5), Some(Num(0)))
  {
    assert DecimalValue("5") == 5 && DecimalValue("0") == 0;
    assert "5" + " " + "0" == "5 0";
    AbsoluteLineColumn("5", " ", "0", current);
  }

  /** Nothing is clamped: an offset can move the line above the first one. */
  lemma RelativeBelowFirstLine(current: Position)
    requires current.lineNumber == 1
    ensures ParseInput(":c-5", At(current)) == Target(Num(-4), None)
  {
    assert ":c-5"[3..] == "5" + [] && DecimalValue("5") == 5;
    RelativeOffset(":c-5", "5", [], current);
  }

  /** `:c+5` with the cursor on line 10 goes to line 15, with no column. */
  lemma ExampleForward(current: Position)
    requires current.lineNumber == 10
    ensures ParseInput(":c+5", At(current)) == Target(Num(15), None)
  {
    assert ":c+5"[3..] == "5" + [] && DecimalValue("5") == 5;
    RelativeOffset(":c+5", "5", [], current);
  }

  /** `:c-3` with the cursor on line 10 goes to line 7, with no column. */
  lemma ExampleBackward(current: Position)
    requires current.lineNumber == 10
    ensures ParseInput(":c-3", At(current)) == Target(Num(7), None)
  {
    assert ":c-3"[3..] == "3" + [] && DecimalValue("3") == 3;
    RelativeOffset(":c-3", "3", [], current);
  }

  /** Letters are rejected. */
  lemma ExampleLetters(current: Position)
    ensures ParseInput("abc", At(current)) == InvalidInput
  {
    NotRelative("abc");
    assert Span("abc", Digit) == 0;
    ParseInputRejected("abc", current);
  }
}
