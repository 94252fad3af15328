# Go to line: reading the prompt text

This project models how the standalone editor's "go to line" quick-access
provider reads what the user typed into its prompt
(`StandaloneGotoLineQuickAccessProvider.parseInput`). The text becomes a
pair `[line, column]`, where `column` may be `undefined`, or one of three
errors: "No active editor", "No current position" and "Invalid input".

The provider accepts two forms:

- **Relative**: text starting with `:c+` or `:c-`. The line is the current
  line of the selection start plus `parseInt(input.substring(2), 10)`, and
  the column is `undefined`.
- **Absolute**: text matched by `^(\d+)(?:\s+(\d+))?$`. Group 1 is the line.
  Group 2, when present, is the column.

Modules:

- `Wrappers`: `Option`, standing for `undefined`.
- `JsText`: the regular-expression classes `\d` (ASCII digits) and `\s`
  (ECMAScript WhiteSpace and LineTerminator), greedy scanning with `Span`, and
  `startsWith`.
- `JsParseInt`: `parseInt(s, 10)` as ECMA-262 section 19.2.5 defines it,
  over a `JsNumber` that is an unbounded integer or `NaN`. It also defines the
  decimal numeral of a natural, which the round-trip lemmas use.
- `LineColumnPattern`: the anchored pattern as `Exec`, which returns the
  capture groups. `MatchesAs` is an independent statement of the language
  the pattern denotes. `Exec` is proved sound and complete against it.
- `GotoLine`: `ParseInput` and the lemmas about it. The focused editor that
  the provider reads through its `activeTextEditorControl` getter is an
  explicit parameter, `Option<Editor>`. An `Editor` holds the selection's
  start position, which may be absent. Each `throw` is a variant of
  `Outcome`.

What the code does, which a reader may not expect:

- The input is not trimmed. Leading or trailing white space makes absolute
  input invalid.
- The editor and position checks come before the input is looked at, for
  both forms. They do not apply only to the relative form.
- A relative remainder without digits gives a line of `NaN`. It is not an
  error.
- Nothing is clamped. `0` gives line 0, `5 0` gives column 0, and a relative
  offset can give a line of 0 or below.

## Model

| member | source | states |
|---|---|---|
| `GotoLine.ParseInput` | src/vs/editor/standalone/browser/quickAccess/standaloneGotoLineQuickAccess.ts:30-55 | With no focused editor the result is "No active editor", whatever the input. With an editor but no selection start it is "No current position". Neither error arises otherwise. A relative input that resolves has no column |
| `GotoLine.IsRelative` | src/vs/editor/standalone/browser/quickAccess/standaloneGotoLineQuickAccess.ts:41 | Input is relative exactly when it has at least three characters, `:` then `c` then `+` or `-` |
| `GotoLine.AddToLine` | src/vs/editor/standalone/browser/quickAccess/standaloneGotoLineQuickAccess.ts:43 | The sum is NaN exactly when the offset is NaN; otherwise it exceeds the current line by the offset |
| `GotoLine.Truthy` | src/vs/editor/standalone/browser/quickAccess/standaloneGotoLineQuickAccess.ts:53 | A group is truthy exactly when it took part in the match and is not empty, so every digit capture, `"0"` included, is truthy |
| `GotoLine.RelativeAlwaysResolves` | src/vs/editor/standalone/browser/quickAccess/standaloneGotoLineQuickAccess.ts:41-44 | Once a position exists, any input starting with `:c+` or `:c-` resolves to a line with an undefined column. It is never rejected by the pattern |
| `GotoLine.RelativeOffset` | src/vs/editor/standalone/browser/quickAccess/standaloneGotoLineQuickAccess.ts:41-44 | `:c+N…` gives current line + N, and `:c-N…` gives current line − N. N is the leading digit run after the sign, and anything after the run is ignored |
| `GotoLine.RelativeOffsetValue` | src/vs/editor/standalone/browser/quickAccess/standaloneGotoLineQuickAccess.ts:42 | `parseInt(input.substring(2), 10)` of relative input is the signed value of the digit run after the sign |
| `GotoLine.RelativeWithoutDigits` | src/vs/editor/standalone/browser/quickAccess/standaloneGotoLineQuickAccess.ts:42-44 | When no digit follows the sign (`:c+`, `:c+x`, `:c- 5`), the line is NaN with no column. It is not an error |
| `GotoLine.AbsoluteLine` | src/vs/editor/standalone/browser/quickAccess/standaloneGotoLineQuickAccess.ts:48-54 | An input made only of ASCII digits gives its decimal value as the line and an undefined column |
| `GotoLine.AbsoluteLineColumn` | src/vs/editor/standalone/browser/quickAccess/standaloneGotoLineQuickAccess.ts:48-54 | Digits, then one or more `\s` characters, then digits give (first value, second value) in that order |
| `GotoLine.AbsoluteNeverNaN` | src/vs/editor/standalone/browser/quickAccess/standaloneGotoLineQuickAccess.ts:52-53 | Every result of the absolute form is a non-negative number, never NaN, and so is its column when present |
| `GotoLine.RejectsExactlyTheRest` | src/vs/editor/standalone/browser/quickAccess/standaloneGotoLineQuickAccess.ts:41-51 | Once a position exists, input is rejected with "Invalid input" if and only if it is not relative and the pattern's language does not contain it |
| `GotoLine.RejectsEmpty` | src/vs/editor/standalone/browser/quickAccess/standaloneGotoLineQuickAccess.ts:48-51 | The empty string is rejected |
| `GotoLine.RejectsLeadingSpace` | src/vs/editor/standalone/browser/quickAccess/standaloneGotoLineQuickAccess.ts:48-51 | Input starting with white space is rejected, because nothing is trimmed |
| `GotoLine.RejectsTrailingSpace` | src/vs/editor/standalone/browser/quickAccess/standaloneGotoLineQuickAccess.ts:48-51 | Non-relative input ending in white space is rejected |
| `GotoLine.RejectsSign` | src/vs/editor/standalone/browser/quickAccess/standaloneGotoLineQuickAccess.ts:48-51 | Input starting with `+` or `-` is rejected |
| `GotoLine.RejectsThirdNumber` | src/vs/editor/standalone/browser/quickAccess/standaloneGotoLineQuickAccess.ts:48-51 | Three white-space-separated numbers are rejected |
| `GotoLine.RoundTripLine` | src/vs/editor/standalone/browser/quickAccess/standaloneGotoLineQuickAccess.ts:48-54 | Parsing the decimal text of a natural l gives (l, undefined) |
| `GotoLine.RoundTripLineColumn` | src/vs/editor/standalone/browser/quickAccess/standaloneGotoLineQuickAccess.ts:48-54 | Parsing the decimal text of l, a space and the decimal text of c gives (l, c) |
| `GotoLine.LineZeroKept` | src/vs/editor/standalone/browser/quickAccess/standaloneGotoLineQuickAccess.ts:52 | `0` gives line 0, so lines are not clamped |
| `GotoLine.ColumnZeroKept` | src/vs/editor/standalone/browser/quickAccess/standaloneGotoLineQuickAccess.ts:53 | `5 0` gives column 0, because the non-empty capture `"0"` is truthy |
| `GotoLine.RelativeBelowFirstLine` | src/vs/editor/standalone/browser/quickAccess/standaloneGotoLineQuickAccess.ts:43 | From line 1, `:c-5` gives line −4, so relative lines are not clamped |
| `GotoLine.ExampleForward` | src/vs/editor/standalone/browser/quickAccess/standaloneGotoLineQuickAccess.ts:41-44 | `:c+5` from line 10 gives line 15 with no column |
| `GotoLine.ExampleBackward` | src/vs/editor/standalone/browser/quickAccess/standaloneGotoLineQuickAccess.ts:41-44 | `:c-3` from line 10 gives line 7 with no column |
| `GotoLine.ExampleLetters` | src/vs/editor/standalone/browser/quickAccess/standaloneGotoLineQuickAccess.ts:48-51 | `abc` is rejected |
| `LineColumnPattern.MatchesAs` | src/vs/editor/standalone/browser/quickAccess/standaloneGotoLineQuickAccess.ts:48 | A text in the language of `^(\d+)(?:\s+(\d+))?$` starts with a digit and with its group 1 |
| `LineColumnPattern.Exec` | src/vs/editor/standalone/browser/quickAccess/standaloneGotoLineQuickAccess.ts:48 | Every match `exec` reports belongs to the pattern's language, with the groups it reports |
| `LineColumnPattern.ExecColumn` | src/vs/editor/standalone/browser/quickAccess/standaloneGotoLineQuickAccess.ts:48 | The optional tail `(?:\s+(\d+))?$` yields a group 2 of digits only when the text is one or more white-space characters followed by that group |
| `LineColumnPattern.ExecOfLine` | src/vs/editor/standalone/browser/quickAccess/standaloneGotoLineQuickAccess.ts:48 | Digits alone match, with group 1 the whole text and group 2 undefined |
| `LineColumnPattern.ExecAfterLine` | src/vs/editor/standalone/browser/quickAccess/standaloneGotoLineQuickAccess.ts:48 | Group 1 is exactly the leading digit run; after it, the tail alone decides the match |
| `LineColumnPattern.ExecColumnOf` | src/vs/editor/standalone/browser/quickAccess/standaloneGotoLineQuickAccess.ts:48 | White space followed by digits up to the end yields those digits as group 2 |
| `LineColumnPattern.ExecColumnNeedsEnd` | src/vs/editor/standalone/browser/quickAccess/standaloneGotoLineQuickAccess.ts:48 | Group 2 must reach the end, so a non-digit after it makes the tail fail |
| `LineColumnPattern.ExecOfLineColumn` | src/vs/editor/standalone/browser/quickAccess/standaloneGotoLineQuickAccess.ts:48 | Line digits, white space and column digits match, with the two digit groups in order |
| `LineColumnPattern.ExecRejectsTrailing` | src/vs/editor/standalone/browser/quickAccess/standaloneGotoLineQuickAccess.ts:48 | The pattern is anchored at the end: a non-digit after the column digits makes the match fail |
| `LineColumnPattern.ExecFindsEveryMatch` | src/vs/editor/standalone/browser/quickAccess/standaloneGotoLineQuickAccess.ts:48 | Every way the pattern's language contains a text is the match `Exec` reports, so the match is unique |
| `LineColumnPattern.ExecRejectsExactly` | src/vs/editor/standalone/browser/quickAccess/standaloneGotoLineQuickAccess.ts:48-49 | `exec` returns null if and only if the pattern's language does not contain the text |
| `LineColumnPattern.MatchEndsInDigit` | src/vs/editor/standalone/browser/quickAccess/standaloneGotoLineQuickAccess.ts:48 | Every text the pattern matches ends in a digit |
| `JsParseInt.ParseInt` | src/vs/editor/standalone/browser/quickAccess/standaloneGotoLineQuickAccess.ts:42 | A text without any digit parses to NaN |
| `JsParseInt.ParseIntOfDigits` | src/vs/editor/standalone/browser/quickAccess/standaloneGotoLineQuickAccess.ts:42 | A text starting with a digit run parses to that run's decimal value, whatever follows the run |
| `JsParseInt.ParseIntOfNumeral` | src/vs/editor/standalone/browser/quickAccess/standaloneGotoLineQuickAccess.ts:52-53 | A text of digits only parses to its decimal value |
| `JsParseInt.ParseIntOfSigned` | src/vs/editor/standalone/browser/quickAccess/standaloneGotoLineQuickAccess.ts:42 | After `+` the digit run is read as is; after `-` it is negated |
| `JsParseInt.ParseIntOfSignWithoutDigits` | src/vs/editor/standalone/browser/quickAccess/standaloneGotoLineQuickAccess.ts:42 | A sign with no digit right after it parses to NaN |
| `JsParseInt.ParseIntSkipsLeadingSpace` | src/vs/editor/standalone/browser/quickAccess/standaloneGotoLineQuickAccess.ts:42 | Leading white space never changes what `parseInt` returns |
| `JsParseInt.Decimal` | src/vs/editor/standalone/browser/quickAccess/standaloneGotoLineQuickAccess.ts:52-53 | The decimal numeral of a natural is a non-empty run of digits with no leading zero |
| `JsParseInt.DecimalRoundTrip` | src/vs/editor/standalone/browser/quickAccess/standaloneGotoLineQuickAccess.ts:52-53 | Reading back the decimal text of n gives n |
| `JsText.DigitChars` | src/vs/editor/standalone/browser/quickAccess/standaloneGotoLineQuickAccess.ts:48 | `\d` is exactly the ten ASCII digits `0` to `9` |
| `JsText.SpaceCodePoints` | src/vs/editor/standalone/browser/quickAccess/standaloneGotoLineQuickAccess.ts:48 | `\s`, and the white space `parseInt` skips, is exactly the listed WhiteSpace and LineTerminator code points |
| `JsText.Span` | src/vs/editor/standalone/browser/quickAccess/standaloneGotoLineQuickAccess.ts:48 | A greedy scan passes only characters of the class, and it stops at the end or at a character outside the class |
| `JsText.SpanOf` | src/vs/editor/standalone/browser/quickAccess/standaloneGotoLineQuickAccess.ts:48 | A scan over a run of the class, followed by text that does not start in the class, stops exactly at the end of the run |
| `JsText.SpanAcross` | src/vs/editor/standalone/browser/quickAccess/standaloneGotoLineQuickAccess.ts:42 | Scanning across a prefix that lies wholly in the class adds its length |
| `JsText.DigitIsNotSpace` | src/vs/editor/standalone/browser/quickAccess/standaloneGotoLineQuickAccess.ts:48 | No character is both in `\d` and in `\s`, which is why greedy matching is exact |

## Left out

- `GotoLineAction`, `registerEditorAction` and the quick-access registry entry (lines 58-89) are left out. They are command, keybinding and registry wiring with no logic of their own.
- The injected `ICodeEditorService`, `getFocusedCodeEditor`, `getSelection().getStartPosition()` and `Event.None` are left out. They become the `focused` parameter of `ParseInput`.
- `AbstractGotoLineQuickAccessProvider` and its `PREFIX` are not part of this model. The model does not cover how the provider uses the pair it returns.
- Exceptions are not propagated. Each `throw` is an `Outcome` variant.
- JavaScript number semantics are not modelled. Numbers are unbounded integers, so precision loss above 2^53 is absent. `parseInt` of `-0` gives 0 rather than negative zero. The only NaN behaviour modelled is that NaN plus a line is NaN.
- Strings are sequences of characters, not UTF-16 code units. Surrogate pairs are not modelled. This makes no difference here, because every character of `\d` and `\s` lies in the Basic Multilingual Plane.
- Purity and determinism are not stated as lemmas. `ParseInput` is a Dafny function, so the same arguments always give the same outcome.
