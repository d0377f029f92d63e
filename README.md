# ByteScript lexer, modelled in Dafny

ByteScript's lexer turns one line of source text into tokens. A `Lexer` holds the line and a
cursor `_position`. Each call to `Lex()` looks at the character under the cursor and checks, in
this order:

1. end of text,
2. a digit run,
3. a whitespace run,
4. a letter run,
5. a `switch` over the operator characters `+ - * / ( ) & | = !`,
6. a `BadToken` fallback.

It then advances the cursor and returns one `SyntaxToken`: kind, position, text and value.

The model keeps that shape:

- `syntax.dfy` (module `Syntax`): the sixteen `SyntaxKind`s, spelled as in the source
  (including `AmperandAmpersandToken`), and the immutable `SyntaxToken` record. The boxed
  `object` value becomes `Option<int>`.
- `chars.dfy` (module `CharClasses`): `char.IsDigit`, `char.IsWhiteSpace` and `char.IsLetter`.
  The classes are proved disjoint, and none contains an operator character or `'\0'`.
- `numbers.dfy` (module `Int32Parse`): `int.TryParse` on a digit run. It reads the digits left to
  right, multiplying by ten, and fails with 0 as soon as the value leaves the Int32 range. It is
  proved to succeed exactly when the run's base-10 value fits in Int32. It is paired with the
  decimal spelling of a number and a round-trip proof.
- `lexer.dfy` (module `Lexing`):
  - `Step(text, pos)` is one `Lex()` call as a pure function returning the token and the new
    cursor.
  - `class Lexer` has the readonly `text`, the mutable cursor `pos`, and the pure reads `Peek`,
    `Current` and `Lookahead`.
  - `Next()` increments the cursor.
  - `Lex()` scans the runs with `while` loops that call `Next()`, and dispatches operators with
    a `match` that mirrors the `switch`, including its fall-through to `BadToken`.
  - `Lex()` is proved to do exactly what `Step` says.
  - The console diagnostic for an unparsable number is kept as a ghost log, `diagnostics`.
- `properties.dfy` (module `LexerProperties`): what each branch does to the cursor and the
  token. This includes every progress and span fact a step gives.
- `tokenize.dfy` (module `Tokenizing`): `Tokenize`, the token stream produced by calling `Lex`
  until it returns `EndOfFileToken`. Its termination is shown with the measure
  `|text| + 1 - pos`. The module proves that the stream ends with one end-of-file token, that the
  tokens spell the text (when every `!` starts a `!=`), and that positions never decrease. It
  also holds worked examples.

The model reproduces these behaviours of the code as written:

- The two-character operators `&&`, `||`, `==` and `!=` record `Position` as start + 2, because
  `_position += 2` evaluates to the new cursor. The single-character operators record the start,
  because `_position++` evaluates to the old one.
- A `!` not followed by `=` becomes `BangToken "!"` but advances the cursor by 2. The next
  character is never lexed. At the last index the cursor ends one past the text.
- A lone `&`, `|` or `=` is a `BadToken`.
- A digit run needs no separator: `12a` gives `NumberToken "12"` and then `LetterToken "a"`.
- A digit run that overflows Int32 is still a `NumberToken`, with value 0. The diagnostic line
  interpolates the whole input line, not the digit run.
- Past the end, `Lex` returns `EndOfFileToken` with text `"\0"` at the cursor, and keeps doing so.

`ByteScript/Program.cs` has no keyword table, no identifiers with underscores, no string
literals, no `EqualsToken`, and no rule that a digit run must be followed by whitespace; the
model has none of them either.

## Model

| member | source | states |
|---|---|---|
| `Syntax.SyntaxKind` | ByteScript/Program.cs:35-55 | the closed set of sixteen token kinds, in the source's order and spelling |
| `Syntax.SyntaxToken` | ByteScript/Program.cs:56-71 | the immutable token record of kind, position, text and value; the boxed `object` value is `Option<int>` |
| `CharClasses.IsDigit` | ByteScript/Program.cs:109 | `char.IsDigit`, exact on Latin-1: `'0'`..`'9'` |
| `CharClasses.IsWhiteSpace` | ByteScript/Program.cs:124 | `char.IsWhiteSpace`, its whole documented set: U+0009..U+000D, U+0020, U+0085, U+00A0, U+1680, U+2000..U+200A, U+2028, U+2029, U+202F, U+205F, U+3000 |
| `CharClasses.IsLetter` | ByteScript/Program.cs:136 | `char.IsLetter`, exact on Latin-1: the ASCII letters, U+00AA, U+00B5, U+00BA and U+00C0..U+00FF except U+00D7 and U+00F7 |
| `Lexing.Step` | ByteScript/Program.cs:103-185 | one `Lex()` call as a pure function of text and cursor: the checks in the source's order (end, digit, whitespace, letter, switch, `BadToken`) and the token and cursor each produces; its properties are the `LexerProperties` lemmas below |
| `Lexing.Diagnostics` | ByteScript/Program.cs:118-119 | the line `Lex` writes to the console: one line, naming the whole input text, exactly when the digit run at the cursor does not parse as Int32; none otherwise |
| `Lexing.RunEnd` | ByteScript/Program.cs:113-114 | where a `while (Is<Class>(Current)) Next();` loop stops: every character before it is in the class, and it is the end of the text or a character outside the class (a maximal run) |
| `Lexing.Lexer.constructor` | ByteScript/Program.cs:78-81 | a new lexer holds the given text with the cursor at 0 and no diagnostics |
| `Lexing.Lexer.Next` | ByteScript/Program.cs:98-101 | advances the cursor by exactly one |
| `Lexing.Lexer.SkipRun` | ByteScript/Program.cs:113-114 | the scanning loop leaves the cursor at the end of the maximal run of the class that starts at it |
| `Lexing.Lexer.Lex` | ByteScript/Program.cs:103-185 | returns the token and leaves the cursor exactly as the transition function `Step` prescribes; logs the Int32 diagnostic exactly when a digit run does not parse; keeps the cursor at most one past the end |
| `CharClasses.ClassesDisjoint` | ByteScript/Program.cs:109-148 | the digit, whitespace and letter classes are pairwise disjoint and exclude `'\0'` and every `switch` character, so the order of checks decides nothing between them |
| `Int32Parse.TryParseInt32` | ByteScript/Program.cs:118 | `TryParse`, which reads the digits left to right and stops with 0 once the value passes 2147483647, succeeds if and only if the run is non-empty and its whole base-10 value is at most 2147483647; on success the value is the run's value, on failure it is 0 |
| `Int32Parse.AccumulateReadsValue` | ByteScript/Program.cs:118 | the left-to-right digit loop, started from the value of a prefix, ends in the whole run's value when that fits in Int32 and in failure with 0 otherwise; an early overflow implies the whole run overflows |
| `Int32Parse.DigitsValueOfDecimal` | ByteScript/Program.cs:118 | the base-10 value read from a number's decimal spelling is that number |
| `Int32Parse.ParseDecimalRoundTrip` | ByteScript/Program.cs:118-120 | parsing the spelling of any number up to Int32's maximum gives back the number; for anything larger it fails with 0 |
| `Int32Parse.LeadingZero` | ByteScript/Program.cs:118 | a leading `0` does not change the parsed value |
| `LexerProperties.EndOfFileIsFixpoint` | ByteScript/Program.cs:106-107 | at or past the end, the token is `EndOfFileToken` at the cursor with text `"\0"` and no value; the cursor does not move, so the next call returns the same token |
| `LexerProperties.TrailingOperatorIsSingle` | ByteScript/Program.cs:84-96 | the lookahead past the last character is `'\0'`, so a trailing `&`, `|` or `=` is a `BadToken` and a trailing `!` is a `BangToken` that leaves the cursor at length + 1 |
| `LexerProperties.NumberBranch` | ByteScript/Program.cs:109-120 | a digit yields `NumberToken` at the start, spelling the maximal digit run, with the cursor at the first non-digit or the end; the value is the run's value when it fits in Int32 and otherwise 0, and a diagnostic is written exactly in the second case |
| `LexerProperties.WhitespaceBranch` | ByteScript/Program.cs:124-134 | whitespace yields `WhitespaceToken` at the start spelling the maximal whitespace run, with no value and no diagnostic |
| `LexerProperties.LetterBranch` | ByteScript/Program.cs:136-146 | a letter yields `LetterToken` at the start spelling the maximal letter run, with no value |
| `LexerProperties.SingleCharOperator` | ByteScript/Program.cs:151-162 | each of `+ - * / ( )` yields its own kind (both directions), spelled by that character, recorded at the start, with the cursor advanced by 1 |
| `LexerProperties.TwoCharOperator` | ByteScript/Program.cs:163-177 | `&&`, `\|\|`, `==` and `!=` yield their kinds (both directions), spelled by the two characters, with the cursor advanced by 2 and the position recorded as start + 2 |
| `LexerProperties.LoneBang` | ByteScript/Program.cs:175-179 | `!` not followed by `=` is `BangToken "!"` recorded at start + 2, and it advances by 2, to length + 1 at the last index |
| `LexerProperties.BadCharacter` | ByteScript/Program.cs:163-182 | a lone `&`, `\|` or `=`, and any character outside the classes and the switch, yields `BadToken` at the start spelled by that character, advancing by 1 |
| `LexerProperties.StepProgress` | ByteScript/Program.cs:103-185 | a call returns `EndOfFileToken` if and only if the cursor is at or past the end; otherwise the cursor strictly increases and stays at most length + 1; at the end it stays put |
| `LexerProperties.StepSpan` | ByteScript/Program.cs:103-185 | every other token is spelled by the characters at the cursor it was lexed from; the cursor moves past exactly them, except after a lone `!`; the position is the start, or start + 2 for the `+= 2` kinds; only numbers carry a value |
| `LexerProperties.NumberLiteralValue` | ByteScript/Program.cs:109-120 | the decimal spelling of any number lexes as one `NumberToken` covering it, with the number as its value when it fits in Int32 and 0 otherwise |
| `Tokenizing.Tokenize` | ByteScript/Program.cs:18-22 | the tokens that repeated `Lex` calls return from a cursor, up to and including the first `EndOfFileToken`, as the driver's inner loop requests them; it terminates on the measure length + 1 − cursor |
| `Tokenizing.EndsWithEndOfFile` | ByteScript/Program.cs:103-107 | calling `Lex` repeatedly terminates: the stream has exactly one `EndOfFileToken`, the last one, recorded at the length or one past it |
| `Tokenizing.Coverage` | ByteScript/Program.cs:103-185 | on text where every `!` starts a `!=`, the texts of the tokens before end-of-file, laid end to end, are exactly the text |
| `Tokenizing.PositionsNonDecreasing` | ByteScript/Program.cs:103-185 | token positions never decrease along the stream and lie between the starting cursor and length + 1 |
| `Tokenizing.DigitsThenLetters` | ByteScript/Program.cs:109-146 | `12a` lexes as `NumberToken "12"` (value 12) at 0, `LetterToken "a"` at 2, then end-of-file at 3 |
| `Tokenizing.BangSkipsNextCharacter` | ByteScript/Program.cs:175-179 | `!x` lexes as `BangToken "!"` at 2 and then end-of-file, so the tokens do not spell the text |
| `Tokenizing.LoneAmpersand` | ByteScript/Program.cs:163-166 | `& ` lexes as `BadToken "&"` at 0, `WhitespaceToken " "` at 1, then end-of-file at 2 |
| `Tokenizing.InequalityIsCovered` | ByteScript/Program.cs:175-177 | `a!=b` is spelled back exactly by its tokens, since its `!` starts `!=` |
| `Tokenizing.AmpersandPair` | ByteScript/Program.cs:163-165 | `&&` lexes as one `AmperandAmpersandToken` recorded at 2, then end-of-file at 2 |

## Left out

- `Program.Main` (ByteScript/Program.cs:9-31) is not modelled. It is the console read–lex–print
  loop and does only I/O. `Tokenize` stands for its inner loop of `Lex` calls.
- `char.IsDigit` and `char.IsLetter` are exact only on Latin-1 (U+0000–U+00FF). Digits and letters
  beyond it come from Unicode tables and are not modelled, so the model lexes them as `BadToken`.
  This includes non-ASCII decimal digits, on which `int.TryParse` would fail and give 0.
  `char.IsWhiteSpace` is modelled for its full documented set.
- The console diagnostic is modelled only as a ghost log of the lines written (`diagnostics`).
  Nothing in the lexer reads it.
- `int.TryParse` is modelled only on digit strings, which is all the lexer passes to it. Signs,
  surrounding whitespace and culture settings do not arise.
- C# `char` is a UTF-16 code unit, while a Dafny `char` is a Unicode scalar value. A character
  outside the Basic Multilingual Plane (an emoji, or U+1D400) is two code units in C#: the source
  lexes each surrogate as its own `BadToken` holding a lone surrogate, and every later `Position`
  counts UTF-16 units. The model gives one `BadToken` for the whole character, and every later
  position is one smaller per such character.
- `_position` and `Position` are 32-bit `int` in the source and unbounded here. The cursor never
  exceeds length + 1, and a .NET string is shorter than 2^31 − 2, so no wrap-around can occur.
- `Tokenizing.Coverage` is stated only for text where every `!` starts a `!=`, because the
  source's lone `!` skips the following character (see `Tokenizing.BangSkipsNextCharacter`).
