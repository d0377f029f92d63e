/** The lexer: one call to `Lex` classifies the character at the cursor, advances the cursor
    and returns one token. `Step` is the same transition as a pure function of the text and
    the cursor; `Lexer.Lex` is proved to perform it. */
module Lexing {
  import opened Syntax
  import opened CharClasses
  import opened Int32Parse

  /** `Peek`: the character at `index`, or '\0' when the index is at or past the end. */
  function CharAt(text: string, index: nat): (c: char)
    ensures index < |text| ==> c == text[index]
    ensures index >= |text| ==> c == '\0'
  {
    if index >= |text| then '\0' else text[index]
  }

  /** Where a `while (Is<Class>(Current)) Next();` loop started at `i` stops: the first index at
      or after `i` that is the end of the text or holds a character outside the class. */
  function RunEnd(text: string, i: nat, cls: CharClass): (j: nat)
    requires i <= |text|
    decreases |text| - i
    ensures i <= j <= |text|
    ensures forall k :: i <= k < j ==> InClass(text[k], cls)
    ensures j == |text| || !InClass(text[j], cls)
  {
    if i < |text| && InClass(text[i], cls) then RunEnd(text, i + 1, cls) else i
  }

  /** The token for a run of `cls` characters starting at `start`, and where the cursor ends. */
  function ScanRun(text: string, start: nat, cls: CharClass): (SyntaxToken, nat)
    requires start < |text|
  {
    var stop := RunEnd(text, start, cls);
    var lexeme := text[start..stop];
    match cls
    case Digit =>
      assert AllDigits(lexeme);
      (SyntaxToken(NumberToken, start, lexeme, Some(TryParseInt32(lexeme).1)), stop)
    case WhiteSpace => (SyntaxToken(WhitespaceToken, start, lexeme, None), stop)
    case Letter => (SyntaxToken(LetterToken, start, lexeme, None), stop)
  }

  /** `_position++`: the token records the cursor before the increment. */
  function Single(kind: SyntaxKind, pos: nat, lexeme: string): (SyntaxToken, nat)
  {
    (SyntaxToken(kind, pos, lexeme, None), pos + 1)
  }

  /** `_position += 2`: the token records the cursor after the addition. */
  function Double(kind: SyntaxKind, pos: nat, lexeme: string): (SyntaxToken, nat)
  {
    (SyntaxToken(kind, pos + 2, lexeme, None), pos + 2)
  }

  /** The kinds whose recorded position is the cursor after `_position += 2`. */
  predicate RecordsEndPosition(k: SyntaxKind)
  {
    k in {AmperandAmpersandToken, PipePipeToken, EqualsEqualsToken, BangEqualToken, BangToken}
  }

  /** The fallback: a `BadToken` holding the one character at the cursor. */
  function Bad(text: string, pos: nat): (SyntaxToken, nat)
    requires pos < |text|
  {
    (SyntaxToken(BadToken, pos, text[pos..pos + 1], None), pos + 1)
  }

  /** The operator `switch` and the `BadToken` fallback after it, for a cursor inside the text. */
  function Switch(text: string, pos: nat): (SyntaxToken, nat)
    requires pos < |text|
  {
    var lookahead := CharAt(text, pos + 1);
    match text[pos]
    case '+' => Single(PlusToken, pos, "+")
    case '-' => Single(MinusToken, pos, "-")
    case '*' => Single(MultiplyToken, pos, "*")
    case '/' => Single(DivideToken, pos, "/")
    case '(' => Single(OpenParenthesisToken, pos, "(")
    case ')' => Single(CloseParenthesisToken, pos, ")")
    case '&' => if lookahead == '&' then Double(AmperandAmpersandToken, pos, "&&") else Bad(text, pos)
    case '|' => if lookahead == '|' then Double(PipePipeToken, pos, "||") else Bad(text, pos)
    case '=' => if lookahead == '=' then Double(EqualsEqualsToken, pos, "==") else Bad(text, pos)
    case '!' => if lookahead == '=' then Double(BangEqualToken, pos, "!=") else Double(BangToken, pos, "!")
    case _ => Bad(text, pos)
  }

  /** One call of `Lex` on `text` with the cursor at `pos`: the token and the new cursor. The
      checks run in the source's order: end of text, digit, whitespace, letter, then the switch. */
  function Step(text: string, pos: nat): (SyntaxToken, nat)
  {
    if pos >= |text| then
      (SyntaxToken(EndOfFileToken, pos, "\0", None), pos)
    else
      var current := CharAt(text, pos);
      if IsDigit(current) then ScanRun(text, pos, Digit)
      else if IsWhiteSpace(current) then ScanRun(text, pos, WhiteSpace)
      else if IsLetter(current) then ScanRun(text, pos, Letter)
      else Switch(text, pos)
  }

  /** The line written to the console when the digit run at `pos` does not fit in Int32; it
      interpolates the whole input text, not the digit run. */
  function Diagnostics(text: string, pos: nat): seq<string>
  {
    if pos < |text| && IsDigit(text[pos]) then
      var lexeme := text[pos..RunEnd(text, pos, Digit)];
      assert AllDigits(lexeme);
      if TryParseInt32(lexeme).0 then [] else ["The number " + text + " isn't a valid Int32."]
    else []
  }

  class Lexer {
    const text: string
    var pos: nat
    /** The console lines written so far (output only; nothing reads them). */
    ghost var diagnostics: seq<string>

    /** The cursor never passes one beyond the end of the text. */
    ghost predicate Valid()
      reads this
    {
      pos <= |text| + 1
    }

    constructor (text: string)
      ensures this.text == text && pos == 0 && diagnostics == []
      ensures Valid()
    {
      this.text := text;
      pos := 0;
      diagnostics := [];
    }

    /** The character `offset` places after the cursor; '\0' once that is past the text. */
    function Peek(offset: nat): (c: char)
      reads this
      ensures pos + offset < |text| ==> c == text[pos + offset]
      ensures pos + offset >= |text| ==> c == '\0'
    {
      CharAt(text, pos + offset)
    }

    function Current(): char
      reads this
    {
      Peek(0)
    }

    function Lookahead(): char
      reads this
    {
      Peek(1)
    }

    method Next()
      modifies this`pos
      ensures pos == old(pos) + 1
    {
      pos := pos + 1;
    }

    /** `while (char.Is<Class>(Current)) Next();`: moves the cursor to the end of the run of
        `cls` characters that starts at it. */
    method SkipRun(cls: CharClass)
      requires pos <= |text|
      modifies this`pos
      ensures pos == RunEnd(text, old(pos), cls)
    {
      ghost var start := pos;
      while InClass(Current(), cls)
        invariant start <= pos <= RunEnd(text, start, cls)
        decreases |text| - pos
      {
        Next();
      }
    }

    /** Returns the next token and advances the cursor, exactly as `Step` describes. */
    method Lex() returns (t: SyntaxToken)
      modifies this`pos, this`diagnostics
      ensures (t, pos) == Step(text, old(pos))
      ensures diagnostics == old(diagnostics) + Diagnostics(text, old(pos))
      ensures old(Valid()) ==> Valid()
    {
      if pos >= |text| {
        return SyntaxToken(EndOfFileToken, pos, "\0", None);
      }
      var start := pos;
      assert old(diagnostics) + [] == old(diagnostics);

      if IsDigit(Current()) {
        assert Step(text, start) == ScanRun(text, start, Digit);
        SkipRun(Digit);
        var lexeme := text[start..pos];
        assert AllDigits(lexeme);
        var (ok, value) := TryParseInt32(lexeme);
        if !ok {
          diagnostics := diagnostics + ["The number " + text + " isn't a valid Int32."];
        }
        return SyntaxToken(NumberToken, start, lexeme, Some(value));
      }

      if IsWhiteSpace(Current()) {
        assert Step(text, start) == ScanRun(text, start, WhiteSpace);
        SkipRun(WhiteSpace);
        return SyntaxToken(WhitespaceToken, start, text[start..pos], None);
      }

      if IsLetter(Current()) {
        assert Step(text, start) == ScanRun(text, start, Letter);
        SkipRun(Letter);
        return SyntaxToken(LetterToken, start, text[start..pos], None);
      }

      assert Step(text, start) == Switch(text, start);
      match Current() {
      case '+' =>
        t := SyntaxToken(PlusToken, pos, "+", None); pos := pos + 1; return;
      case '-' =>
        t := SyntaxToken(MinusToken, pos, "-", None); pos := pos + 1; return;
      case '*' =>
        t := SyntaxToken(MultiplyToken, pos, "*", None); pos := pos + 1; return;
      case '/' =>
        t := SyntaxToken(DivideToken, pos, "/", None); pos := pos + 1; return;
      case '(' =>
        t := SyntaxToken(OpenParenthesisToken, pos, "(", None); pos := pos + 1; return;
      case ')' =>
        t := SyntaxToken(CloseParenthesisToken, pos, ")", None); pos := pos + 1; return;
      case '&' =>
        if Lookahead() == '&' {
          pos := pos + 2; return SyntaxToken(AmperandAmpersandToken, pos, "&&", None);
        }
      case '|' =>
        if Lookahead() == '|' {
          pos := pos + 2; return SyntaxToken(PipePipeToken, pos, "||", None);
        }
      case '=' =>
        if Lookahead() == '=' {
          pos := pos + 2; return SyntaxToken(EqualsEqualsToken, pos, "==", None);
        }
      case '!' =>
        if Lookahead() == '=' {
          pos := pos + 2; return SyntaxToken(BangEqualToken, pos, "!=", None);
        } else {
          pos := pos + 2; return SyntaxToken(BangToken, pos, "!", None);
        }
      case _ =>
      }
      pos := pos + 1;
      t := SyntaxToken(BadToken, start, text[pos - 1..pos], None);
    }
  }
}
