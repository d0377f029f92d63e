/** What one call of the lexer does in each branch, and what repeated calls produce. */
module LexerProperties {
  import opened Syntax
  import opened CharClasses
  import opened Int32Parse
  import opened Lexing

  /** At or past the end, `Lex` returns the end-of-file token at the cursor and leaves the cursor
      where it is, so every later call returns the same token. */
  lemma EndOfFileIsFixpoint(text: string, pos: nat)
    requires pos >= |text|
    ensures Step(text, pos) == (SyntaxToken(EndOfFileToken, pos, "\0", None), pos)
    ensures Step(text, Step(text, pos).1) == Step(text, pos)
  {
  }

  /** A trailing `&`, `|`, `=` or `!` sees '\0' as its lookahead, so it never forms a two-character
      operator: the first three become a `BadToken`, a trailing `!` a `BangToken` that leaves the
      cursor one past the end of the text. */
  lemma TrailingOperatorIsSingle(text: string)
    requires |text| > 0 && text[|text| - 1] in "&|=!"
    ensures CharAt(text, |text|) == '\0'
    ensures var (t, next) := Step(text, |text| - 1);
      && |t.text| == 1
      && (text[|text| - 1] == '!' ==> t.kind == BangToken && next == |text| + 1)
      && (text[|text| - 1] != '!' ==> t.kind == BadToken && next == |text|)
  {
  }

  /** A digit at the cursor yields a `NumberToken` at the cursor spelling the maximal run of digits;
      its value is the run's base-10 value when that fits in Int32 and 0 otherwise (in which case
      one diagnostic line, naming the whole text, is written). */
  lemma NumberBranch(text: string, pos: nat)
    requires pos < |text| && IsDigit(text[pos])
    ensures var (t, next) := Step(text, pos);
      && t.kind == NumberToken && t.position == pos
      && pos < next <= |text| && t.text == text[pos..next]
      && AllDigits(t.text)
      && (next == |text| || !IsDigit(text[next]))
      && t.value == Some(if DigitsValue(t.text) <= Int32Max then DigitsValue(t.text) else 0)
      && (Diagnostics(text, pos) == [] <==> DigitsValue(t.text) <= Int32Max)
  {
  }

  /** Whitespace at the cursor (digits having been checked first) yields a `WhitespaceToken` at the
      cursor spelling the maximal whitespace run, with no value. */
  lemma WhitespaceBranch(text: string, pos: nat)
    requires pos < |text| && IsWhiteSpace(text[pos])
    ensures var (t, next) := Step(text, pos);
      && t.kind == WhitespaceToken && t.position == pos && t.value == None
      && pos < next <= |text| && t.text == text[pos..next]
      && (forall k :: pos <= k < next ==> IsWhiteSpace(text[k]))
      && (next == |text| || !IsWhiteSpace(text[next]))
      && Diagnostics(text, pos) == []
  {
    ClassesDisjoint(text[pos]);
  }

  /** A letter at the cursor yields a `LetterToken` at the cursor spelling the maximal letter run,
      with no value. */
  lemma LetterBranch(text: string, pos: nat)
    requires pos < |text| && IsLetter(text[pos])
    ensures var (t, next) := Step(text, pos);
      && t.kind == LetterToken && t.position == pos && t.value == None
      && pos < next <= |text| && t.text == text[pos..next]
      && (forall k :: pos <= k < next ==> IsLetter(text[k]))
      && (next == |text| || !IsLetter(text[next]))
  {
    ClassesDisjoint(text[pos]);
  }

  /** `+ - * / ( )` each yield their own kind, spelled by that one character, recorded at the cursor
      (post-increment), and advance the cursor by one. */
  lemma SingleCharOperator(text: string, pos: nat)
    requires pos < |text| && text[pos] in "+-*/()"
    ensures var (t, next) := Step(text, pos);
      && t.position == pos && next == pos + 1 && t.text == [text[pos]] && t.value == None
      && (text[pos] == '+' <==> t.kind == PlusToken)
      && (text[pos] == '-' <==> t.kind == MinusToken)
      && (text[pos] == '*' <==> t.kind == MultiplyToken)
      && (text[pos] == '/' <==> t.kind == DivideToken)
      && (text[pos] == '(' <==> t.kind == OpenParenthesisToken)
      && (text[pos] == ')' <==> t.kind == CloseParenthesisToken)
  {
    ClassesDisjoint(text[pos]);
  }

  /** `&&`, `||`, `==` and `!=` yield their kinds spelled by the two characters; the cursor advances
      by two and the token records the advanced cursor (`_position += 2` is the new value). */
  lemma TwoCharOperator(text: string, pos: nat)
    requires pos + 1 < |text| && text[pos..pos + 2] in ["&&", "||", "==", "!="]
    ensures var (t, next) := Step(text, pos);
      && t.position == pos + 2 && next == pos + 2 && t.text == text[pos..pos + 2] && t.value == None
      && (text[pos..pos + 2] == "&&" <==> t.kind == AmperandAmpersandToken)
      && (text[pos..pos + 2] == "||" <==> t.kind == PipePipeToken)
      && (text[pos..pos + 2] == "==" <==> t.kind == EqualsEqualsToken)
      && (text[pos..pos + 2] == "!=" <==> t.kind == BangEqualToken)
  {
    ClassesDisjoint(text[pos]);
    assert text[pos..pos + 2] == [text[pos], text[pos + 1]];
  }

  /** A `!` not followed by `=` yields a `BangToken` spelled "!" but still advances by two, so the
      following character is never lexed; the token records start + 2. */
  lemma LoneBang(text: string, pos: nat)
    requires pos < |text| && text[pos] == '!' && CharAt(text, pos + 1) != '='
    ensures var (t, next) := Step(text, pos);
      && t == SyntaxToken(BangToken, pos + 2, "!", None) && next == pos + 2
      && (pos == |text| - 1 ==> next == |text| + 1)
  {
  }

  /** A lone `&`, `|` or `=`, and any character outside every class and every switch case, yields a
      `BadToken` at the cursor spelled by that character, advancing by one. */
  lemma BadCharacter(text: string, pos: nat)
    requires pos < |text|
    requires var c := text[pos];
      || (c in "&|=" && CharAt(text, pos + 1) != c)
      || (!IsDigit(c) && !IsWhiteSpace(c) && !IsLetter(c) && !IsOperatorChar(c))
    ensures Step(text, pos) == (SyntaxToken(BadToken, pos, [text[pos]], None), pos + 1)
  {
    ClassesDisjoint(text[pos]);
    assert text[pos..pos + 1] == [text[pos]];
  }

  /** Every call before the end strictly advances the cursor and keeps it at most one past the
      end; at the end it returns the end-of-file token and nothing else does. */
  lemma StepProgress(text: string, pos: nat)
    requires pos <= |text| + 1
    ensures var (t, next) := Step(text, pos);
      && (t.kind == EndOfFileToken <==> pos >= |text|)
      && (pos < |text| ==> pos < next <= |text| + 1)
      && (pos >= |text| ==> next == pos)
  {
    if pos < |text| {
      StepSpan(text, pos);
    }
  }

  /** What `StepSpan` says, for the tokens of one step whose cursor started at `pos`. */
  predicate SpansFrom(text: string, pos: nat, step: (SyntaxToken, nat))
    requires pos < |text|
  {
    var (t, next) := step;
    && t.kind != EndOfFileToken
    && 0 < |t.text| && pos + |t.text| <= |text|
    && t.text == text[pos..pos + |t.text|]
    && (if t.kind == BangToken then next == pos + 2 && text[pos] == '!' else next == pos + |t.text|)
    && t.position == (if RecordsEndPosition(t.kind) then pos + 2 else pos)
    && (t.value.Some? <==> t.kind == NumberToken)
  }

  lemma RunSpan(text: string, pos: nat, cls: CharClass)
    requires pos < |text| && InClass(text[pos], cls)
    ensures SpansFrom(text, pos, ScanRun(text, pos, cls))
  {
  }

  lemma SwitchSingleSpan(text: string, pos: nat)
    requires pos < |text| && text[pos] in "+-*/()"
    ensures SpansFrom(text, pos, Switch(text, pos))
  {
    assert text[pos..pos + 1] == [text[pos]];
  }

  lemma SwitchBadSpan(text: string, pos: nat)
    requires pos < |text|
    requires var c := text[pos]; (c in "&|=" && CharAt(text, pos + 1) != c) || !IsOperatorChar(c)
    ensures Switch(text, pos) == Bad(text, pos)
    ensures SpansFrom(text, pos, Switch(text, pos))
  {
  }

  lemma SwitchDoubleSpan(text: string, pos: nat)
    requires pos < |text|
    requires var c, lookahead := text[pos], CharAt(text, pos + 1);
      (c in "&|=" && lookahead == c) || (c == '!' && lookahead == '=')
    ensures SpansFrom(text, pos, Switch(text, pos))
  {
    assert text[pos..pos + 2] == [text[pos], text[pos + 1]];
  }

  lemma SwitchSpan(text: string, pos: nat)
    requires pos < |text|
    ensures SpansFrom(text, pos, Switch(text, pos))
  {
    var c, lookahead := text[pos], CharAt(text, pos + 1);
    if c in "+-*/()" {
      SwitchSingleSpan(text, pos);
    } else if (c in "&|=" && lookahead != c) || !IsOperatorChar(c) {
      SwitchBadSpan(text, pos);
    } else if c == '!' && lookahead != '=' {
      assert Switch(text, pos) == (SyntaxToken(BangToken, pos + 2, "!", None), pos + 2);
    } else {
      SwitchDoubleSpan(text, pos);
    }
  }

  /** Every non-end token spells the characters at the cursor where it was lexed; the cursor moves
      past exactly those characters, except after a lone `!`, which moves one further. The token
      records that cursor, or the cursor two further on for the kinds lexed with `+= 2`. Only
      number tokens carry a value. */
  lemma StepSpan(text: string, pos: nat)
    requires pos < |text|
    ensures SpansFrom(text, pos, Step(text, pos))
  {
    var c := text[pos];
    if IsDigit(c) {
      RunSpan(text, pos, Digit);
    } else if IsWhiteSpace(c) {
      RunSpan(text, pos, WhiteSpace);
    } else if IsLetter(c) {
      RunSpan(text, pos, Letter);
    } else {
      SwitchSpan(text, pos);
    }
  }

  /** The decimal spelling of any natural number lexes as one `NumberToken` covering it all, whose
      value is the number when it fits in Int32 and 0 when it does not (2147483648 gives 0). */
  lemma NumberLiteralValue(n: nat)
    ensures var text := Decimal(n);
      Step(text, 0) == (SyntaxToken(NumberToken, 0, text, Some(if n <= Int32Max then n else 0)), |text|)
  {
    var text := Decimal(n);
    NumberBranch(text, 0);
    DigitsValueOfDecimal(n);
    assert text[0..|text|] == text;
  }
}
