/** Calling `Lex` until it returns the end-of-file token, as the driver does for each line. */
module Tokenizing {
  import opened Syntax
  import opened CharClasses
  import opened Lexing
  import opened Int32Parse
  import opened LexerProperties

  /** The tokens successive `Lex` calls return from cursor `pos`, up to and including the first
      end-of-file token. Termination is the progress of `Step` on the measure |text| + 1 - pos. */
  function Tokenize(text: string, pos: nat): (toks: seq<SyntaxToken>)
    requires pos <= |text| + 1
    decreases |text| + 1 - pos
  {
    var (t, next) := Step(text, pos);
    StepProgress(text, pos);
    if t.kind == EndOfFileToken then [t] else [t] + Tokenize(text, next)
  }

  /** The stream ends with exactly one end-of-file token, recorded at the end of the text or one
      past it. */
  lemma {:induction false} EndsWithEndOfFile(text: string, pos: nat)
    requires pos <= |text| + 1
    ensures var toks := Tokenize(text, pos);
      && |toks| > 0
      && (forall i :: 0 <= i < |toks| - 1 ==> toks[i].kind != EndOfFileToken)
      && var last := toks[|toks| - 1];
      && last.kind == EndOfFileToken && last.text == "\0" && last.value == None
      && |text| <= last.position <= |text| + 1
    decreases |text| + 1 - pos
  {
    StepProgress(text, pos);
    if pos < |text| {
      var next := Step(text, pos).1;
      TokenizeUnfold(text, pos);
      EndsWithEndOfFile(text, next);
      ConsKeepsEndLast(Step(text, pos).0, Tokenize(text, next));
    }
  }

  lemma ConsKeepsEndLast(t: SyntaxToken, rest: seq<SyntaxToken>)
    requires t.kind != EndOfFileToken && |rest| > 0
    requires forall i :: 0 <= i < |rest| - 1 ==> rest[i].kind != EndOfFileToken
    ensures var toks := [t] + rest;
      && toks[|toks| - 1] == rest[|rest| - 1]
      && forall i :: 0 <= i < |toks| - 1 ==> toks[i].kind != EndOfFileToken
  {
    var toks := [t] + rest;
    forall i | 0 <= i < |toks| - 1 ensures toks[i].kind != EndOfFileToken {
      if i > 0 { assert toks[i] == rest[i - 1]; }
    }
  }

  /** The source text the tokens spell: the texts of all tokens but the end-of-file one. */
  function Spelled(toks: seq<SyntaxToken>): string
  {
    if toks == [] then []
    else (if toks[0].kind == EndOfFileToken then [] else toks[0].text) + Spelled(toks[1..])
  }

  /** A non-end token followed by the tokens lexed from the new cursor. */
  lemma TokenizeUnfold(text: string, pos: nat)
    requires pos < |text|
    ensures Step(text, pos).1 <= |text| + 1
    ensures Tokenize(text, pos) == [Step(text, pos).0] + Tokenize(text, Step(text, pos).1)
  {
    StepProgress(text, pos);
  }

  lemma SpelledCons(t: SyntaxToken, rest: seq<SyntaxToken>)
    requires t.kind != EndOfFileToken
    ensures Spelled([t] + rest) == t.text + Spelled(rest)
  {
    assert ([t] + rest)[1..] == rest;
  }

  /** One step of `Coverage`: a token lexed from a cursor not on a lone `!` spells exactly the
      characters the cursor moves over. */
  lemma SpelledStep(text: string, pos: nat) returns (next: nat)
    requires pos < |text| && (text[pos] == '!' ==> pos + 1 < |text| && text[pos + 1] == '=')
    ensures pos < next <= |text|
    ensures Spelled(Tokenize(text, pos)) == text[pos..next] + Spelled(Tokenize(text, next))
  {
    var step := Step(text, pos);
    StepProgress(text, pos);
    StepSpan(text, pos);
    TokenizeUnfold(text, pos);
    next := step.1;
    assert step.0.kind != BangToken;
    assert step.0.kind != EndOfFileToken && step.0.text == text[pos..next];
    SpelledCons(step.0, Tokenize(text, next));
  }

  lemma SliceSplit(s: string, i: nat, j: nat)
    requires i <= j <= |s|
    ensures s[i..] == s[i..j] + s[j..]
  {
  }

  /** On text where every `!` is the start of `!=`, the tokens spell the rest of the text
      exactly, in order. */
  lemma {:induction false} Coverage(text: string, pos: nat)
    requires pos <= |text|
    requires forall k :: pos <= k < |text| && text[k] == '!' ==> k + 1 < |text| && text[k + 1] == '='
    ensures Spelled(Tokenize(text, pos)) == text[pos..]
    decreases |text| - pos
  {
    if pos < |text| {
      var next := SpelledStep(text, pos);
      Coverage(text, next);
      SliceSplit(text, pos, next);
    }
  }

  /** Positions never decrease along the token stream, and all lie between the starting cursor and
      one past the end of the text. Two-character tokens share their position with the token after
      them, so positions are not strictly increasing. */
  lemma {:induction false} PositionsNonDecreasing(text: string, pos: nat)
    requires pos <= |text| + 1
    ensures var toks := Tokenize(text, pos);
      && (forall i :: 0 <= i < |toks| ==> pos <= toks[i].position <= |text| + 1)
      && (forall i, j :: 0 <= i < j < |toks| ==> toks[i].position <= toks[j].position)
    decreases |text| + 1 - pos
  {
    if pos < |text| {
      var t, next := PositionStep(text, pos);
      PositionsNonDecreasing(text, next);
      ConsKeepsOrder(t, Tokenize(text, next), pos, next, |text| + 1);
    } else {
      EndOfFileIsFixpoint(text, pos);
    }
  }

  lemma ConsKeepsOrder(t: SyntaxToken, rest: seq<SyntaxToken>, lo: int, mid: int, hi: int)
    requires lo <= t.position <= mid <= hi
    requires forall i :: 0 <= i < |rest| ==> mid <= rest[i].position <= hi
    requires forall i, j :: 0 <= i < j < |rest| ==> rest[i].position <= rest[j].position
    ensures var toks := [t] + rest;
      && (forall i :: 0 <= i < |toks| ==> lo <= toks[i].position <= hi)
      && (forall i, j :: 0 <= i < j < |toks| ==> toks[i].position <= toks[j].position)
  {
    var toks := [t] + rest;
    forall i | 0 <= i < |toks| ensures lo <= toks[i].position <= hi {
      if i > 0 {
        assert toks[i] == rest[i - 1];
      }
    }
    forall i, j | 0 <= i < j < |toks| ensures toks[i].position <= toks[j].position {
      assert toks[j] == rest[j - 1];
      if i > 0 {
        assert toks[i] == rest[i - 1];
      }
    }
  }

  /** One step of `PositionsNonDecreasing`: the first token is recorded between the cursor it was
      lexed from and the cursor it leaves. */
  lemma PositionStep(text: string, pos: nat) returns (t: SyntaxToken, next: nat)
    requires pos < |text|
    ensures pos < next <= |text| + 1
    ensures Tokenize(text, pos) == [t] + Tokenize(text, next)
    ensures pos <= t.position <= next
  {
    StepProgress(text, pos);
    StepSpan(text, pos);
    TokenizeUnfold(text, pos);
    t, next := Step(text, pos).0, Step(text, pos).1;
  }

  /** `12a` lexes as a number and then a letter run: a digit run needs no separator. */
  lemma DigitsThenLetters()
    ensures Tokenize("12a", 0) == [
      SyntaxToken(NumberToken, 0, "12", Some(12)),
      SyntaxToken(LetterToken, 2, "a", None),
      SyntaxToken(EndOfFileToken, 3, "\0", None)]
  {
    var text := "12a";
    assert Step(text, 0) == (SyntaxToken(NumberToken, 0, "12", Some(12)), 2) by {
      assert RunEnd(text, 0, Digit) == 2 by {
        assert RunEnd(text, 2, Digit) == 2;
      }
      assert text[0..2] == "12";
      assert DigitsValue("12") == 12 by {
        assert "12"[..1] == "1";
      }
    }
    assert Step(text, 2) == (SyntaxToken(LetterToken, 2, "a", None), 3) by {
      assert RunEnd(text, 2, Letter) == 3 && text[2..3] == "a";
    }
    TokenizeUnfold(text, 0);
    TokenizeUnfold(text, 2);
  }

  /** `!x`: the lone `!` swallows the `x`, so the tokens do not spell the text. */
  lemma BangSkipsNextCharacter()
    ensures Tokenize("!x", 0) == [
      SyntaxToken(BangToken, 2, "!", None),
      SyntaxToken(EndOfFileToken, 2, "\0", None)]
    ensures Spelled(Tokenize("!x", 0)) != "!x"
  {
    var text := "!x";
    LoneBang(text, 0);
    TokenizeUnfold(text, 0);
    EndOfFileIsFixpoint(text, 2);
    var toks := Tokenize(text, 0);
    SpelledCons(toks[0], Tokenize(text, 2));
    assert Spelled(toks) == "!";
  }

  /** `& ` is a bad token for the `&` followed by whitespace. */
  lemma LoneAmpersand()
    ensures Tokenize("& ", 0) == [
      SyntaxToken(BadToken, 0, "&", None),
      SyntaxToken(WhitespaceToken, 1, " ", None),
      SyntaxToken(EndOfFileToken, 2, "\0", None)]
  {
    var text := "& ";
    BadCharacter(text, 0);
    assert [text[0]] == "&";
    WhitespaceBranch(text, 1);
    assert text[1..2] == " ";
    TokenizeUnfold(text, 0);
    TokenizeUnfold(text, 1);
  }

  /** `&&` is one token, recorded at position 2. */
  lemma AmpersandPair()
    ensures Tokenize("&&", 0) == [
      SyntaxToken(AmperandAmpersandToken, 2, "&&", None),
      SyntaxToken(EndOfFileToken, 2, "\0", None)]
  {
    TokenizeUnfold("&&", 0);
  }

  /** `a!=b` is spelled back exactly by its tokens: the `!` there starts `!=`. */
  lemma InequalityIsCovered()
    ensures Spelled(Tokenize("a!=b", 0)) == "a!=b"
  {
    Coverage("a!=b", 0);
  }
}
