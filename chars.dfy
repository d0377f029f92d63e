/** The character classes the lexer dispatches on (`char.IsDigit`, `char.IsWhiteSpace`, `char.IsLetter`). */
module CharClasses {

  /** `char.IsWhiteSpace`: the control characters U+0009..U+000D, U+0085, and the Unicode
      space, line and paragraph separators. This is the complete list .NET documents. */
  predicate IsWhiteSpace(c: char)
  {
    ('\t' <= c <= '\r') || c == ' ' || c == '\U{0085}' || c == '\U{00A0}' || c == '\U{1680}'
    || ('\U{2000}' <= c <= '\U{200A}') || c == '\U{2028}' || c == '\U{2029}' || c == '\U{202F}'
    || c == '\U{205F}' || c == '\U{3000}'
  }

  /** `char.IsDigit` restricted to Latin-1, where it holds exactly of '0'..'9'. */
  predicate IsDigit(c: char)
  {
    '0' <= c <= '9'
  }

  /** `char.IsLetter` restricted to Latin-1: the ASCII letters and the Latin-1 letters
      U+00AA, U+00B5, U+00BA, U+00C0..U+00FF except U+00D7 and U+00F7. */
  predicate IsLetter(c: char)
  {
    ('A' <= c <= 'Z') || ('a' <= c <= 'z') || c == '\U{00AA}' || c == '\U{00B5}' || c == '\U{00BA}'
    || ('\U{00C0}' <= c <= '\U{00FF}' && c != '\U{00D7}' && c != '\U{00F7}')
  }

  /** The classes a maximal run can be made of. */
  datatype CharClass = Digit | WhiteSpace | Letter

  predicate InClass(c: char, cls: CharClass)
  {
    match cls
    case Digit => IsDigit(c)
    case WhiteSpace => IsWhiteSpace(c)
    case Letter => IsLetter(c)
  }

  /** The characters that have a case in the lexer's operator switch. */
  predicate IsOperatorChar(c: char)
  {
    c in "+-*/()&|=!"
  }

  /** The three classes are pairwise disjoint, and none contains an operator character or
      the '\0' that `Peek` returns past the end of the text. */
  lemma ClassesDisjoint(c: char)
    ensures !(IsDigit(c) && IsWhiteSpace(c))
    ensures !(IsDigit(c) && IsLetter(c))
    ensures !(IsWhiteSpace(c) && IsLetter(c))
    ensures IsOperatorChar(c) || c == '\0' ==> !IsDigit(c) && !IsWhiteSpace(c) && !IsLetter(c)
  {
  }
}
