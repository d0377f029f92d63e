/** The token model: the closed set of token kinds and the immutable token record. */
module Syntax {

  /** The token's decoded value; the source boxes it as a nullable `object`. */
  datatype Option<+T> = None | Some(value: T)

  /** The sixteen kinds the lexer can produce (the spelling `Amperand` is the source's own). */
  datatype SyntaxKind =
    | NumberToken
    | WhitespaceToken
    | PlusToken
    | MinusToken
    | MultiplyToken
    | DivideToken
    | OpenParenthesisToken
    | CloseParenthesisToken
    | BadToken
    | EndOfFileToken
    | LetterToken
    | AmperandAmpersandToken
    | PipePipeToken
    | EqualsEqualsToken
    | BangEqualToken
    | BangToken

  /** One lexical unit. Built only by its constructor and never changed afterwards. */
  datatype SyntaxToken = SyntaxToken(kind: SyntaxKind, position: int, text: string, value: Option<int>)

}
