/**
 * The token record and the closed set of token kinds (Lexer.hpp), extended
 * with the kinds that the expression parser matches but the scanner never
 * produces (the two source files come from different revisions).
 */
module Tokens {

  datatype TokenKind =
    // kinds the scanner produces
    | OpenParen | CloseParen
    | Indent | Dedent
    | Eol
    | Identifier
    | Plus | Minus | Star | StarStar | Slash
    | FloatLiteral | IntegerLiteral
    | Eof
    | Error
    // kinds only the parser mentions
    | PipePipe | AndAnd
    | Pipe | And | Carat
    | EqualEqual | NotEqual
    | Greater | GreaterEqual | Less | LessEqual
    | GreaterGreater | LessLess
    | Not | Tilde

  /** Every token carries its kind, its text (a slice of the source, or a
      diagnostic for Error tokens), and the line and column it was read at. */
  datatype Token = Token(kind: TokenKind, lexeme: string, line: nat, col: nat)

  /** The kinds the scanner of Lexer.cpp can emit. */
  predicate IsScannerKind(k: TokenKind)
  {
    k in {OpenParen, CloseParen, Indent, Dedent, Eol, Identifier, Plus, Minus,
          Star, StarStar, Slash, FloatLiteral, IntegerLiteral, Eof, Error}
  }
}
