/** The values the lexer produces. A token is never changed after it is made. */
module Tokens {

  /** `Error` is the sentinel "no kind yet"; it is also the kind of an unknown character. */
  datatype TokenType = Error | Identifier | Symbol | StringLit | NumberLit

  datatype Token = Token(value: string, kind: TokenType)
}
