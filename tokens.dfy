/**
 * Tokens as the lexer hands them to the parser. The lexer itself is not part of this model:
 * a token sequence is an input.
 */
module Tokens {

  /**
   * The token kinds the parser tells apart by kind. Operators, keywords, delimiters and
   * every other kind are matched by their text instead, so they share the kind `Other`.
   */
  datatype TokenKind =
    | Newline | Indent | Dedent
    | Identifier
    | DecInteger | HexInteger | BinInteger | OctInteger
    | DecFloat | DecIntegerImag | DecFloatImag
    | String | ByteString | PrefixedString
    | Other

  /** A token: its kind, the source text it covers, and where it starts. */
  datatype Token = Token(kind: TokenKind, data: string, row: int, column: int)
}
