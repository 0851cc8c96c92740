/** Token kinds and tokens produced by the scanner and consumed by the parser. */
module Tokens {

  datatype TokenType =
    // Single-character tokens.
    | LEFT_PAREN | RIGHT_PAREN | LEFT_BRACE | RIGHT_BRACE | LEFT_BRACKET | RIGHT_BRACKET
    | COMMA | DOT | MINUS | MINUS_EQUAL | PLUS | PLUS_EQUAL | SEMICOLON | COLON
    | SLASH | SLASH_EQUAL | STAR | STAR_EQUAL | MODULO | MODULO_EQUAL | QUESTION
    // One or two character tokens.
    | BANG | BANG_EQUAL | EQUAL | EQUAL_EQUAL | EQUAL_GREATER | GREATER | GREATER_EQUAL
    | LESS | LESS_EQUAL | QUESTION_DOT
    // Literals.
    | IDENTIFIER | STRING | NUMBER
    // Keywords.
    | AND | NEW_CLASS | ELSE | FALSE | FUN | FN | FOR | IF | NIL | OR | RETURN
    | SUPER | THIS | TRUE | TYPEOF | VAR | WHILE
    | EOF

  /** A token with the position the scanner recorded for it. */
  datatype Token = Token(tokenType: TokenType, line: int, column: int, lexeme: string)
}
