/** Tokens as the lexer emits and the parser consumes them. Line and column are not part of this model. */
module Tokens {

  /** The token types that the lexer or the parser treats specially, under the names of the enumerators; every other
      enumerator is Other with its spelling. */
  datatype Kind =
    | LeftParen | RightParen | LeftBrace | RightBrace | LeftBracket | RightBracket
    | Comma | Dot | SemiColon | Colon | Arrow
    | Plus | Minus | Star | Slash | Percent | Power
    | Equal | EqualEqual | Bang | BangEqual | Less | LessEqual | Greater | GreaterEqual
    | And | Or | BitwiseAnd | BitwiseOr | BitwiseXor | LeftShift | RightShift
    | ChannelSend | ChannelReceive
    | Identifier | String | Int | Float64 | Float32 | True | False | Nil
    | Let | Const | Def | Async | Class | Import | If | Elif | Else | While | For | In | Return
    | Match | Case | Default | Go | Select | Lambda | Await | New | Delete
    | Indent | Dedent | Error | Eof
    | Other(name: string)

  datatype Token = Token(kind: Kind, text: string)

  /** A token list as the lexer returns it ends with the end marker. */
  ghost predicate EndMarked(ts: seq<Token>) {
    ts != [] && ts[|ts| - 1].kind == Eof
  }
}
