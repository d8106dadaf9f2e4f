/** The lexemes of src/lexer/lexer.cpp as functions of the source text and a position in it. */
module Lexemes {
  // The methods of module Lexing are proved to compute exactly these functions; the theorems about lexing are proved
  // about them. Characters are bytes. Lines and columns are not part of this model.

  import opened Characters
  import opened Tokens
  import opened Wrappers

  predicate StartsWord(c: char) {
    IsAlpha(c) || c == '_'
  }

  predicate IsBlank(c: char) {
    c == ' ' || c == '\r' || c == '\t'
  }

  /** The classes of characters that a loop of the lexer runs over. */
  datatype CharClass = Digits | HexDigits | BinaryDigits | OctalDigits | Word | Blanks | Indentation | LineRest

  predicate InClass(c: char, k: CharClass) {
    match k
    case Digits => IsDigit(c)
    case HexDigits => IsHexDigit(c)
    case BinaryDigits => c == '0' || c == '1'
    case OctalDigits => '0' <= c < '8'
    case Word => IsAlpha(c) || IsDigit(c) || c == '_'
    case Blanks => IsBlank(c)
    case Indentation => c == ' ' || c == '\t'
    case LineRest => c != '\n'
  }

  /** The character at i, and NUL from the end on. */
  function At(s: string, i: nat): char {
    if i < |s| then s[i] else '\0'
  }

  /** Where the run of characters of class k that starts at i ends. */
  function RunEnd(s: string, i: nat, k: CharClass): (e: nat)
    ensures i <= |s| ==> i <= e <= |s|
    decreases |s| - i
  {
    if i < |s| && InClass(s[i], k) then RunEnd(s, i + 1, k) else i
  }

  /** Where the next two characters `c` start, or the end. */
  function PairStart(s: string, i: nat, first: char, second: char): (e: nat)
    ensures i <= |s| ==> i <= e <= |s|
    ensures e < |s| && second != '\0' ==> e + 1 < |s|
    decreases |s| - i
  {
    if i < |s| && !(s[i] == first && At(s, i + 1) == second) then PairStart(s, i + 1, first, second) else i
  }

  predicate Crosses(s: string, i: nat, e: nat)
    requires i <= e <= |s|
  {
    '\n' in s[i..e]
  }

  lemma {:induction false} CrossesInTwo(s: string, i: nat, j: nat, e: nat)
    requires i <= j <= e <= |s|
    ensures Crosses(s, i, e) == (Crosses(s, i, j) || Crosses(s, j, e))
    ensures !Crosses(s, i, i)
  {
    assert s[i..e] == s[i..j] + s[j..e];
  }

  // Comments and layout

  datatype CommentKind = NoComment | LineComment(skip: nat) | BlockComment(first: char, second: char)

  function CommentAt(s: string, i: nat): (k: CommentKind)
    ensures k.LineComment? ==> i + k.skip <= |s| && k.skip > 0
    ensures k.BlockComment? ==> i + 2 <= |s| && k.second != '\0'
  {
    if At(s, i) == '/' && At(s, i + 1) == '/' then LineComment(2)
    else if At(s, i) == '/' && At(s, i + 1) == '*' then BlockComment('*', '/')
    else if At(s, i) == '#' && At(s, i + 1) == '#' then BlockComment('#', '#')
    else if At(s, i) == '#' then LineComment(1)
    else NoComment
  }

  /** Where the comment at i ends; a comment to the end of the line takes its newline along. */
  function CommentEnd(s: string, i: nat): (e: nat)
    requires i <= |s|
    ensures i <= e <= |s| && (e == i <==> CommentAt(s, i).NoComment?)
  {
    match CommentAt(s, i)
    case NoComment => i
    case LineComment(skip) =>
      var e := RunEnd(s, i + skip, LineRest);
      if e < |s| then e + 1 else e
    case BlockComment(first, second) =>
      var e := PairStart(s, i + 2, first, second);
      if e < |s| then e + 2 else e
  }

  /** One step over white space or a comment at i, or i if there is none. */
  function BlankEnd(s: string, i: nat): (e: nat)
    requires i <= |s|
    ensures i <= e <= |s|
  {
    if IsBlank(At(s, i)) || At(s, i) == '\n' then i + 1 else CommentEnd(s, i)
  }

  /** Where the white space and the comments from i on end. */
  function SkipEnd(s: string, i: nat): (e: nat)
    requires i <= |s|
    ensures i <= e <= |s|
    decreases |s| - i
  {
    if BlankEnd(s, i) > i then SkipEnd(s, BlankEnd(s, i)) else i
  }

  // Words and numbers

  /** What scanning one lexeme does: where it ends, what it emits and reports, and how it changes the brace depth. */
  datatype Piece = Piece(end: nat, tokens: seq<Token>, errors: nat, depth: int)

  function One(end: nat, kind: Kind, text: string): Piece {
    Piece(end, [Token(kind, text)], 0, 0)
  }

  function Faulty(end: nat, text: string): Piece {
    Piece(end, [Token(Error, text)], 1, 0)
  }

  /** The type of a word. Keywords that no rule of the parser dispatches on are Other. */
  function WordKind(word: string): (k: Kind)
    ensures k != Indent && k != Dedent && k != Eof
  {
    if word == "let" then Let
    else if word == "def" then Def
    else if word == "async" then Async
    else if word == "await" then Await
    else if word == "class" then Class
    else if word == "if" then If
    else if word == "elif" then Elif
    else if word == "else" then Else
    else if word == "while" then While
    else if word == "for" then For
    else if word == "in" then In
    else if word == "return" then Return
    else if word == "import" then Import
    else if word == "match" then Match
    else if word == "case" then Case
    else if word == "default" then Default
    else if word == "const" then Const
    else if word == "true" then True
    else if word == "false" then False
    else if word == "None" then Nil
    else if word == "and" then And
    else if word == "or" then Or
    else if word == "lambda" then Lambda
    else if word == "new" then New
    else if word == "delete" then Delete
    else if word == "select" then Select
    else if word == "go" then Go
    else if word == "error" then Error
    else if word in {
      "from", "print", "try", "catch", "finally", "throw", "break", "continue", "switch", "enum", "struct",
      "interface", "trait", "impl", "pub", "priv", "static", "final", "abstract", "virtual", "override", "super",
      "self", "null", "undefined", "void", "typeof", "instanceof", "as", "is", "where", "yield", "generator",
      "coroutine", "channel", "spawn", "join", "mutex", "lock", "unlock", "atomic", "volatile", "constexpr",
      "inline", "extern", "export", "module", "package", "namespace", "using", "with", "defer", "panic", "recover",
      "assert", "debug", "trace", "log", "warn", "fatal"}
    then Other(word)
    else Identifier
  }

  function WordAt(s: string, i: nat): Piece
    requires i < |s|
  {
    var e := RunEnd(s, i + 1, Word);
    One(e, WordKind(s[i..e]), s[i..e])
  }

  function NumberAt(s: string, i: nat): (r: Piece)
    requires i < |s| && IsDigit(s[i])
    ensures i < r.end <= |s|
  {
    var next := At(s, i + 1);
    if s[i] == '0' && (next == 'x' || next == 'X') then
      if IsHexDigit(At(s, i + 2)) then Suffixed(s, i, RunEnd(s, i + 2, HexDigits), false)
      else Faulty(i + 2, s[i..i + 2])
    else if s[i] == '0' && (next == 'b' || next == 'B') then
      if InClass(At(s, i + 2), BinaryDigits) then Suffixed(s, i, RunEnd(s, i + 2, BinaryDigits), false)
      else Faulty(i + 2, s[i..i + 2])
    else if s[i] == '0' && IsDigit(next) && next != '0' then
      Suffixed(s, i, RunEnd(s, i + 1, OctalDigits), false)
    else
      DecimalFrom(s, i, RunEnd(s, i + 1, Digits))
  }

  /** A decimal number whose whole part ends at a. */
  function DecimalFrom(s: string, i: nat, a: nat): (r: Piece)
    requires i < a <= |s|
    ensures i < r.end <= |s|
  {
    if At(s, a) == '.' && IsDigit(At(s, a + 1)) then ExponentFrom(s, i, RunEnd(s, a + 1, Digits), true)
    else ExponentFrom(s, i, a, false)
  }

  function ExponentFrom(s: string, i: nat, a: nat, isFloat: bool): (r: Piece)
    requires i < a <= |s|
    ensures i < r.end <= |s|
  {
    if At(s, a) == 'e' || At(s, a) == 'E' then
      var b := if At(s, a + 1) == '+' || At(s, a + 1) == '-' then a + 2 else a + 1;
      if IsDigit(At(s, b)) then Suffixed(s, i, RunEnd(s, b, Digits), true) else Faulty(b, s[i..b])
    else Suffixed(s, i, a, isFloat)
  }

  function Suffixed(s: string, i: nat, a: nat, isFloat: bool): (r: Piece)
    requires i < a <= |s|
    ensures i < r.end <= |s|
  {
    var c := At(s, a);
    var floats := c == 'f' || c == 'F';
    var e := if floats || c == 'l' || c == 'L' || c == 'u' || c == 'U' then a + 1 else a;
    One(e, if floats || isFloat then Float64 else Int, s[i..e])
  }

  // Strings

  /** The value of an escape of one character, for those that are valid. */
  function SimpleEscape(c: char): (r: seq<char>)
    ensures |r| <= 1
  {
    if c == 'n' then ['\n']
    else if c == 'r' then ['\r']
    else if c == 't' then ['\t']
    else if c == 'b' then [8 as char]
    else if c == 'f' then [12 as char]
    else if c == 'v' then [11 as char]
    else if c == 'a' then [7 as char]
    else if c == '\\' || c == '\'' || c == '\"' then [c]
    else if c == '0' then ['\0']
    else []
  }

  function HexValue(c: char): (n: nat)
    requires IsHexDigit(c)
    ensures n < 16
  {
    if IsDigit(c) then (c - '0') as int
    else if 'a' <= c <= 'f' then (c - 'a') as int + 10
    else (c - 'A') as int + 10
  }

  /** The body of a string from i on. An invalid escape stands for the character after the backslash; so does every
      `\u`, because its branch looks for the brace at the u. After the digits of `\x` the loop steps over one more
      character without looking at it. */
  function StringFrom(s: string, i: nat, quote: char, escaped: bool, value: string, errors: nat): (r: Piece)
    requires i <= |s|
    ensures i <= r.end <= |s|
    decreases |s| - i
  {
    if i == |s| || s[i] == '\n' then Piece(i, [Token(Error, "")], errors + 1, 0)
    else if escaped && s[i] == 'x' && IsHexDigit(At(s, i + 1)) then
      var (e, c) := HexEscape(s, i);
      StringFrom(s, if e < |s| then e + 1 else e, quote, false, value + [c], errors)
    else if escaped && SimpleEscape(s[i]) != [] then
      StringFrom(s, i + 1, quote, false, value + SimpleEscape(s[i]), errors)
    else if escaped then StringFrom(s, i + 1, quote, false, value + [s[i]], errors + 1)
    else if s[i] == '\\' then StringFrom(s, i + 1, quote, true, value, errors)
    else if s[i] == quote then Piece(i + 1, [Token(String, value)], errors, 0)
    else StringFrom(s, i + 1, quote, false, value + [s[i]], errors)
  }

  /** The end and the value of the one or two digits after the x at i. */
  function HexEscape(s: string, i: nat): (r: (nat, char))
    requires i + 1 < |s| && IsHexDigit(s[i + 1])
    ensures i + 2 <= r.0 <= |s|
  {
    if IsHexDigit(At(s, i + 2)) then (i + 3, (HexValue(s[i + 1]) * 16 + HexValue(s[i + 2])) as char)
    else (i + 2, HexValue(s[i + 1]) as char)
  }

  // Template literals

  const TEMPLATE_START := Other("TEMPLATE_START")
  const TEMPLATE_EXPR := Other("TEMPLATE_EXPR")
  const TEMPLATE_END := Other("TEMPLATE_END")

  /** Where the interpolated expression at i ends: at its closing brace, at a newline, or at the end. */
  function InterpolationEnd(s: string, i: nat, braces: nat): (e: nat)
    requires i <= |s| && braces > 0
    ensures i <= e <= |s| && (e < |s| ==> s[e] == '}' || s[e] == '\n')
    decreases |s| - i
  {
    if i == |s| || s[i] == '\n' || (s[i] == '}' && braces == 1) then i
    else InterpolationEnd(s, i + 1, if s[i] == '{' then braces + 1 else if s[i] == '}' then braces - 1 else braces)
  }

  function TemplateFrom(s: string, i: nat, value: string, tokens: seq<Token>): (r: Piece)
    requires i <= |s|
    ensures i <= r.end <= |s|
    decreases |s| - i
  {
    if i == |s| then Piece(i, tokens, 1, 0)
    else if s[i] == '`' then Piece(i + 1, tokens + [Token(TEMPLATE_END, value)], 0, 0)
    else if s[i] == '$' && At(s, i + 1) == '{' then
      var e := InterpolationEnd(s, i + 2, 1);
      var started := tokens + [Token(TEMPLATE_START, value)];
      if e == |s| || s[e] == '\n' then Piece(e, started, 1, 0)
      else TemplateFrom(s, e + 1, "", started + [Token(TEMPLATE_EXPR, s[i + 2..e])])
    else
      var (e, part) := TemplateChar(s, i);
      TemplateFrom(s, e, value + part, tokens)
  }

  /** One character of the text, or an escape: where it ends, and its value. */
  function TemplateChar(s: string, i: nat): (r: (nat, string))
    requires i < |s|
    ensures i < r.0 <= |s|
  {
    if s[i] == '\\' then (if i + 1 < |s| then i + 2 else i + 1, TemplateEscape(At(s, i + 1))) else (i + 1, [s[i]])
  }

  function TemplateEscape(c: char): string {
    if c == 'n' then ['\n']
    else if c == 'r' then ['\r']
    else if c == 't' then ['\t']
    else if c == '`' || c == '$' || c == '\\' then [c]
    else ['\\', c]
  }

  // Punctuation

  /** The longest operator that c begins when c1 and c2 follow: its length and its type; length 0 if there is none. */
  function OperatorAt(c: char, c1: char, c2: char): (r: (nat, Kind))
    ensures r.0 <= 3 && (r.0 >= 2 ==> c1 != '\0') && (r.0 == 3 ==> c2 != '\0')
    ensures r.1 != Indent && r.1 != Dedent && r.1 != Eof
  {
    if c == '(' then (1, LeftParen)
    else if c == ')' then (1, RightParen)
    else if c == '{' then (1, LeftBrace)
    else if c == '}' then (1, RightBrace)
    else if c == '[' then (1, LeftBracket)
    else if c == ']' then (1, RightBracket)
    else if c == ',' then (1, Comma)
    else if c == ';' then (1, SemiColon)
    else if c == '~' then (1, Other("~"))
    else if c == '.' then
      if c1 != '.' then (1, Dot) else if c2 == '.' then (3, Other("...")) else (2, Other(".."))
    else if c == ':' then if c1 == ':' then (2, Other("::")) else (1, Colon)
    else if c == '+' then
      if c1 == '=' then (2, Other("+=")) else if c1 == '+' then (2, Other("++")) else (1, Plus)
    else if c == '-' then
      if c1 == '<' then (2, ChannelReceive)
      else if c1 == '=' then (2, Other("-="))
      else if c1 == '-' then (2, Other("--"))
      else if c1 == '>' then (2, Arrow)
      else (1, Minus)
    else if c == '*' then
      if c1 == '=' then (2, Other("*="))
      else if c1 == '*' then if c2 == '=' then (3, Other("**=")) else (2, Power)
      else (1, Star)
    else if c == '/' then if c1 == '=' then (2, Other("/=")) else (1, Slash)
    else if c == '%' then if c1 == '=' then (2, Other("%=")) else (1, Percent)
    else if c == '=' then
      if c1 == '=' then if c2 == '=' then (3, Other("===")) else (2, EqualEqual) else (1, Equal)
    else if c == '!' then
      if c1 == '=' then if c2 == '=' then (3, Other("!==")) else (2, BangEqual) else (1, Bang)
    else if c == '<' then
      if c1 == '-' then (2, ChannelSend)
      else if c1 == '=' then (2, LessEqual)
      else if c1 == '<' then if c2 == '=' then (3, Other("<<=")) else (2, LeftShift)
      else (1, Less)
    else if c == '>' then
      if c1 == '=' then (2, GreaterEqual)
      else if c1 == '>' then if c2 == '=' then (3, Other(">>=")) else (2, RightShift)
      else (1, Greater)
    else if c == '&' then
      if c1 == '&' then (2, And) else if c1 == '=' then (2, Other("&=")) else (1, BitwiseAnd)
    else if c == '|' then
      if c1 == '|' then (2, Or) else if c1 == '=' then (2, Other("|=")) else (1, BitwiseOr)
    else if c == '^' then if c1 == '=' then (2, Other("^=")) else (1, BitwiseXor)
    else if c == '?' then
      if c1 == '.' then (2, Other("?.")) else if c1 == '?' then (2, Other("??")) else (1, Other("?"))
    else (0, Error)
  }

  // The spellings of the operators and their types, as a plain table

  function OneChar(c: char): Option<Kind> {
    match c
    case '(' => Some(LeftParen)
    case ')' => Some(RightParen)
    case '{' => Some(LeftBrace)
    case '}' => Some(RightBrace)
    case '[' => Some(LeftBracket)
    case ']' => Some(RightBracket)
    case ',' => Some(Comma)
    case ';' => Some(SemiColon)
    case '.' => Some(Dot)
    case ':' => Some(Colon)
    case '+' => Some(Plus)
    case '-' => Some(Minus)
    case '*' => Some(Star)
    case '/' => Some(Slash)
    case '%' => Some(Percent)
    case '=' => Some(Equal)
    case '!' => Some(Bang)
    case '<' => Some(Less)
    case '>' => Some(Greater)
    case '&' => Some(BitwiseAnd)
    case '|' => Some(BitwiseOr)
    case '^' => Some(BitwiseXor)
    case '~' => Some(Other("~"))
    case '?' => Some(Other("?"))
    case _ => None
  }

  function TwoChars(c: char, c1: char): Option<Kind> {
    if c1 == '=' then
      match c
      case '=' => Some(EqualEqual)
      case '!' => Some(BangEqual)
      case '<' => Some(LessEqual)
      case '>' => Some(GreaterEqual)
      case '+' => Some(Other("+="))
      case '-' => Some(Other("-="))
      case '*' => Some(Other("*="))
      case '/' => Some(Other("/="))
      case '%' => Some(Other("%="))
      case '&' => Some(Other("&="))
      case '|' => Some(Other("|="))
      case '^' => Some(Other("^="))
      case _ => None
    else if c1 == c then
      match c
      case '*' => Some(Power)
      case '<' => Some(LeftShift)
      case '>' => Some(RightShift)
      case '&' => Some(And)
      case '|' => Some(Or)
      case '.' => Some(Other(".."))
      case ':' => Some(Other("::"))
      case '+' => Some(Other("++"))
      case '-' => Some(Other("--"))
      case '?' => Some(Other("??"))
      case _ => None
    else if c == '-' && c1 == '>' then Some(Arrow)
    else if c == '-' && c1 == '<' then Some(ChannelReceive)
    else if c == '<' && c1 == '-' then Some(ChannelSend)
    else if c == '?' && c1 == '.' then Some(Other("?."))
    else None
  }

  function ThreeChars(c: char, c1: char, c2: char): Option<Kind> {
    match (c, c1, c2)
    case ('.', '.', '.') => Some(Other("..."))
    case ('*', '*', '=') => Some(Other("**="))
    case ('=', '=', '=') => Some(Other("==="))
    case ('!', '=', '=') => Some(Other("!=="))
    case ('<', '<', '=') => Some(Other("<<="))
    case ('>', '>', '=') => Some(Other(">>="))
    case _ => None
  }

  function OperatorKind(text: string): Option<Kind> {
    if |text| == 1 then OneChar(text[0])
    else if |text| == 2 then TwoChars(text[0], text[1])
    else if |text| == 3 then ThreeChars(text[0], text[1], text[2])
    else None
  }

  lemma {:induction false} ChosenOne(c: char, c1: char, c2: char)
    requires OperatorAt(c, c1, c2).0 == 1
    ensures OneChar(c) == Some(OperatorAt(c, c1, c2).1)
  {
  }

  lemma {:induction false} NoneOne(c: char, c1: char, c2: char)
    requires OperatorAt(c, c1, c2).0 < 1
    ensures OneChar(c) == None
  {
  }

  lemma {:induction false} ChosenTwo(c: char, c1: char, c2: char)
    requires OperatorAt(c, c1, c2).0 == 2
    ensures TwoChars(c, c1) == Some(OperatorAt(c, c1, c2).1)
  {
  }

  lemma {:induction false} NoneTwo(c: char, c1: char, c2: char)
    requires OperatorAt(c, c1, c2).0 < 2
    ensures TwoChars(c, c1) == None
  {
    if c1 == '=' {
    } else if c1 == c {
    } else {
    }
  }

  lemma {:induction false} ChosenThree(c: char, c1: char, c2: char)
    requires OperatorAt(c, c1, c2).0 == 3
    ensures ThreeChars(c, c1, c2) == Some(OperatorAt(c, c1, c2).1)
  {
  }

  lemma {:induction false} NoneThree(c: char, c1: char, c2: char)
    requires OperatorAt(c, c1, c2).0 < 3
    ensures ThreeChars(c, c1, c2) == None
  {
  }

  /** OperatorAt chooses an operator of the table. */
  lemma {:induction false} ChosenInTable(c: char, c1: char, c2: char)
    ensures var (length, kind) := OperatorAt(c, c1, c2);
            && (length == 1 ==> OneChar(c) == Some(kind))
            && (length == 2 ==> TwoChars(c, c1) == Some(kind))
            && (length == 3 ==> ThreeChars(c, c1, c2) == Some(kind))
  {
    hide OperatorAt, OneChar, TwoChars, ThreeChars;
    var length := OperatorAt(c, c1, c2).0;
    if length == 1 {
      ChosenOne(c, c1, c2);
    } else if length == 2 {
      ChosenTwo(c, c1, c2);
    } else if length == 3 {
      ChosenThree(c, c1, c2);
    }
  }

  lemma {:induction false} NoneLonger(c: char, c1: char, c2: char)
    ensures var length := OperatorAt(c, c1, c2).0;
            && (length < 1 ==> OneChar(c) == None)
            && (length < 2 ==> TwoChars(c, c1) == None)
            && (length < 3 ==> ThreeChars(c, c1, c2) == None)
  {
    hide OperatorAt, OneChar, TwoChars, ThreeChars;
    var length := OperatorAt(c, c1, c2).0;
    if length < 3 {
      NoneThree(c, c1, c2);
    }
    if length < 2 {
      NoneTwo(c, c1, c2);
    }
    if length < 1 {
      NoneOne(c, c1, c2);
    }
  }

  /** Maximal munch: what OperatorAt chooses is in the table, and no longer operator is a prefix of what follows; it
      chooses nothing only where no operator begins. */
  lemma {:induction false} LongestMatch(c: char, c1: char, c2: char, n: nat)
    requires 0 < n <= 3
    ensures var (length, kind) := OperatorAt(c, c1, c2);
            && (length > 0 ==> OperatorKind([c, c1, c2][..length]) == Some(kind))
            && (n > length ==> OperatorKind([c, c1, c2][..n]) == None)
  {
    hide OperatorAt, OneChar, TwoChars, ThreeChars;
    ChosenInTable(c, c1, c2);
    NoneLonger(c, c1, c2);
  }

  function BraceChange(k: Kind): int {
    if k == LeftBrace then 1 else if k == RightBrace then -1 else 0
  }

  /** A comment that the layout did not skip; its newline stays, and emits nothing. */
  function InnerCommentEnd(s: string, i: nat): (e: nat)
    requires i <= |s|
    ensures i <= e <= |s|
  {
    if At(s, i) != '/' then i
    else if At(s, i + 1) == '/' then RunEnd(s, i + 2, LineRest)
    else if At(s, i + 1) == '*' then CommentEnd(s, i)
    else i
  }

  /** Anything but a word or a number. As the last byte of the source it is dropped. */
  function PunctuationAt(s: string, i: nat): (r: Piece)
    requires i < |s|
    ensures i < r.end <= |s|
  {
    if s[i] == '\0' || i + 1 == |s| then Piece(i + 1, [], 0, 0)
    else if InnerCommentEnd(s, i) > i then Piece(InnerCommentEnd(s, i), [], 0, 0)
    else MarkAt(s, i)
  }

  function MarkAt(s: string, i: nat): (r: Piece)
    requires i + 1 < |s|
    ensures i < r.end <= |s|
  {
    if s[i] == '\"' || s[i] == '\'' then StringFrom(s, i + 1, s[i], false, "", 0)
    else if s[i] == '`' then TemplateFrom(s, i + 2, "", [])
    else OperatorPiece(s, i)
  }

  function OperatorPiece(s: string, i: nat): (r: Piece)
    requires i < |s|
    ensures i < r.end <= |s|
  {
    var (length, kind) := OperatorAt(s[i], At(s, i + 1), At(s, i + 2));
    if length == 0 then Faulty(i + 1, s[i..i + 1])
    else Piece(i + length, [Token(kind, s[i..i + length])], 0, BraceChange(kind))
  }

  function LexemeAt(s: string, i: nat): (r: Piece)
    requires i < |s|
    ensures i < r.end <= |s|
  {
    if StartsWord(s[i]) then WordAt(s, i) else if IsDigit(s[i]) then NumberAt(s, i) else PunctuationAt(s, i)
  }

  // The whole text

  const MAX_ERRORS: nat := 100
  const INDENT := Token(Indent, "")
  const DEDENT := Token(Dedent, "")
  const END := Token(Eof, "")

  datatype LexState = LexState(
    pos: nat, atLineStart: bool, indentLevel: nat, braceDepth: int, errors: nat, out: seq<Token>) {

    /** Emits the indents or dedents that lead to another level. */
    function WithLevel(level: nat): LexState {
      var change :=
        if level > indentLevel then Copies(level - indentLevel, INDENT) else Copies(indentLevel - level, DEDENT);
      this.(indentLevel := level, out := out + change)
    }
  }

  function Start(): LexState {
    LexState(0, true, 0, 0, 0, [])
  }

  function Copies(n: nat, t: Token): (ts: seq<Token>)
    ensures |ts| == n
  {
    if n == 0 then [] else Copies(n - 1, t) + [t]
  }

  /** The width of a run of spaces and tabs. */
  function Width(run: string, indentSize: nat): nat {
    if run == [] then 0
    else Width(run[..|run| - 1], indentSize) + if run[|run| - 1] == ' ' then 1 else indentSize
  }

  /** One line's indentation: the tokens for the change of level, unless the line mixes spaces and tabs, is empty or
      begins with a comment, which is skipped. */
  function Indented(s: string, indentSize: nat, st: LexState): (r: LexState)
    requires st.pos <= |s| && indentSize > 0
    ensures st.pos <= r.pos <= |s|
  {
    var e := RunEnd(s, st.pos, Indentation);
    var run := s[st.pos..e];
    if ' ' in run && '\t' in run then st.(pos := e, errors := st.errors + 1)
    else if e == |s| || s[e] == '\n' then st.(pos := e)
    else if CommentEnd(s, e) > e then st.(pos := CommentEnd(s, e))
    else st.(pos := e).WithLevel(Width(run, indentSize) / indentSize)
  }

  /** The start of a line: its indentation, and that of the next line as long as the lines are blank. */
  function LineStart(s: string, indentSize: nat, st: LexState): (r: LexState)
    requires st.pos <= |s| && indentSize > 0
    ensures st.pos <= r.pos <= |s|
    decreases |s| - st.pos
  {
    var st1 := Indented(s, indentSize, st);
    var e := RunEnd(s, st1.pos, Blanks);
    if e < |s| && s[e] == '\n' then LineStart(s, indentSize, st1.(pos := e + 1, atLineStart := true))
    else st1.(pos := e, atLineStart := false)
  }

  function Skipped(s: string, st: LexState): (r: LexState)
    requires st.pos <= |s|
    ensures st.pos <= r.pos <= |s|
  {
    var e := SkipEnd(s, st.pos);
    st.(pos := e, atLineStart := st.atLineStart || Crosses(s, st.pos, e))
  }

  function Put(st: LexState, x: Piece): LexState {
    st.(pos := x.end, out := st.out + x.tokens, errors := st.errors + x.errors, braceDepth := st.braceDepth + x.depth)
  }

  /** The layout before a token, and the token. */
  function ScanToken(s: string, indentSize: nat, st: LexState): (r: LexState)
    requires st.pos < |s| && indentSize > 0
    ensures st.pos < r.pos <= |s|
  {
    var st1 := if st.atLineStart && st.braceDepth == 0 then LineStart(s, indentSize, st) else Skipped(s, st);
    if st1.pos == |s| then st1 else Put(st1, LexemeAt(s, st1.pos))
  }

  function Scan(s: string, indentSize: nat, st: LexState): (r: LexState)
    requires st.pos <= |s| && indentSize > 0
    ensures r.pos <= |s| && (r.pos == |s| || r.errors >= MAX_ERRORS)
    decreases |s| - st.pos
  {
    if st.pos < |s| && st.errors < MAX_ERRORS then Scan(s, indentSize, ScanToken(s, indentSize, st)) else st
  }

  function Tokenize(s: string, indentSize: nat): seq<Token>
    requires indentSize > 0
  {
    var st := Scan(s, indentSize, Start());
    st.out + Copies(st.indentLevel, DEDENT) + [END]
  }
}
