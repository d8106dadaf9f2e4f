/** Writing tokens as text, with white space after each, and lexing the text again. */
module LexRoundTrip {
  import opened Characters
  import opened Tokens
  import opened Lexemes
  import opened Wrappers

  // Strings

  function EscapedChar(c: char): string {
    if c == '\n' then ['\\', 'n']
    else if c == '\t' then ['\\', 't']
    else if c == '\r' then ['\\', 'r']
    else if c == '\\' then ['\\', '\\']
    else if c == '\"' then ['\\', '\"']
    else [c]
  }

  /** The value of a token, as Token::toString writes it. */
  function Escaped(v: string): string {
    if v == [] then [] else EscapedChar(v[0]) + Escaped(v[1..])
  }

  lemma {:induction false} EscapedAppend(v: string, c: char)
    ensures Escaped(v + [c]) == Escaped(v) + EscapedChar(c)
    decreases |v|
  {
    hide EscapedChar;
    if v == [] {
      assert v + [c] == [c];
      assert [c][1..] == [];
    } else {
      EscapedAppend(v[1..], c);
      assert (v + [c])[1..] == v[1..] + [c];
    }
  }

  /** The escaping loop. */
  method EscapeValue(value: string) returns (escapedValue: string)
    ensures escapedValue == Escaped(value)
  {
    escapedValue := "";
    assert escapedValue == Escaped(value[..0]);
    hide Escaped;
    for i := 0 to |value|
      invariant escapedValue == Escaped(value[..i])
    {
      EscapedAppend(value[..i], value[i]);
      assert value[..i + 1] == value[..i] + [value[i]];
      match value[i]
      case '\n' => escapedValue := escapedValue + "\\n";
      case '\t' => escapedValue := escapedValue + "\\t";
      case '\r' => escapedValue := escapedValue + "\\r";
      case '\\' => escapedValue := escapedValue + "\\\\";
      case '\"' => escapedValue := escapedValue + "\\\"";
      case c => escapedValue := escapedValue + [c];
    }
    assert value[..|value|] == value;
  }

  predicate TextAt(s: string, i: nat, text: string) {
    i + |text| <= |s| && s[i..i + |text|] == text
  }

  lemma {:induction false} TextInTwo(s: string, i: nat, a: string, b: string)
    requires TextAt(s, i, a + b)
    ensures TextAt(s, i, a) && TextAt(s, i + |a|, b)
  {
    assert s[i..i + |a|] == (a + b)[..|a|];
    assert s[i + |a|..i + |a| + |b|] == (a + b)[|a|..];
  }

  lemma {:induction false} TextOne(s: string, i: nat, text: string, k: nat)
    requires TextAt(s, i, text) && k < |text|
    ensures s[i + k] == text[k]
  {
    assert s[i..i + |text|][k] == s[i + k];
  }

  lemma {:induction false} CharIsRead(s: string, i: nat, c: char, value: string, errors: nat)
    requires TextAt(s, i, EscapedChar(c))
    ensures StringFrom(s, i, '\"', false, value, errors)
         == StringFrom(s, i + |EscapedChar(c)|, '\"', false, value + [c], errors)
  {
    TextOne(s, i, EscapedChar(c), 0);
    if |EscapedChar(c)| == 2 {
      TextOne(s, i, EscapedChar(c), 1);
      assert StringFrom(s, i, '\"', false, value, errors) == StringFrom(s, i + 1, '\"', true, value, errors);
    }
  }

  /** Scanning undoes escaping: any byte string, escaped and closed by a double quote, is read back as it was. */
  lemma {:induction false} EscapeRoundTrip(s: string, i: nat, v: string, value: string, errors: nat)
    requires TextAt(s, i, Escaped(v) + ['\"'])
    ensures StringFrom(s, i, '\"', false, value, errors)
         == Piece(i + |Escaped(v)| + 1, [Token(String, value + v)], errors, 0)
    decreases |v|
  {
    hide EscapedChar, StringFrom;
    if v == [] {
      TextOne(s, i, ['\"'], 0);
      ClosingQuote(s, i, value, errors);
      assert value + v == value;
    } else {
      var rest := Escaped(v[1..]) + ['\"'];
      assert Escaped(v) + ['\"'] == EscapedChar(v[0]) + rest;
      TextInTwo(s, i, EscapedChar(v[0]), rest);
      CharIsRead(s, i, v[0], value, errors);
      EscapeRoundTrip(s, i + |EscapedChar(v[0])|, v[1..], value + [v[0]], errors);
      assert value + [v[0]] + v[1..] == value + v;
    }
  }

  lemma {:induction false} ClosingQuote(s: string, i: nat, value: string, errors: nat)
    requires i < |s| && s[i] == '\"'
    ensures StringFrom(s, i, '\"', false, value, errors) == Piece(i + 1, [Token(String, value)], errors, 0)
  {
  }

  // Two escapes that do not do what they are for

  /** `\u` is always an error, with or without the code point in braces behind it, and stands for the letter u. */
  lemma {:induction false} UnicodeIsInvalid(s: string, i: nat, quote: char, value: string, errors: nat)
    requires i + 1 < |s| && s[i] == '\\' && s[i + 1] == 'u' && quote != '\\'
    ensures StringFrom(s, i, quote, false, value, errors)
         == StringFrom(s, i + 2, quote, false, value + ['u'], errors + 1)
    ensures StringFrom(s, i, quote, false, value, errors).errors > errors
  {
    hide HexEscape;
    assert StringFrom(s, i, quote, false, value, errors) == StringFrom(s, i + 1, quote, true, value, errors);
    ErrorsAreKept(s, i + 2, quote, false, value + ['u'], errors + 1);
  }

  lemma {:induction false} ErrorsAreKept(
    s: string, i: nat, quote: char, escaped: bool, value: string, errors: nat)
    requires i <= |s|
    ensures StringFrom(s, i, quote, escaped, value, errors).errors >= errors
    decreases |s| - i
  {
    hide SimpleEscape, HexEscape;
    if i == |s| || s[i] == '\n' {
    } else if escaped && s[i] == 'x' && IsHexDigit(At(s, i + 1)) {
      var (e, c) := HexEscape(s, i);
      ErrorsAreKept(s, if e < |s| then e + 1 else e, quote, false, value + [c], errors);
    } else if escaped && SimpleEscape(s[i]) != [] {
      ErrorsAreKept(s, i + 1, quote, false, value + SimpleEscape(s[i]), errors);
    } else if escaped {
      ErrorsAreKept(s, i + 1, quote, false, value + [s[i]], errors + 1);
    } else if s[i] == '\\' {
      ErrorsAreKept(s, i + 1, quote, true, value, errors);
    } else if s[i] != quote {
      ErrorsAreKept(s, i + 1, quote, false, value + [s[i]], errors);
    }
  }

  /** The end and the value of the hexadecimal escape that begins with the backslash at i. */
  function HexAt(s: string, i: nat): (r: (nat, char))
    requires i + 2 < |s| && IsHexDigit(s[i + 2])
    ensures i + 3 <= r.0 <= |s|
  {
    HexEscape(s, i + 1)
  }

  /** `\x` swallows the character behind its digits: whatever stands there, a quote or a line break included, the string
      is read in the same way. */
  lemma {:induction false} HexSwallows(s: string, i: nat, quote: char, value: string, errors: nat, c: char)
    requires i + 2 < |s| && s[i] == '\\' && s[i + 1] == 'x' && IsHexDigit(s[i + 2]) && quote != '\\'
    requires HexAt(s, i).0 < |s| && (HexAt(s, i).0 == i + 3 ==> !IsHexDigit(c))
    ensures var e := HexAt(s, i).0;
            StringFrom(s[e := c], i, quote, false, value, errors) == StringFrom(s, i, quote, false, value, errors)
  {
    hide HexValue;
    var (e, x) := HexAt(s, i);
    var s' := s[e := c];
    HexIsRead(s, i, quote, value, errors);
    HexIsRead(s', i, quote, value, errors);
    SuffixIsRead(s, s', e + 1, quote, false, value + [x], errors);
  }

  lemma {:induction false} HexIsRead(s: string, i: nat, quote: char, value: string, errors: nat)
    requires i + 2 < |s| && s[i] == '\\' && s[i + 1] == 'x' && IsHexDigit(s[i + 2]) && quote != '\\'
    requires HexAt(s, i).0 < |s|
    ensures var (e, x) := HexAt(s, i);
            StringFrom(s, i, quote, false, value, errors) == StringFrom(s, e + 1, quote, false, value + [x], errors)
  {
    hide HexEscape;
    assert StringFrom(s, i, quote, false, value, errors) == StringFrom(s, i + 1, quote, true, value, errors);
  }

  /** Reading depends on nothing before the cursor. */
  lemma {:induction false} SuffixIsRead(
    s: string, s': string, i: nat, quote: char, escaped: bool, value: string, errors: nat)
    requires |s'| == |s| && i <= |s| && forall j | i <= j < |s| :: s'[j] == s[j]
    ensures StringFrom(s', i, quote, escaped, value, errors) == StringFrom(s, i, quote, escaped, value, errors)
    decreases |s| - i
  {
    hide SimpleEscape, HexValue;
    if i == |s| || s[i] == '\n' {
    } else if escaped && s[i] == 'x' && IsHexDigit(At(s, i + 1)) {
      var (e, c) := HexEscape(s, i);
      assert HexEscape(s', i) == (e, c);
      SuffixIsRead(s, s', if e < |s| then e + 1 else e, quote, false, value + [c], errors);
    } else if escaped && SimpleEscape(s[i]) != [] {
      SuffixIsRead(s, s', i + 1, quote, false, value + SimpleEscape(s[i]), errors);
    } else if escaped {
      SuffixIsRead(s, s', i + 1, quote, false, value + [s[i]], errors + 1);
    } else if s[i] == '\\' {
      SuffixIsRead(s, s', i + 1, quote, true, value, errors);
    } else if s[i] != quote {
      SuffixIsRead(s, s', i + 1, quote, false, value + [s[i]], errors);
    }
  }

  // Printable tokens

  predicate AllIn(text: string, k: CharClass) {
    forall i :: 0 <= i < |text| ==> InClass(text[i], k)
  }

  predicate IsWord(text: string) {
    text != [] && StartsWord(text[0]) && AllIn(text, Word)
  }

  /** Decimal digits without a superfluous zero in front, which would make the number octal. */
  predicate IsWhole(text: string) {
    text != [] && AllIn(text, Digits) && (text[0] == '0' ==> |text| == 1)
  }

  predicate IsFraction(text: string) {
    exists dot :: 0 < dot < |text| - 1 && text[dot] == '.' && IsWhole(text[..dot]) && AllIn(text[dot + 1..], Digits)
  }

  predicate IsSymbol(text: string, k: Kind) {
    && 0 < |text| <= 3
    && !StartsWord(text[0]) && !IsDigit(text[0])
    && OperatorAt(text[0], At(text + [' '], 1), At(text + [' ', ' '], 2)) == (|text|, k)
  }

  /** These are the operators of the table. */
  lemma {:induction false} SymbolsAreTheTable(text: string, k: Kind)
    ensures IsSymbol(text, k) <==> OperatorKind(text) == Some(k)
  {
    if IsSymbol(text, k) {
      ChosenInTable(text[0], At(text + [' '], 1), At(text + [' ', ' '], 2));
      hide OperatorAt, OneChar, TwoChars, ThreeChars;
    } else if OperatorKind(text) == Some(k) {
      TableIsChosen(text, k);
    }
  }

  lemma {:induction false} TableIsChosen(text: string, k: Kind)
    requires OperatorKind(text) == Some(k)
    ensures IsSymbol(text, k)
  {
    hide OperatorAt, OneChar, TwoChars, ThreeChars, StartsWord;
    var c, c1, c2 := text[0], At(text + [' '], 1), At(text + [' ', ' '], 2);
    ChosenInTable(c, c1, c2);
    NoneLonger(c, c1, c2);
    BlankEndsOperator(c, c1);
    TableStarts(text);
  }

  lemma {:induction false} BlankEndsOperator(c: char, c1: char)
    ensures OperatorAt(c, ' ', ' ').0 < 2 && OperatorAt(c, c1, ' ').0 < 3
  {
  }

  lemma {:induction false} TableStarts(text: string)
    requires OperatorKind(text).Some?
    ensures !StartsWord(text[0]) && !IsDigit(text[0])
  {
  }

  /** Words of the right type, decimal numbers, strings of any bytes, and operators. */
  ghost predicate Printable(t: Token) {
    || t.kind == String
    || (IsWord(t.text) && t.kind == WordKind(t.text))
    || (t.kind == Int && IsWhole(t.text))
    || (t.kind == Float64 && IsFraction(t.text))
    || IsSymbol(t.text, t.kind)
  }

  function Spelling(t: Token): string {
    if t.kind == String then ['\"'] + Escaped(t.text) + ['\"'] else t.text
  }

  predicate IsSpace(c: char) {
    IsBlank(c) || c == '\n'
  }

  /** The text stands at i, and white space follows it. */
  predicate Placed(s: string, i: nat, text: string) {
    TextAt(s, i, text) && i + |text| < |s| && IsSpace(s[i + |text|])
  }

  // One lexeme

  lemma {:induction false} RunIs(s: string, i: nat, e: nat, k: CharClass)
    requires i <= e < |s| && (forall j :: i <= j < e ==> InClass(s[j], k)) && !InClass(s[e], k)
    ensures RunEnd(s, i, k) == e
    decreases e - i
  {
    if i < e {
      RunIs(s, i + 1, e, k);
    }
  }

  /** A text of class k that a blank follows is a run. */
  lemma {:induction false} TextIsRun(s: string, i: nat, text: string, from: nat, to: nat, k: CharClass)
    requires TextAt(s, i, text) && from <= to <= |text| && i + to < |s| && AllIn(text[from..to], k)
    requires !InClass(s[i + to], k)
    ensures RunEnd(s, i + from, k) == i + to
  {
    hide InClass, RunEnd;
    forall j | i + from <= j < i + to
      ensures InClass(s[j], k)
    {
      TextOne(s, i, text, j - i);
      assert text[from..to][j - i - from] == text[j - i];
    }
    RunIs(s, i + from, i + to, k);
  }

  lemma {:induction false} SpaceEndsWord(c: char)
    requires IsSpace(c)
    ensures !InClass(c, Word)
  {
  }

  lemma {:induction false} WordIsRead(s: string, i: nat, t: Token)
    requires Placed(s, i, t.text)
    requires IsWord(t.text) && t.kind == WordKind(t.text)
    ensures LexemeAt(s, i) == One(i + |t.text|, t.kind, t.text)
  {
    hide RunEnd, WordKind, NumberAt, PunctuationAt, InClass, IsSpace;
    TextOne(s, i, t.text, 0);
    SpaceEndsWord(s[i + |t.text|]);
    TextIsRun(s, i, t.text, 1, |t.text|, Word);
  }

  /** The whole part of a decimal number. */
  lemma {:induction false} WholePart(s: string, i: nat, text: string, n: nat)
    requires TextAt(s, i, text) && 0 < n <= |text| && i + n < |s| && IsWhole(text[..n]) && !IsDigit(s[i + n])
    requires IsSpace(s[i + n]) || s[i + n] == '.'
    ensures IsDigit(s[i]) && NumberAt(s, i) == DecimalFrom(s, i, i + n)
  {
    hide RunEnd, DecimalFrom, Suffixed;
    TextOne(s, i, text, 0);
    assert text[..n][0] == text[0] && InClass(text[0], Digits);
    if n > 1 {
      TextOne(s, i, text, 1);
      assert text[..n][1] == text[1];
    }
    assert text[1..n] == text[..n][1..];
    TextIsRun(s, i, text, 1, n, Digits);
  }

  lemma {:induction false} WholeIsRead(s: string, i: nat, text: string)
    requires Placed(s, i, text) && IsWhole(text)
    ensures LexemeAt(s, i) == One(i + |text|, Int, text)
  {
    hide NumberAt, WordAt, PunctuationAt;
    assert text[..|text|] == text;
    WholePart(s, i, text, |text|);
  }

  lemma {:induction false} FractionIsRead(s: string, i: nat, text: string, dot: nat)
    requires Placed(s, i, text)
    requires 0 < dot < |text| - 1 && text[dot] == '.' && IsWhole(text[..dot]) && AllIn(text[dot + 1..], Digits)
    ensures LexemeAt(s, i) == One(i + |text|, Float64, text)
  {
    hide RunEnd, NumberAt, WordAt, PunctuationAt, IsWhole;
    TextOne(s, i, text, dot);
    TextOne(s, i, text, dot + 1);
    assert InClass(text[dot + 1..][0], Digits);
    WholePart(s, i, text, dot);
    TextIsRun(s, i, text, dot + 1, |text|, Digits);
  }

  lemma {:induction false} StringIsRead(s: string, i: nat, v: string)
    requires TextAt(s, i, ['\"'] + Escaped(v) + ['\"']) && i + |Escaped(v)| + 2 < |s|
    ensures LexemeAt(s, i) == One(i + |Escaped(v)| + 2, String, v)
  {
    hide StringFrom, WordAt, NumberAt, Escaped, TemplateFrom, OperatorPiece;
    assert ['\"'] + Escaped(v) + ['\"'] == ['\"'] + (Escaped(v) + ['\"']);
    TextInTwo(s, i, ['\"'], Escaped(v) + ['\"']);
    TextOne(s, i, ['\"'], 0);
    EscapeRoundTrip(s, i + 1, v, "", 0);
    assert "" + v == v;
  }

  /** Deciding on an operator does not look past white space, and all white space is alike. */
  lemma {:induction false} OperatorSpace(c: char, c1: char, c2: char, space: char)
    requires IsSpace(space)
    ensures OperatorAt(c, space, c2) == OperatorAt(c, ' ', ' ')
    ensures OperatorAt(c, c1, space) == OperatorAt(c, c1, ' ')
  {
  }

  /** What begins an operator begins nothing else. */
  lemma {:induction false} OperatorFirst(c: char, c1: char, c2: char)
    requires OperatorAt(c, c1, c2).0 > 0
    ensures c != '\0' && c != '\"' && c != '\'' && c != '`'
    ensures c == '/' ==> if c1 == '=' then OperatorAt(c, c1, c2).0 == 2 else OperatorAt(c, c1, c2).0 == 1
  {
  }

  lemma {:induction false} OperatorIsRead(s: string, i: nat, t: Token)
    requires Placed(s, i, t.text) && IsSymbol(t.text, t.kind)
    ensures OperatorAt(s[i], At(s, i + 1), At(s, i + 2)) == (|t.text|, t.kind)
    ensures s[i] == t.text[0] && (|t.text| > 1 ==> At(s, i + 1) == t.text[1])
    ensures |t.text| == 1 ==> IsSpace(At(s, i + 1))
  {
    hide OperatorAt;
    var n := |t.text|;
    TextOne(s, i, t.text, 0);
    OperatorSpace(s[i], At(s, i + 1), At(s, i + 2), s[i + n]);
    if n > 1 {
      TextOne(s, i, t.text, 1);
    }
    if n > 2 {
      TextOne(s, i, t.text, 2);
    }
  }

  lemma {:induction false} SymbolIsRead(s: string, i: nat, t: Token)
    requires Placed(s, i, t.text) && IsSymbol(t.text, t.kind)
    ensures LexemeAt(s, i) == Piece(i + |t.text|, [t], 0, BraceChange(t.kind))
  {
    hide OperatorAt, WordAt, NumberAt, MarkAt, OperatorPiece, InnerCommentEnd, BraceChange;
    OperatorIsRead(s, i, t);
    NoInnerComment(s, i, t);
    OperatorFirst(s[i], At(s, i + 1), At(s, i + 2));
    OperatorIsMark(s, i);
    PieceOfOperator(s, i, t);
  }

  lemma {:induction false} NoInnerComment(s: string, i: nat, t: Token)
    requires Placed(s, i, t.text) && IsSymbol(t.text, t.kind)
    ensures InnerCommentEnd(s, i) == i
  {
    hide OperatorAt, RunEnd, CommentEnd;
    OperatorIsRead(s, i, t);
    OperatorFirst(s[i], At(s, i + 1), At(s, i + 2));
  }

  lemma {:induction false} OperatorIsMark(s: string, i: nat)
    requires i + 1 < |s| && OperatorAt(s[i], At(s, i + 1), At(s, i + 2)).0 > 0
    ensures MarkAt(s, i) == OperatorPiece(s, i)
  {
    hide OperatorAt, StringFrom, TemplateFrom, OperatorPiece;
    OperatorFirst(s[i], At(s, i + 1), At(s, i + 2));
  }

  lemma {:induction false} PieceOfOperator(s: string, i: nat, t: Token)
    requires TextAt(s, i, t.text) && i < |s|
    requires t.text != [] && OperatorAt(s[i], At(s, i + 1), At(s, i + 2)) == (|t.text|, t.kind)
    ensures OperatorPiece(s, i) == Piece(i + |t.text|, [t], 0, BraceChange(t.kind))
  {
    hide OperatorAt, BraceChange;
  }

  /** The last byte of a source is dropped exactly when a lexeme that is neither a word nor a number starts there. */
  lemma {:induction false} LastByte(s: string, i: nat)
    requires i + 1 == |s| && !StartsWord(s[i]) && !IsDigit(s[i])
    ensures LexemeAt(s, i) == Piece(|s|, [], 0, 0)
  {
  }

  /** So an operator at the end of the source is read if and only if it has more than one character. */
  lemma {:induction false} OperatorAtEnd(s: string, i: nat, t: Token)
    requires TextAt(s, i, t.text) && i + |t.text| == |s| && IsSymbol(t.text, t.kind)
    ensures LexemeAt(s, i) == Piece(|s|, [t], 0, BraceChange(t.kind)) <==> |t.text| > 1
  {
    hide OperatorAt, WordAt, NumberAt, StringFrom, TemplateFrom, RunEnd, CommentEnd, BraceChange;
    TextOne(s, i, t.text, 0);
    if |t.text| == 1 {
      LastByte(s, i);
    } else {
      TextOne(s, i, t.text, 1);
      if |t.text| > 2 {
        TextOne(s, i, t.text, 2);
      }
      OperatorEnd(s[i], At(s, i + 1));
      OperatorFirst(s[i], At(s, i + 1), At(s, i + 2));
      assert InnerCommentEnd(s, i) == i;
      OperatorIsMark(s, i);
      PieceOfOperator(s, i, t);
    }
  }

  /** For a decision on an operator the end of the source is like a blank. */
  lemma {:induction false} OperatorEnd(c: char, c1: char)
    ensures OperatorAt(c, c1, '\0') == OperatorAt(c, c1, ' ')
  {
  }

  lemma {:induction false} LexemeIsRead(s: string, i: nat, t: Token)
    requires Printable(t) && Placed(s, i, Spelling(t))
    ensures Spelling(t) != [] && LexemeAt(s, i) == Piece(i + |Spelling(t)|, [t], 0, BraceChange(t.kind))
  {
    hide LexemeAt, WordKind, OperatorAt, IsWord, IsWhole, IsFraction, IsSymbol, TextAt, Escaped, IsSpace;
    if t.kind == String {
      StringIsRead(s, i, t.text);
    } else if IsWord(t.text) && t.kind == WordKind(t.text) {
      WordsDoNotNest(t.text);
      WordIsRead(s, i, t);
      NotEmpty(t);
    } else if t.kind == Int && IsWhole(t.text) {
      WholeIsRead(s, i, t.text);
      NotEmpty(t);
    } else if t.kind == Float64 && IsFraction(t.text) {
      NotEmpty(t);
      FractionRead(s, i, t.text);
    } else {
      SymbolIsRead(s, i, t);
      NotEmpty(t);
    }
  }

  lemma {:induction false} FractionRead(s: string, i: nat, text: string)
    requires Placed(s, i, text) && IsFraction(text)
    ensures LexemeAt(s, i) == One(i + |text|, Float64, text)
  {
    hide LexemeAt, IsWhole;
    var dot :| 0 < dot < |text| - 1 && text[dot] == '.' && IsWhole(text[..dot]) && AllIn(text[dot + 1..], Digits);
    FractionIsRead(s, i, text, dot);
  }

  lemma {:induction false} NotEmpty(t: Token)
    requires Printable(t)
    ensures Spelling(t) != []
  {
    hide WordKind, OperatorAt;
  }

  lemma {:induction false} WordsDoNotNest(word: string)
    ensures WordKind(word) != LeftBrace && WordKind(word) != RightBrace
  {
  }

  // Between the lexemes

  /** A printable token begins neither white space nor a comment. */
  lemma {:induction false} NothingToSkip(s: string, i: nat, t: Token)
    requires Printable(t) && Placed(s, i, Spelling(t))
    ensures i < |s| && !IsSpace(s[i]) && CommentEnd(s, i) == i
  {
    hide WordKind, OperatorAt, CommentEnd, Escaped, IsFraction;
    NotEmpty(t);
    TextOne(s, i, Spelling(t), 0);
    if t.kind != String && IsSymbol(t.text, t.kind) {
      SymbolToKeep(s, i, t);
    } else {
      FirstChar(t);
      assert CommentAt(s, i).NoComment?;
    }
  }

  lemma {:induction false} FirstChar(t: Token)
    requires Printable(t) && (t.kind == String || !IsSymbol(t.text, t.kind))
    ensures Spelling(t) != [] && var c := Spelling(t)[0]; c == '\"' || StartsWord(c) || IsDigit(c)
  {
    hide WordKind, OperatorAt, IsSymbol;
    if t.kind != String && t.kind == Float64 && IsFraction(t.text) && !IsWord(t.text) {
      var dot :| 0 < dot < |t.text| - 1 && t.text[dot] == '.' && IsWhole(t.text[..dot]);
      assert InClass(t.text[..dot][0], Digits);
    } else if t.kind == Int && IsWhole(t.text) {
      assert InClass(t.text[0], Digits);
    }
  }

  lemma {:induction false} SymbolToKeep(s: string, i: nat, t: Token)
    requires Placed(s, i, t.text) && IsSymbol(t.text, t.kind)
    ensures CommentAt(s, i).NoComment? && !IsSpace(s[i])
  {
    hide OperatorAt;
    TextOne(s, i, t.text, 0);
    SymbolChars(t.text[0], At(t.text + [' '], 1), At(t.text + [' ', ' '], 2));
    if |t.text| > 1 {
      TextOne(s, i, t.text, 1);
    }
  }

  lemma {:induction false} SymbolChars(c: char, c1: char, c2: char)
    requires OperatorAt(c, c1, c2).0 > 0
    ensures c != '#' && !IsSpace(c)
    ensures c == '/' && OperatorAt(c, c1, c2).0 > 1 ==> c1 == '='
  {
  }

  /** White space from i to e, and something else or nothing at e. */
  ghost predicate Gap(s: string, i: nat, e: nat) {
    && i <= e <= |s|
    && (forall j :: i <= j < e ==> IsSpace(s[j]))
    && (e < |s| ==> !IsSpace(s[e]) && CommentEnd(s, e) == e)
  }

  lemma {:induction false} GapIsSkipped(s: string, i: nat, e: nat)
    requires Gap(s, i, e)
    ensures SkipEnd(s, i) == e
    decreases e - i
  {
    hide CommentEnd;
    if i < e {
      GapIsSkipped(s, i + 1, e);
    } else if i == |s| {
      NothingAtEnd(s);
    }
  }

  lemma {:induction false} NothingAtEnd(s: string)
    ensures CommentEnd(s, |s|) == |s|
  {
  }

  // Whole texts

  /** A space after each token: `gaps` says which. */
  function RenderWith(ts: seq<Token>, gaps: seq<string>): string
    requires |ts| == |gaps|
  {
    if ts == [] then [] else Spelling(ts[0]) + gaps[0] + RenderWith(ts[1..], gaps[1..])
  }

  ghost predicate AreGaps(gaps: seq<string>) {
    forall g | g in gaps :: g != [] && forall c | c in g :: IsSpace(c)
  }

  ghost predicate OnOneLine(gaps: seq<string>) {
    forall g | g in gaps :: '\n' !in g
  }

  ghost predicate AllPrintable(ts: seq<Token>) {
    forall t | t in ts :: Printable(t)
  }

  /** What is left of the text at i: a gap, and the tokens that are still to come with theirs. */
  ghost predicate Remains(s: string, i: nat, gap: string, ts: seq<Token>, gaps: seq<string>) {
    && |ts| == |gaps| && AllPrintable(ts) && AreGaps(gaps)
    && (forall c | c in gap :: IsSpace(c))
    && i <= |s| && s[i..] == gap + RenderWith(ts, gaps)
  }

  /** The gap ends at the next token, which white space follows, or at the end of the text. */
  lemma {:induction false} RemainsStep(s: string, i: nat, gap: string, ts: seq<Token>, gaps: seq<string>)
    requires Remains(s, i, gap, ts, gaps)
    ensures |ts| == |gaps| && Gap(s, i, i + |gap|) && s[i..i + |gap|] == gap
    ensures ts != [] ==> gaps[0] != []
    ensures ts == [] ==> i + |gap| == |s|
    ensures ts != [] ==> Printable(ts[0]) && Placed(s, i + |gap|, Spelling(ts[0]))
    ensures ts != [] ==> Remains(s, i + |gap| + |Spelling(ts[0])|, gaps[0], ts[1..], gaps[1..])
  {
    hide Spelling, Printable, CommentEnd, IsSpace;
    TextAtEnd(s, i, gap, RenderWith(ts, gaps));
    forall j | i <= j < i + |gap|
      ensures IsSpace(s[j])
    {
      TextOne(s, i, gap, j - i);
    }
    if ts != [] {
      var e, x, rest := i + |gap|, Spelling(ts[0]), RenderWith(ts[1..], gaps[1..]);
      assert ts[0] in ts && gaps[0] in gaps;
      TailsKeep(ts, gaps);
      assert x + gaps[0] + rest == x + (gaps[0] + rest);
      TextAtEnd(s, e, x, gaps[0] + rest);
      TextAtEnd(s, e + |x|, gaps[0], rest);
      TextOne(s, e + |x|, gaps[0], 0);
      NothingToSkip(s, e, ts[0]);
    }
  }

  lemma {:induction false} TailsKeep(ts: seq<Token>, gaps: seq<string>)
    requires |ts| == |gaps| > 0 && AllPrintable(ts) && AreGaps(gaps)
    ensures AllPrintable(ts[1..]) && AreGaps(gaps[1..])
  {
    hide Printable, IsSpace;
    forall g | g in gaps[1..] ensures g in gaps {
    }
    forall t | t in ts[1..] ensures t in ts {
    }
  }

  lemma {:induction false} TextAtEnd(s: string, i: nat, a: string, b: string)
    requires i <= |s| && s[i..] == a + b
    ensures TextAt(s, i, a) && i + |a| <= |s| && s[i + |a|..] == b
  {
    assert s[i..i + |a|] == s[i..][..|a|];
    assert s[i + |a|..] == s[i..][|a|..];
  }

  /** The next token is read from behind the gap. */
  lemma {:induction false} TokenIsScanned(s: string, indentSize: nat, st: LexState, st1: LexState, t: Token)
    requires indentSize > 0 && st.pos < |s| && Printable(t)
    requires st1 == if st.atLineStart && st.braceDepth == 0 then LineStart(s, indentSize, st) else Skipped(s, st)
    requires Placed(s, st1.pos, Spelling(t))
    ensures ScanToken(s, indentSize, st)
         == Put(st1, Piece(st1.pos + |Spelling(t)|, [t], 0, BraceChange(t.kind)))
  {
    hide Spelling, Printable, Skipped, LineStart, LexemeAt, IsSpace;
    LexemeIsRead(s, st1.pos, t);
  }

  lemma {:induction false} SkippedOnLine(s: string, st: LexState, gap: string)
    requires Gap(s, st.pos, st.pos + |gap|) && s[st.pos..st.pos + |gap|] == gap && '\n' !in gap
    ensures Skipped(s, st) == st.(pos := st.pos + |gap|)
  {
    hide SkipEnd, Gap;
    GapIsSkipped(s, st.pos, st.pos + |gap|);
  }

  lemma {:induction false} GapIsText(s: string, i: nat, gap: string)
    requires Gap(s, i, i + |gap|) && gap != []
    ensures i < |s|
  {
  }

  lemma {:induction false} OneLineTail(gaps: seq<string>)
    requires OnOneLine(gaps) && gaps != []
    ensures '\n' !in gaps[0] && OnOneLine(gaps[1..])
  {
    assert gaps[0] in gaps;
    forall g | g in gaps[1..] ensures g in gaps {
    }
  }

  lemma {:induction false} RestIsScanned(
    s: string, indentSize: nat, st: LexState, gap: string, ts: seq<Token>, gaps: seq<string>)
    requires indentSize > 0 && Remains(s, st.pos, gap, ts, gaps) && gap != [] && '\n' !in gap && OnOneLine(gaps)
    requires !st.atLineStart && st.errors == 0
    ensures var r := Scan(s, indentSize, st);
            r.out == st.out + ts && r.errors == 0 && r.indentLevel == st.indentLevel
    decreases |ts|
  {
    hide Remains, Spelling, Printable, Skipped, LexemeAt, LineStart, BraceChange, Gap, RenderWith, Placed;
    RemainsStep(s, st.pos, gap, ts, gaps);
    GapIsText(s, st.pos, gap);
    SkippedOnLine(s, st, gap);
    var st1 := st.(pos := st.pos + |gap|);
    if ts == [] {
      assert ScanToken(s, indentSize, st) == st1;
      assert Scan(s, indentSize, st1) == st1;
      assert st.out + ts == st.out;
    } else {
      TokenIsScanned(s, indentSize, st, st1, ts[0]);
      OneLineTail(gaps);
      RestIsScanned(s, indentSize, ScanToken(s, indentSize, st), gaps[0], ts[1..], gaps[1..]);
      assert st.out + [ts[0]] + ts[1..] == st.out + ts;
    }
  }

  /** The first token stands at the start of a line, without indentation. */
  lemma {:induction false} FirstLine(s: string, indentSize: nat)
    requires indentSize > 0 && s != [] && !IsSpace(s[0]) && CommentEnd(s, 0) == 0
    ensures LineStart(s, indentSize, Start()) == Start().(atLineStart := false)
  {
    hide CommentEnd;
    assert s[0..0] == "";
    assert Indented(s, indentSize, Start()) == Start();
  }

  lemma {:induction false} StartRemains(ts: seq<Token>, gaps: seq<string>)
    requires |ts| == |gaps| && AllPrintable(ts) && AreGaps(gaps)
    ensures Remains(RenderWith(ts, gaps), 0, "", ts, gaps)
  {
    hide Spelling, Printable, RenderWith;
    assert "" + RenderWith(ts, gaps) == RenderWith(ts, gaps);
  }

  /** The main theorem: printing any list of printable tokens with blanks after each and lexing the text gives back the
      list and the end marker. */
  lemma {:induction false} TokensReturn(ts: seq<Token>, gaps: seq<string>, indentSize: nat)
    requires indentSize > 0 && |ts| == |gaps| && AllPrintable(ts) && AreGaps(gaps) && OnOneLine(gaps)
    ensures Tokenize(RenderWith(ts, gaps), indentSize) == ts + [END]
    ensures Scan(RenderWith(ts, gaps), indentSize, Start()).errors == 0
  {
    hide Spelling, Printable, Remains, LineStart, Placed, Gap, AllPrintable, AreGaps, IsSpace;
    var s := RenderWith(ts, gaps);
    StartRemains(ts, gaps);
    RemainsStep(s, 0, "", ts, gaps);
    if ts == [] {
      assert Scan(s, indentSize, Start()) == Start();
    } else {
      FirstToken(s, ts[0], gaps[0]);
      FirstLine(s, indentSize);
      TokenIsScanned(s, indentSize, Start(), Start().(atLineStart := false), ts[0]);
      OneLineTail(gaps);
      RestIsScanned(s, indentSize, ScanToken(s, indentSize, Start()), gaps[0], ts[1..], gaps[1..]);
      assert [] + [ts[0]] + ts[1..] == ts;
    }
  }

  lemma {:induction false} FirstToken(s: string, t: Token, gap: string)
    requires Printable(t) && Placed(s, 0, Spelling(t))
    ensures s != [] && !IsSpace(s[0]) && CommentEnd(s, 0) == 0
  {
    NothingToSkip(s, 0, t);
  }
}
