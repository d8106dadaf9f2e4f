/** The lexer of src/lexer/lexer.cpp: a cursor over the source text and the tokens emitted so far, changed by one method
    per kind of lexeme. Every method is proved to compute the function of module Lexemes that stands for it. */
module Lexing {
  import opened Characters
  import opened Tokens
  import opened Lexemes

  predicate IsSeparator(c: char) {
    c == '(' || c == ')' || c == '[' || c == ']'
    || c == '{' || c == '}' || c == ',' || c == ';' || c == '~' || c == '.' || c == ':'
  }

  predicate IsArithmetic(c: char) {
    c == '+' || c == '-' || c == '*'
  }

  predicate IsAssignable(c: char) {
    c == '/' || c == '%' || c == '^'
  }

  predicate IsComparison(c: char) {
    c == '=' || c == '!' || c == '<' || c == '>'
  }

  predicate IsOtherOperator(c: char) {
    c == '&' || c == '|' || c == '?'
  }

  lemma {:induction false} OperatorsBegin(c: char, c1: char, c2: char)
    ensures OperatorAt(c, c1, c2).0 > 0
       <==> IsSeparator(c) || IsArithmetic(c) || IsAssignable(c) || IsComparison(c) || IsOtherOperator(c)
  {
  }

  lemma {:induction false} PieceOfMatch(s: string, i: nat, length: nat, kind: Kind)
    requires i < |s| && 0 < length && Chooses(OperatorAt(s[i], At(s, i + 1), At(s, i + 2)), length, kind)
    ensures i + length <= |s|
    ensures OperatorPiece(s, i) == Piece(i + length, [Token(kind, s[i..i + length])], 0, BraceChange(kind))
  {
    hide OperatorAt, BraceChange;
  }

  lemma {:induction false} PieceWithoutMatch(s: string, i: nat)
    requires i < |s| && OperatorAt(s[i], At(s, i + 1), At(s, i + 2)).0 == 0
    ensures OperatorPiece(s, i) == Faulty(i + 1, s[i..i + 1])
  {
    hide OperatorAt;
  }

  // One line of the table each

  predicate Chooses(choice: (nat, Kind), length: int, kind: Kind) {
    choice.0 == length && choice.1 == kind
  }

  lemma {:induction false} AfterPlus(c1: char, c2: char)
    ensures var choice := OperatorAt('+', c1, c2);
            if c1 == '=' then Chooses(choice, 2, Other("+="))
            else if c1 == '+' then Chooses(choice, 2, Other("++")) else Chooses(choice, 1, Plus)
  {
  }

  lemma {:induction false} AfterMinus(c1: char, c2: char)
    ensures var choice := OperatorAt('-', c1, c2);
            if c1 == '<' then Chooses(choice, 2, ChannelReceive)
            else if c1 == '=' then Chooses(choice, 2, Other("-="))
            else if c1 == '-' then Chooses(choice, 2, Other("--"))
            else if c1 == '>' then Chooses(choice, 2, Arrow) else Chooses(choice, 1, Minus)
  {
  }

  lemma {:induction false} AfterStar(c1: char, c2: char)
    ensures var choice := OperatorAt('*', c1, c2);
            if c1 == '=' then Chooses(choice, 2, Other("*="))
            else if c1 != '*' then Chooses(choice, 1, Star)
            else if c2 == '=' then Chooses(choice, 3, Other("**=")) else Chooses(choice, 2, Power)
  {
  }

  lemma {:induction false} AfterSlash(c1: char, c2: char)
    ensures var choice := OperatorAt('/', c1, c2);
            if c1 == '=' then Chooses(choice, 2, Other("/=")) else Chooses(choice, 1, Slash)
  {
  }

  lemma {:induction false} AfterPercent(c1: char, c2: char)
    ensures var choice := OperatorAt('%', c1, c2);
            if c1 == '=' then Chooses(choice, 2, Other("%=")) else Chooses(choice, 1, Percent)
  {
  }

  lemma {:induction false} AfterLess(c1: char, c2: char)
    ensures var choice := OperatorAt('<', c1, c2);
            if c1 == '-' then Chooses(choice, 2, ChannelSend)
            else if c1 == '=' then Chooses(choice, 2, LessEqual)
            else if c1 != '<' then Chooses(choice, 1, Less)
            else if c2 == '=' then Chooses(choice, 3, Other("<<=")) else Chooses(choice, 2, LeftShift)
  {
  }

  lemma {:induction false} AfterGreater(c1: char, c2: char)
    ensures var choice := OperatorAt('>', c1, c2);
            if c1 == '=' then Chooses(choice, 2, GreaterEqual)
            else if c1 != '>' then Chooses(choice, 1, Greater)
            else if c2 == '=' then Chooses(choice, 3, Other(">>=")) else Chooses(choice, 2, RightShift)
  {
  }

  lemma {:induction false} AfterEqual(c1: char, c2: char)
    ensures var choice := OperatorAt('=', c1, c2);
            if c1 != '=' then Chooses(choice, 1, Equal)
            else if c2 == '=' then Chooses(choice, 3, Other("===")) else Chooses(choice, 2, EqualEqual)
  {
  }

  lemma {:induction false} AfterBang(c1: char, c2: char)
    ensures var choice := OperatorAt('!', c1, c2);
            if c1 != '=' then Chooses(choice, 1, Bang)
            else if c2 == '=' then Chooses(choice, 3, Other("!==")) else Chooses(choice, 2, BangEqual)
  {
  }

  lemma {:induction false} AfterAmpersand(c1: char, c2: char)
    ensures var choice := OperatorAt('&', c1, c2);
            if c1 == '&' then Chooses(choice, 2, And)
            else if c1 == '=' then Chooses(choice, 2, Other("&=")) else Chooses(choice, 1, BitwiseAnd)
  {
  }

  lemma {:induction false} AfterBar(c1: char, c2: char)
    ensures var choice := OperatorAt('|', c1, c2);
            if c1 == '|' then Chooses(choice, 2, Or)
            else if c1 == '=' then Chooses(choice, 2, Other("|=")) else Chooses(choice, 1, BitwiseOr)
  {
  }

  lemma {:induction false} AfterCaret(c1: char, c2: char)
    ensures var choice := OperatorAt('^', c1, c2);
            if c1 == '=' then Chooses(choice, 2, Other("^=")) else Chooses(choice, 1, BitwiseXor)
  {
  }

  lemma {:induction false} AfterQuestion(c1: char, c2: char)
    ensures var choice := OperatorAt('?', c1, c2);
            if c1 == '.' then Chooses(choice, 2, Other("?."))
            else if c1 == '?' then Chooses(choice, 2, Other("??")) else Chooses(choice, 1, Other("?"))
  {
  }

  // Measuring a run

  lemma {:induction false} EmptyRun(s: string, start: nat, indentSize: nat)
    requires start <= |s|
    ensures s[start..start] == [] && Width(s[start..start], indentSize) == 0
  {
  }

  lemma {:induction false} LongerRun(s: string, start: nat, i: nat, indentSize: nat)
    requires start <= i < |s|
    ensures Width(s[start..i + 1], indentSize) == Width(s[start..i], indentSize) + if s[i] == ' ' then 1 else indentSize
    ensures forall c :: c in s[start..i + 1] <==> c in s[start..i] || c == s[i]
  {
    var run := s[start..i + 1];
    assert run == s[start..i] + [s[i]] && run[..|run| - 1] == s[start..i];
  }

  class Lexer {
    const source: string
    const indentSize: nat
    var tokens: seq<Token>
    var current: nat
    var indentLevel: nat
    var atLineStart: bool
    var braceDepth: int
    var errorCount: nat

    ghost predicate Valid()
      reads this
    {
      current <= |source| && indentSize > 0
    }

    ghost function State(): LexState
      reads this
    {
      LexState(current, atLineStart, indentLevel, braceDepth, errorCount, tokens)
    }

    ghost predicate Is(st: LexState)
      reads this
    {
      && current == st.pos && atLineStart == st.atLineStart && indentLevel == st.indentLevel
      && braceDepth == st.braceDepth && errorCount == st.errors && tokens == st.out
    }

    constructor (text: string, size: nat)
      requires size > 0
      ensures Valid() && source == text && indentSize == size && Is(Start())
    {
      source, indentSize := text, size;
      tokens, current, indentLevel, atLineStart, braceDepth, errorCount := [], 0, 0, true, 0, 0;
    }

    function Peek(): char
      reads this
    {
      At(source, current)
    }

    function PeekNext(): char
      reads this
    {
      At(source, current + 1)
    }

    method Advance()
      requires Valid()
      modifies this`current
      ensures current == if old(current) < |source| then old(current) + 1 else old(current)
    {
      if current < |source| {
        current := current + 1;
      }
    }

    /** The loops that run over one class of characters. */
    method AdvanceWhile(k: CharClass)
      requires Valid()
      modifies this`current
      ensures Valid() && current == RunEnd(source, old(current), k)
    {
      while current < |source| && InClass(source[current], k)
        invariant current <= |source| && RunEnd(source, current, k) == RunEnd(source, old(current), k)
      {
        current := current + 1;
      }
    }

    method AdvanceToPair(first: char, second: char)
      requires Valid()
      modifies this`current
      ensures Valid() && current == PairStart(source, old(current), first, second)
    {
      while current < |source| && !(Peek() == first && PeekNext() == second)
        invariant current <= |source|
        invariant PairStart(source, current, first, second) == PairStart(source, old(current), first, second)
      {
        current := current + 1;
      }
    }

    /** Both kinds of comments, in both spellings. */
    method SkipComment()
      requires Valid()
      modifies this`current
      ensures Valid() && current == CommentEnd(source, old(current))
    {
      match CommentAt(source, current)
      case NoComment =>
      case LineComment(skip) =>
        current := current + skip;
        AdvanceWhile(LineRest);
        Advance();
      case BlockComment(first, second) =>
        current := current + 2;
        AdvanceToPair(first, second);
        Advance();
        Advance();
    }

    method SkipWhitespace()
      requires Valid()
      modifies this`current, this`atLineStart
      ensures Valid() && current == SkipEnd(source, old(current))
      ensures atLineStart == (old(atLineStart) || Crosses(source, old(current), current))
    {
      hide Crosses, CommentEnd;
      CrossesInTwo(source, current, current, current);
      var more := true;
      while more
        invariant old(current) <= current <= |source|
        invariant SkipEnd(source, current) == SkipEnd(source, old(current))
        invariant !more ==> current == SkipEnd(source, old(current))
        invariant atLineStart == (old(atLineStart) || Crosses(source, old(current), current))
        decreases |source| - current, more
      {
        var before := current;
        if IsBlank(Peek()) || Peek() == '\n' {
          current := current + 1;
        } else {
          SkipComment();
        }
        assert current == BlankEnd(source, before);
        atLineStart := atLineStart || Crosses(source, before, current);
        CrossesInTwo(source, old(current), before, current);
        more := current > before;
      }
    }

    method Emit(kind: Kind, text: string)
      modifies this`tokens
      ensures tokens == old(tokens) + [Token(kind, text)]
    {
      tokens := tokens + [Token(kind, text)];
    }

    method ReportError()
      modifies this`errorCount
      ensures errorCount == old(errorCount) + 1
    {
      errorCount := errorCount + 1;
    }

    method HandleIndentation()
      requires Valid()
      modifies this
      ensures Valid() && Is(Indented(source, indentSize, old(State())))
    {
      hide RunEnd, Width, CommentEnd;
      var spaces, usedTab, usedSpace := MeasureIndentation();
      if usedTab && usedSpace {
        ReportError();
        return;
      }
      if Peek() == '\n' || current == |source| {
        return;
      }
      if !CommentAt(source, current).NoComment? {
        SkipComment();
        return;
      }
      ChangeIndentation(spaces / indentSize);
    }

    method MeasureIndentation() returns (spaces: nat, usedTab: bool, usedSpace: bool)
      requires Valid()
      modifies this`current
      ensures Valid() && current == RunEnd(source, old(current), Indentation)
      ensures spaces == Width(source[old(current)..current], indentSize)
      ensures usedSpace <==> ' ' in source[old(current)..current]
      ensures usedTab <==> '\t' in source[old(current)..current]
    {
      hide Width;
      spaces, usedTab, usedSpace := 0, false, false;
      var start := current;
      EmptyRun(source, start, indentSize);
      while Peek() == ' ' || Peek() == '\t'
        invariant start <= current <= |source|
        invariant RunEnd(source, current, Indentation) == RunEnd(source, start, Indentation)
        invariant spaces == Width(source[start..current], indentSize)
        invariant usedSpace <==> ' ' in source[start..current]
        invariant usedTab <==> '\t' in source[start..current]
        decreases |source| - current
      {
        if Peek() == ' ' {
          spaces, usedSpace := spaces + 1, true;
        } else {
          spaces, usedTab := spaces + indentSize, true;
        }
        LongerRun(source, start, current, indentSize);
        current := current + 1;
      }
    }

    method ChangeIndentation(newIndentLevel: nat)
      modifies this`tokens, this`indentLevel
      ensures Is(old(State()).WithLevel(newIndentLevel))
    {
      var i := indentLevel;
      while i < newIndentLevel
        invariant indentLevel <= i <= newIndentLevel || i == indentLevel
        invariant indentLevel == old(indentLevel) && tokens == old(tokens) + Copies(i - indentLevel, INDENT)
      {
        Emit(Indent, "");
        i := i + 1;
      }
      while i > newIndentLevel
        invariant newIndentLevel <= i && indentLevel == old(indentLevel)
        invariant indentLevel <= newIndentLevel ==>
                    i == newIndentLevel && tokens == old(State()).WithLevel(newIndentLevel).out
        invariant indentLevel > newIndentLevel ==>
                    i <= indentLevel && tokens == old(tokens) + Copies(indentLevel - i, DEDENT)
      {
        Emit(Dedent, "");
        i := i - 1;
      }
      indentLevel := newIndentLevel;
    }

    method ScanIdentifier()
      requires Valid() && current < |source|
      modifies this`current, this`tokens
      ensures Valid() && Is(Put(old(State()), WordAt(source, old(current))))
    {
      hide WordKind;
      var start := current;
      current := current + 1;
      AdvanceWhile(Word);
      Emit(WordKind(source[start..current]), source[start..current]);
    }

    method Fault(text: string)
      modifies this`tokens, this`errorCount
      ensures tokens == old(tokens) + [Token(Error, text)] && errorCount == old(errorCount) + 1
    {
      ReportError();
      Emit(Error, text);
    }

    method ScanNumber()
      requires Valid() && current < |source| && IsDigit(source[current])
      modifies this`current, this`tokens, this`errorCount
      ensures Valid() && Is(Put(old(State()), NumberAt(source, old(current))))
    {
      hide RunEnd, DecimalFrom, Suffixed, IsHexDigit;
      var start := current;
      current := current + 1;
      if source[start] == '0' && (Peek() == 'x' || Peek() == 'X') {
        current := current + 1;
        if !IsHexDigit(Peek()) {
          Fault(source[start..current]);
          return;
        }
        AdvanceWhile(HexDigits);
        ScanSuffix(start, false);
      } else if source[start] == '0' && (Peek() == 'b' || Peek() == 'B') {
        current := current + 1;
        if !(Peek() == '0' || Peek() == '1') {
          Fault(source[start..current]);
          return;
        }
        AdvanceWhile(BinaryDigits);
        ScanSuffix(start, false);
      } else if source[start] == '0' && IsDigit(Peek()) && Peek() != '0' {
        AdvanceWhile(OctalDigits);
        ScanSuffix(start, false);
      } else {
        AdvanceWhile(Digits);
        ScanDecimal(start);
      }
    }

    /** The fraction and the exponent of a decimal number. */
    method ScanDecimal(start: nat)
      requires Valid() && start < current
      modifies this`current, this`tokens, this`errorCount
      ensures Valid() && Is(Put(old(State()), DecimalFrom(source, start, old(current))))
    {
      hide RunEnd, Suffixed;
      var isFloat := false;
      if Peek() == '.' && IsDigit(PeekNext()) {
        isFloat := true;
        current := current + 1;
        AdvanceWhile(Digits);
      }
      if Peek() == 'e' || Peek() == 'E' {
        isFloat := true;
        current := current + 1;
        if Peek() == '+' || Peek() == '-' {
          current := current + 1;
        }
        if !IsDigit(Peek()) {
          Fault(source[start..current]);
          return;
        }
        AdvanceWhile(Digits);
      }
      ScanSuffix(start, isFloat);
    }

    /** The type suffix, and the token. */
    method ScanSuffix(start: nat, isFloat: bool)
      requires Valid() && start < current
      modifies this`current, this`tokens
      ensures Valid() && Is(Put(old(State()), Suffixed(source, start, old(current), isFloat)))
    {
      var floats := isFloat;
      if current < |source| {
        var suffix := Peek();
        if suffix == 'f' || suffix == 'F' {
          floats := true;
          current := current + 1;
        } else if suffix == 'l' || suffix == 'L' || suffix == 'u' || suffix == 'U' {
          current := current + 1;
        }
      }
      Emit(if floats then Float64 else Int, source[start..current]);
    }

    method ScanString()
      requires Valid() && 0 < current
      modifies this`current, this`tokens, this`errorCount
      ensures Valid()
      ensures Is(Put(old(State()), StringFrom(source, old(current), source[old(current) - 1], false, "", 0)))
    {
      hide SimpleEscape, IsHexDigit, HexEscape;
      var quote := source[current - 1];
      var escaped, value := false, "";
      ghost var errors := 0;
      while current < |source|
        invariant current <= |source| && errorCount == old(errorCount) + errors
        invariant Is(old(State()).(pos := current, errors := errorCount))
        invariant StringFrom(source, current, quote, escaped, value, errors)
               == StringFrom(source, old(current), quote, false, "", 0)
        decreases |source| - current
      {
        var c := Peek();
        if c == '\n' {
          Fault("");
          return;
        }
        if escaped && c == 'x' && IsHexDigit(PeekNext()) {
          var (e, v) := HexEscape(source, current);
          value := value + [v];
          current := e;
          escaped := false;
        } else if escaped && SimpleEscape(c) != [] {
          value := value + SimpleEscape(c);
          escaped := false;
        } else if escaped {
          ReportError();
          errors := errors + 1;
          value := value + [c];
          escaped := false;
        } else if c == '\\' {
          escaped := true;
        } else if c == quote {
          current := current + 1;
          Emit(String, value);
          return;
        } else {
          value := value + [c];
        }
        Advance();
      }
      Fault("");
    }

    method ScanTemplateLiteral()
      requires Valid() && current < |source|
      modifies this`current, this`tokens, this`errorCount
      ensures Valid() && Is(Put(old(State()), TemplateFrom(source, old(current) + 1, "", [])))
    {
      hide TemplateChar, InterpolationEnd;
      current := current + 1;
      var value := "";
      ghost var emitted: seq<Token> := [];
      while current < |source| && Peek() != '`'
        invariant current <= |source| && tokens == old(tokens) + emitted
        invariant Is(old(State()).(pos := current, out := tokens))
        invariant TemplateFrom(source, current, value, emitted) == TemplateFrom(source, old(current) + 1, "", [])
        decreases |source| - current
      {
        if Peek() == '$' && PeekNext() == '{' {
          emitted := emitted + [Token(TEMPLATE_START, value)];
          var closed, expr := ScanInterpolation(value);
          if !closed {
            return;
          }
          emitted := emitted + [Token(TEMPLATE_EXPR, expr)];
          value := "";
        } else {
          var part := ScanTemplateChar();
          value := value + part;
        }
      }
      if current == |source| {
        ReportError();
        return;
      }
      current := current + 1;
      Emit(TEMPLATE_END, value);
    }

    /** One character of the text, or an escape. */
    method ScanTemplateChar() returns (part: string)
      requires Valid() && current < |source|
      modifies this`current
      ensures Valid() && (current, part) == TemplateChar(source, old(current))
    {
      if Peek() == '\\' {
        current := current + 1;
        part := TemplateEscape(Peek());
        Advance();
      } else {
        part := [Peek()];
        current := current + 1;
      }
    }

    /** From the dollar sign on; an interpolation that is not closed is an error. */
    method ScanInterpolation(value: string) returns (closed: bool, expr: string)
      requires Valid() && current + 2 <= |source|
      modifies this`current, this`tokens, this`errorCount
      ensures Valid()
      ensures var e := InterpolationEnd(source, old(current) + 2, 1);
              && (closed <==> e < |source| && source[e] == '}')
              && (closed ==> expr == source[old(current) + 2..e])
              && current == (if closed then e + 1 else e)
              && errorCount == old(errorCount) + (if closed then 0 else 1)
              && tokens == old(tokens) + [Token(TEMPLATE_START, value)]
                           + (if closed then [Token(TEMPLATE_EXPR, expr)] else [])
    {
      hide InterpolationEnd;
      current := current + 2;
      Emit(TEMPLATE_START, value);
      var start := current;
      closed := SkipInterpolation();
      expr := source[start..current];
      if closed {
        Emit(TEMPLATE_EXPR, expr);
        current := current + 1;
      } else {
        ReportError();
      }
    }

    /** Stops at the brace that closes the interpolation, at a newline or at the end of the source. */
    method SkipInterpolation() returns (closed: bool)
      requires Valid()
      modifies this`current
      ensures Valid() && current == InterpolationEnd(source, old(current), 1)
      ensures closed <==> current < |source| && Peek() == '}'
    {
      var braceCount := 1;
      while current < |source| && braceCount > 0
        invariant current <= |source| && braceCount >= 0
        invariant braceCount > 0 ==>
                    InterpolationEnd(source, current, braceCount) == InterpolationEnd(source, old(current), 1)
        invariant braceCount == 0 ==>
                    current < |source| && Peek() == '}' && current == InterpolationEnd(source, old(current), 1)
        decreases |source| - current, braceCount
      {
        var c := Peek();
        if c == '{' {
          braceCount := braceCount + 1;
        } else if c == '}' {
          braceCount := braceCount - 1;
        } else if c == '\n' {
          return false;
        }
        if braceCount > 0 {
          current := current + 1;
        }
      }
      return braceCount == 0;
    }

    /** Everything but words and numbers. */
    method ScanPunctuation()
      requires Valid() && current < |source|
      modifies this`current, this`tokens, this`errorCount, this`braceDepth
      ensures Valid() && Is(Put(old(State()), PunctuationAt(source, old(current))))
    {
      hide MarkAt, InnerCommentEnd;
      var start, c := current, Peek();
      if c == '\0' || start + 1 == |source| {
        current := start + 1;
        return;
      }
      SkipInnerComment();
      if current > start {
        return;
      }
      ScanMark();
    }

    method ScanMark()
      requires Valid() && current + 1 < |source|
      modifies this`current, this`tokens, this`errorCount, this`braceDepth
      ensures Valid() && Is(Put(old(State()), MarkAt(source, old(current))))
    {
      hide OperatorPiece, StringFrom, TemplateFrom;
      var c := source[current];
      current := current + 1;
      if c == '\"' || c == '\'' {
        ScanString();
      } else if c == '`' {
        ScanTemplateLiteral();
      } else {
        ScanOperator();
      }
    }

    method SkipInnerComment()
      requires Valid()
      modifies this`current
      ensures Valid() && current == InnerCommentEnd(source, old(current))
    {
      hide CommentEnd, RunEnd;
      if Peek() == '/' && PeekNext() == '/' {
        current := current + 2;
        AdvanceWhile(LineRest);
      } else if Peek() == '/' && PeekNext() == '*' {
        SkipComment();
      }
    }

    method Match(expected: char) returns (matched: bool)
      requires Valid() && expected != '\0'
      modifies this`current
      ensures Valid() && matched == (old(Peek()) == expected)
      ensures current == if matched then old(current) + 1 else old(current)
    {
      matched := current < |source| && source[current] == expected;
      if matched {
        current := current + 1;
      }
    }

    method Either(c: char, kind: Kind, otherwise: Kind) returns (k: Kind)
      requires Valid() && c != '\0'
      modifies this`current
      ensures Valid() && k == (if old(Peek()) == c then kind else otherwise)
      ensures current == if old(Peek()) == c then old(current) + 1 else old(current)
    {
      var matched := Match(c);
      k := if matched then kind else otherwise;
    }

    method EitherOf(c: char, kind: Kind, c': char, kind': Kind, otherwise: Kind) returns (k: Kind)
      requires Valid() && c != '\0' && c' != '\0'
      modifies this`current
      ensures Valid()
      ensures k == if old(Peek()) == c then kind else if old(Peek()) == c' then kind' else otherwise
      ensures current == if old(Peek()) == c || old(Peek()) == c' then old(current) + 1 else old(current)
    {
      var matched := Match(c);
      if matched {
        return kind;
      }
      k := Either(c', kind', otherwise);
    }

    /** An operator that an assignment, a second c, or both can make longer. */
    method Repeated(c: char, assignment: Kind, both: Kind, doubled: Kind, alone: Kind) returns (k: Kind)
      requires Valid() && c != '\0' && c != '='
      modifies this`current
      ensures Valid()
      ensures k == (if old(Peek()) == '=' then assignment else if old(Peek()) != c then alone
                    else if old(PeekNext()) == '=' then both else doubled)
      ensures current == old(current) + (if old(Peek()) == '=' then 1 else if old(Peek()) != c then 0
                                         else if old(PeekNext()) == '=' then 2 else 1)
    {
      var matched := Match('=');
      if matched {
        return assignment;
      }
      matched := Match(c);
      if !matched {
        return alone;
      }
      k := Either('=', both, doubled);
    }

    // The operators: what can be matched after the character c before the cursor

    /** Brackets, separators and dots. */
    method MatchSeparator(c: char) returns (found: bool, kind: Kind)
      requires Valid()
      modifies this`current
      ensures Valid() && current >= old(current) && found == IsSeparator(c)
      ensures found ==> Chooses(OperatorAt(c, old(Peek()), old(PeekNext())), current - old(current) + 1, kind)
      ensures !found ==> current == old(current)
    {
      found, kind := true, Error;
      if c == '(' {
        kind := LeftParen;
      } else if c == ')' {
        kind := RightParen;
      } else if c == '{' {
        kind := LeftBrace;
      } else if c == '}' {
        kind := RightBrace;
      } else if c == '[' {
        kind := LeftBracket;
      } else if c == ']' {
        kind := RightBracket;
      } else if c == ',' {
        kind := Comma;
      } else if c == ';' {
        kind := SemiColon;
      } else if c == '~' {
        kind := Other("~");
      } else if c == '.' {
        var matched := Match('.');
        if matched {
          kind := Either('.', Other("..."), Other(".."));
        } else {
          kind := Dot;
        }
      } else if c == ':' {
        kind := Either(':', Other("::"), Colon);
      } else {
        found := false;
      }
    }

    /** Arithmetic, alone or with an assignment. */
    method MatchArithmetic(c: char) returns (found: bool, kind: Kind)
      requires Valid()
      modifies this`current
      ensures Valid() && current >= old(current) && found == IsArithmetic(c)
      ensures found ==> Chooses(OperatorAt(c, old(Peek()), old(PeekNext())), current - old(current) + 1, kind)
      ensures !found ==> current == old(current)
    {
      hide Chooses, OperatorAt;
      found, kind := true, Error;
      if c == '+' {
        AfterPlus(Peek(), PeekNext());
        kind := EitherOf('=', Other("+="), '+', Other("++"), Plus);
      } else if c == '-' {
        kind := MatchMinus();
      } else if c == '*' {
        kind := MatchStar();
      } else {
        found := false;
      }
    }

    method MatchMinus() returns (kind: Kind)
      requires Valid()
      modifies this`current
      ensures Valid() && current >= old(current)
      ensures Chooses(OperatorAt('-', old(Peek()), old(PeekNext())), current - old(current) + 1, kind)
    {
      hide Chooses, OperatorAt;
      AfterMinus(Peek(), PeekNext());
      var matched := Match('<');
      if matched {
        return ChannelReceive;
      }
      matched := Match('=');
      if matched {
        return Other("-=");
      }
      kind := EitherOf('-', Other("--"), '>', Arrow, Minus);
    }

    method MatchStar() returns (kind: Kind)
      requires Valid()
      modifies this`current
      ensures Valid() && current >= old(current)
      ensures Chooses(OperatorAt('*', old(Peek()), old(PeekNext())), current - old(current) + 1, kind)
    {
      hide Chooses, OperatorAt;
      AfterStar(Peek(), PeekNext());
      kind := Repeated('*', Other("*="), Other("**="), Power, Star);
    }

    /** Operators that only an assignment makes longer. */
    method MatchAssignable(c: char) returns (found: bool, kind: Kind)
      requires Valid()
      modifies this`current
      ensures Valid() && current >= old(current) && found == IsAssignable(c)
      ensures found ==> Chooses(OperatorAt(c, old(Peek()), old(PeekNext())), current - old(current) + 1, kind)
      ensures !found ==> current == old(current)
    {
      hide Chooses, OperatorAt;
      found, kind := true, Error;
      if c == '/' {
        AfterSlash(Peek(), PeekNext());
        kind := Either('=', Other("/="), Slash);
      } else if c == '%' {
        AfterPercent(Peek(), PeekNext());
        kind := Either('=', Other("%="), Percent);
      } else if c == '^' {
        AfterCaret(Peek(), PeekNext());
        kind := Either('=', Other("^="), BitwiseXor);
      } else {
        found := false;
      }
    }

    /** Comparisons and shifts. */
    method MatchComparison(c: char) returns (found: bool, kind: Kind)
      requires Valid()
      modifies this`current
      ensures Valid() && current >= old(current) && found == IsComparison(c)
      ensures found ==> Chooses(OperatorAt(c, old(Peek()), old(PeekNext())), current - old(current) + 1, kind)
      ensures !found ==> current == old(current)
    {
      hide Chooses, OperatorAt;
      found, kind := true, Error;
      if c == '=' {
        AfterEqual(Peek(), PeekNext());
        var matched := Match('=');
        if matched {
          kind := Either('=', Other("==="), EqualEqual);
        } else {
          kind := Equal;
        }
      } else if c == '!' {
        AfterBang(Peek(), PeekNext());
        var matched := Match('=');
        if matched {
          kind := Either('=', Other("!=="), BangEqual);
        } else {
          kind := Bang;
        }
      } else if c == '<' {
        kind := MatchLess();
      } else if c == '>' {
        kind := MatchGreater();
      } else {
        found := false;
      }
    }

    method MatchLess() returns (kind: Kind)
      requires Valid()
      modifies this`current
      ensures Valid() && current >= old(current)
      ensures Chooses(OperatorAt('<', old(Peek()), old(PeekNext())), current - old(current) + 1, kind)
    {
      hide Chooses, OperatorAt;
      AfterLess(Peek(), PeekNext());
      var matched := Match('-');
      if matched {
        return ChannelSend;
      }
      kind := Repeated('<', LessEqual, Other("<<="), LeftShift, Less);
    }

    method MatchGreater() returns (kind: Kind)
      requires Valid()
      modifies this`current
      ensures Valid() && current >= old(current)
      ensures Chooses(OperatorAt('>', old(Peek()), old(PeekNext())), current - old(current) + 1, kind)
    {
      hide Chooses, OperatorAt;
      AfterGreater(Peek(), PeekNext());
      kind := Repeated('>', GreaterEqual, Other(">>="), RightShift, Greater);
    }

    /** The remaining operators. */
    method MatchOther(c: char) returns (found: bool, kind: Kind)
      requires Valid()
      modifies this`current
      ensures Valid() && current >= old(current) && found == IsOtherOperator(c)
      ensures found ==> Chooses(OperatorAt(c, old(Peek()), old(PeekNext())), current - old(current) + 1, kind)
      ensures !found ==> current == old(current)
    {
      hide Chooses, OperatorAt;
      found, kind := true, Error;
      if c == '&' {
        AfterAmpersand(Peek(), PeekNext());
        kind := EitherOf('&', And, '=', Other("&="), BitwiseAnd);
      } else if c == '|' {
        AfterBar(Peek(), PeekNext());
        kind := EitherOf('|', Or, '=', Other("|="), BitwiseOr);
      } else if c == '?' {
        AfterQuestion(Peek(), PeekNext());
        kind := EitherOf('.', Other("?."), '?', Other("??"), Other("?"));
      } else {
        found := false;
      }
    }

    method ScanOperator()
      requires Valid() && 0 < current
      modifies this`current, this`tokens, this`errorCount, this`braceDepth
      ensures Valid()
      ensures Is(Put(old(State()), OperatorPiece(source, old(current) - 1)))
    {
      hide OperatorAt, OperatorPiece, BraceChange, Chooses;
      var start := current - 1;
      var found, kind := MatchOperator(source[start]);
      if found {
        PieceOfMatch(source, start, current - start, kind);
        AcceptOperator(start, kind);
      } else {
        PieceWithoutMatch(source, start);
        Fault(source[start..start + 1]);
      }
    }

    method AcceptOperator(start: nat, kind: Kind)
      requires Valid() && start < current
      modifies this`tokens, this`braceDepth
      ensures Is(Put(old(State()), Piece(current, [Token(kind, source[start..current])], 0, BraceChange(kind))))
    {
      hide BraceChange;
      braceDepth := braceDepth + BraceChange(kind);
      Emit(kind, source[start..current]);
    }

    method MatchOperator(c: char) returns (found: bool, kind: Kind)
      requires Valid()
      modifies this`current
      ensures Valid() && current >= old(current)
      ensures found == (OperatorAt(c, old(Peek()), old(PeekNext())).0 > 0)
      ensures found ==> Chooses(OperatorAt(c, old(Peek()), old(PeekNext())), current - old(current) + 1, kind)
      ensures !found ==> current == old(current)
    {
      hide Chooses, OperatorAt, IsSeparator, IsArithmetic, IsAssignable, IsComparison, IsOtherOperator;
      OperatorsBegin(c, Peek(), PeekNext());
      found, kind := MatchSeparator(c);
      if !found {
        found, kind := MatchArithmetic(c);
      }
      if !found {
        found, kind := MatchAssignable(c);
      }
      if !found {
        found, kind := MatchComparison(c);
      }
      if !found {
        found, kind := MatchOther(c);
      }
    }

    method ScanToken()
      requires Valid() && current < |source|
      modifies this
      ensures Valid() && Is(Lexemes.ScanToken(source, indentSize, old(State())))
    {
      hide LineStart, SkipEnd, LexemeAt;
      if atLineStart && braceDepth == 0 {
        SkipToLine();
      } else {
        SkipWhitespace();
      }
      if current == |source| {
        return;
      }
      ScanLexeme();
    }

    /** The loop over blank lines at the start of a line. */
    method SkipToLine()
      requires Valid()
      modifies this
      ensures Valid() && Is(LineStart(source, indentSize, old(State())))
    {
      hide Indented, RunEnd;
      var blank := true;
      while blank
        invariant Valid() && current >= old(current)
        invariant blank ==> LineStart(source, indentSize, State()) == LineStart(source, indentSize, old(State()))
        invariant !blank ==> Is(LineStart(source, indentSize, old(State())))
        decreases |source| - current, blank
      {
        HandleIndentation();
        atLineStart := false;
        AdvanceWhile(Blanks);
        blank := Peek() == '\n';
        if blank {
          current := current + 1;
          atLineStart := true;
        }
      }
    }

    method ScanLexeme()
      requires Valid() && current < |source|
      modifies this
      ensures Valid() && Is(Put(old(State()), LexemeAt(source, old(current))))
    {
      hide WordAt, NumberAt, PunctuationAt;
      if StartsWord(Peek()) {
        ScanIdentifier();
      } else if IsDigit(Peek()) {
        ScanNumber();
      } else {
        ScanPunctuation();
      }
    }

    method Tokenize() returns (ts: seq<Token>)
      requires Valid()
      modifies this
      ensures ts == tokens == Lexemes.Tokenize(source, indentSize)
    {
      hide Lexemes.ScanToken;
      tokens, current, indentLevel, atLineStart, braceDepth, errorCount := [], 0, 0, true, 0, 0;
      while current < |source| && errorCount < MAX_ERRORS
        invariant Valid() && Scan(source, indentSize, State()) == Scan(source, indentSize, Start())
        decreases |source| - current
      {
        ScanToken();
      }
      ghost var st := State();
      while indentLevel > 0
        invariant indentLevel <= st.indentLevel && tokens == st.out + Copies(st.indentLevel - indentLevel, DEDENT)
      {
        Emit(Dedent, "");
        indentLevel := indentLevel - 1;
      }
      Emit(Eof, "");
      return tokens;
    }
  }
}
