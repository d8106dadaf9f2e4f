/** Indents and dedents balance in every token list that the lexer can return. */
module Layout {
  import opened Characters
  import opened Tokens
  import opened Lexemes

  /** How many more indents than dedents there are. */
  function Depth(ts: seq<Token>): int {
    if ts == [] then 0 else Depth(ts[..|ts| - 1]) + Change(ts[|ts| - 1].kind)
  }

  function Change(k: Kind): int {
    if k == Indent then 1 else if k == Dedent then -1 else 0
  }

  /** No prefix closes more levels than it has opened. */
  ghost predicate Nested(ts: seq<Token>) {
    forall n :: 0 <= n <= |ts| ==> Depth(ts[..n]) >= 0
  }

  ghost predicate NoEnd(ts: seq<Token>) {
    forall t :: t in ts ==> t.kind != Eof
  }

  /** The tokens of a lexeme leave the nesting alone. */
  ghost predicate Plain(ts: seq<Token>) {
    forall t :: t in ts ==> t.kind != Indent && t.kind != Dedent && t.kind != Eof
  }

  ghost predicate Balanced(st: LexState) {
    Nested(st.out) && Depth(st.out) == st.indentLevel && NoEnd(st.out)
  }

  lemma {:induction false} Grow(ts: seq<Token>, t: Token)
    requires Nested(ts) && Depth(ts) + Change(t.kind) >= 0
    ensures Nested(ts + [t]) && Depth(ts + [t]) == Depth(ts) + Change(t.kind)
  {
    var longer := ts + [t];
    assert longer[..|longer| - 1] == ts;
    forall n | 0 <= n <= |longer|
      ensures Depth(longer[..n]) >= 0
    {
      if n <= |ts| {
        assert longer[..n] == ts[..n];
      } else {
        assert longer[..n] == longer;
      }
    }
  }

  lemma {:induction false} GrowPlain(ts: seq<Token>, more: seq<Token>)
    requires Nested(ts) && Depth(ts) >= 0 && Plain(more)
    ensures Nested(ts + more) && Depth(ts + more) == Depth(ts)
    decreases |more|
  {
    hide Nested, Depth;
    if more == [] {
      assert ts + more == ts;
    } else {
      var t := more[0];
      Grow(ts, t);
      GrowPlain(ts + [t], more[1..]);
      assert ts + [t] + more[1..] == ts + more;
    }
  }

  lemma {:induction false} GrowCopies(ts: seq<Token>, n: nat, t: Token)
    requires Nested(ts) && t.kind != Eof && (t.kind == Dedent ==> Depth(ts) >= n) && Depth(ts) >= 0
    ensures Nested(ts + Copies(n, t)) && Depth(ts + Copies(n, t)) == Depth(ts) + n * Change(t.kind)
    ensures forall u :: u in Copies(n, t) ==> u == t
    decreases n
  {
    hide Nested, Depth;
    if n == 0 {
      assert ts + Copies(n, t) == ts;
    } else {
      GrowCopies(ts, n - 1, t);
      Grow(ts + Copies(n - 1, t), t);
      assert ts + Copies(n - 1, t) + [t] == ts + Copies(n, t);
      assert Change(t.kind) == 1 || Change(t.kind) == -1 || Change(t.kind) == 0;
    }
  }

  lemma {:induction false} LevelKeepsBalance(st: LexState, level: nat)
    requires Balanced(st)
    ensures Balanced(st.WithLevel(level))
  {
    hide Nested, Depth;
    if level > st.indentLevel {
      GrowCopies(st.out, level - st.indentLevel, INDENT);
    } else {
      GrowCopies(st.out, st.indentLevel - level, DEDENT);
    }
  }

  lemma {:induction false} LineKeepsBalance(s: string, indentSize: nat, st: LexState)
    requires Balanced(st) && st.pos <= |s| && indentSize > 0
    ensures Balanced(LineStart(s, indentSize, st))
    decreases |s| - st.pos
  {
    hide Nested, Depth, RunEnd, CommentEnd, Width;
    var e := RunEnd(s, st.pos, Indentation);
    LevelKeepsBalance(st.(pos := e), Width(s[st.pos..e], indentSize) / indentSize);
    var st1 := Indented(s, indentSize, st);
    assert Balanced(st1);
    var e1 := RunEnd(s, st1.pos, Blanks);
    if e1 < |s| && s[e1] == '\n' {
      LineKeepsBalance(s, indentSize, st1.(pos := e1 + 1, atLineStart := true));
    }
  }

  // Lexemes are plain

  lemma {:induction false} NumbersArePlain(s: string, i: nat)
    requires i < |s| && IsDigit(s[i])
    ensures Plain(NumberAt(s, i).tokens)
  {
    hide RunEnd, IsHexDigit;
  }

  lemma {:induction false} StringsArePlain(s: string, i: nat, quote: char, escaped: bool, value: string, errors: nat)
    requires i <= |s|
    ensures Plain(StringFrom(s, i, quote, escaped, value, errors).tokens)
    decreases |s| - i
  {
    hide SimpleEscape, HexEscape;
    if i == |s| || s[i] == '\n' {
    } else if escaped && s[i] == 'x' && IsHexDigit(At(s, i + 1)) {
      var (e, c) := HexEscape(s, i);
      StringsArePlain(s, if e < |s| then e + 1 else e, quote, false, value + [c], errors);
    } else if escaped && SimpleEscape(s[i]) != [] {
      StringsArePlain(s, i + 1, quote, false, value + SimpleEscape(s[i]), errors);
    } else if escaped {
      StringsArePlain(s, i + 1, quote, false, value + [s[i]], errors + 1);
    } else if s[i] == '\\' {
      StringsArePlain(s, i + 1, quote, true, value, errors);
    } else if s[i] != quote {
      StringsArePlain(s, i + 1, quote, false, value + [s[i]], errors);
    }
  }

  lemma {:induction false} PlainMore(ts: seq<Token>, name: string, text: string)
    requires Plain(ts)
    ensures Plain(ts + [Token(Other(name), text)])
  {
  }

  lemma {:induction false} TemplatesArePlain(s: string, i: nat, value: string, tokens: seq<Token>)
    requires i <= |s| && Plain(tokens)
    ensures Plain(TemplateFrom(s, i, value, tokens).tokens)
    decreases |s| - i
  {
    hide InterpolationEnd, TemplateChar, Plain;
    if i == |s| {
    } else if s[i] == '`' {
      PlainMore(tokens, TEMPLATE_END.name, value);
    } else if s[i] == '$' && At(s, i + 1) == '{' {
      InterpolationsArePlain(s, i, value, tokens);
    } else {
      var (e, part) := TemplateChar(s, i);
      TemplatesArePlain(s, e, value + part, tokens);
    }
  }

  lemma {:induction false} InterpolationsArePlain(s: string, i: nat, value: string, tokens: seq<Token>)
    requires i < |s| && s[i] == '$' && At(s, i + 1) == '{' && Plain(tokens)
    ensures Plain(TemplateFrom(s, i, value, tokens).tokens)
    decreases |s| - i, 0
  {
    hide InterpolationEnd, TemplateChar, Plain;
    var e := InterpolationEnd(s, i + 2, 1);
    var started := tokens + [Token(TEMPLATE_START, value)];
    PlainMore(tokens, TEMPLATE_START.name, value);
    if e < |s| && s[e] != '\n' {
      var text := s[i + 2..e];
      PlainMore(started, TEMPLATE_EXPR.name, text);
      TemplatesArePlain(s, e + 1, "", started + [Token(TEMPLATE_EXPR, text)]);
    }
  }

  lemma {:induction false} LexemesArePlain(s: string, i: nat)
    requires i < |s|
    ensures Plain(LexemeAt(s, i).tokens)
  {
    hide RunEnd, WordKind, NumberAt, OperatorAt, StringFrom, TemplateFrom, InnerCommentEnd;
    if StartsWord(s[i]) {
    } else if IsDigit(s[i]) {
      NumbersArePlain(s, i);
    } else {
      StringsArePlain(s, i + 1, s[i], false, "", 0);
      if i + 1 < |s| {
        TemplatesArePlain(s, i + 2, "", []);
      }
    }
  }

  // The whole text

  lemma {:induction false} TokenKeepsBalance(s: string, indentSize: nat, st: LexState)
    requires Balanced(st) && st.pos < |s| && indentSize > 0
    ensures Balanced(ScanToken(s, indentSize, st))
  {
    hide Nested, Depth, LineStart, SkipEnd, Crosses, LexemeAt;
    LineKeepsBalance(s, indentSize, st);
    var st1 := if st.atLineStart && st.braceDepth == 0 then LineStart(s, indentSize, st) else Skipped(s, st);
    if st1.pos < |s| {
      LexemesArePlain(s, st1.pos);
      GrowPlain(st1.out, LexemeAt(s, st1.pos).tokens);
    }
  }

  lemma {:induction false} ScanKeepsBalance(s: string, indentSize: nat, st: LexState)
    requires Balanced(st) && st.pos <= |s| && indentSize > 0
    ensures Balanced(Scan(s, indentSize, st))
    decreases |s| - st.pos
  {
    hide Nested, Depth, ScanToken;
    if st.pos < |s| && st.errors < MAX_ERRORS {
      TokenKeepsBalance(s, indentSize, st);
      ScanKeepsBalance(s, indentSize, ScanToken(s, indentSize, st));
    }
  }

  lemma {:induction false} StartIsBalanced()
    ensures Balanced(Start())
  {
  }

  /** In every prefix before the end of the scan, the open levels are the lexer's indentLevel. */
  lemma {:induction false} IndentLevelIsDepth(s: string, indentSize: nat)
    requires indentSize > 0
    ensures var st := Scan(s, indentSize, Start());
            Nested(st.out) && Depth(st.out) == st.indentLevel && NoEnd(st.out)
  {
    StartIsBalanced();
    ScanKeepsBalance(s, indentSize, Start());
  }

  /** For every source text, faulty or not: the tokens are nested, every level that is opened is closed, and the end
      marker comes once, at the end. */
  lemma {:induction false} TokensBalance(s: string, indentSize: nat)
    requires indentSize > 0
    ensures var ts := Tokenize(s, indentSize);
            && EndMarked(ts) && NoEnd(ts[..|ts| - 1])
            && Nested(ts) && Depth(ts) == 0
  {
    hide Nested, Depth, Scan;
    StartIsBalanced();
    ScanKeepsBalance(s, indentSize, Start());
    var st := Scan(s, indentSize, Start());
    var body := st.out + Copies(st.indentLevel, DEDENT);
    GrowCopies(st.out, st.indentLevel, DEDENT);
    Grow(body, END);
    assert Tokenize(s, indentSize) == body + [END];
  }
}
