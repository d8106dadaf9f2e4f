/** From trees to text and back, through the lexer and the parser. */
module TextRoundTrip {
  import opened Tokens
  import Lexemes
  import Lex = LexRoundTrip
  import Whitespace
  import opened Grammar
  import opened Statements
  import opened RoundTrip
  import opened StatementRoundTrip

  /** The tree is well formed and each of its tokens can be written. */
  ghost predicate Writable(e: Expr) {
    WellFormed(e) && Lex.AllPrintable(Print(e))
  }

  ghost predicate WritableProgram(ss: seq<Stmt>) {
    (forall s | s in ss :: WellFormedStmt(s)) && Lex.AllPrintable(PrintStmts(ss))
  }

  /** The tokens with the given white space after each. None of it is read as indentation: texts on one line are of this
      kind, and so are texts over several lines whose measured gaps end in lines narrower than the indent size. */
  ghost predicate Writes(text: string, ts: seq<Token>, gaps: seq<string>, indentSize: nat) {
    && |gaps| == |ts| && Lex.AreGaps(gaps) && text == Lex.RenderWith(ts, gaps)
    && Whitespace.Quiet(true, 0, "", ts, gaps, indentSize)
  }

  /** Texts on one line, whatever blanks they use. */
  lemma {:induction false} OneLineWrites(text: string, ts: seq<Token>, gaps: seq<string>, indentSize: nat)
    requires |gaps| == |ts| && Lex.AreGaps(gaps) && text == Lex.RenderWith(ts, gaps)
    requires Lex.OnOneLine(gaps) && indentSize > 0
    ensures Writes(text, ts, gaps, indentSize)
  {
    hide Lex.OnOneLine;
    Whitespace.FirstIsQuiet(ts, gaps, indentSize);
  }

  lemma {:induction false} TokensOfText(text: string, ts: seq<Token>, gaps: seq<string>, indentSize: nat)
    requires Writes(text, ts, gaps, indentSize) && Lex.AllPrintable(ts) && indentSize > 0
    ensures Lexemes.Tokenize(text, indentSize) == ts + [Lexemes.END]
  {
    hide Lex.RenderWith, Lexemes.Tokenize, Lex.AllPrintable, Lex.AreGaps, Whitespace.Quiet;
    Whitespace.QuietTexts(ts, gaps, indentSize);
  }

  /** Writing an expression as text, with any white space between the tokens that is not read as indentation, lexing the
      text and parsing the tokens gives back the tree, reports nothing and consumes everything but the end marker. */
  lemma {:induction false} TextReturns(e: Expr, gaps: seq<string>, text: string, indentSize: nat)
    requires Writable(e) && Writes(text, Print(e), gaps, indentSize) && indentSize > 0
    ensures var ts := Lexemes.Tokenize(text, indentSize);
            EndMarked(ts) && Expression(ts, Cursor(0, [])) == Ok(e, Cursor(|ts| - 1, []))
  {
    hide Writes, Print, WellFormed, Expression, Lexemes.Tokenize, Lex.AllPrintable, Ends;
    TokensOfText(text, Print(e), gaps, indentSize);
    var ts := Print(e) + [Lexemes.END];
    assert ts[0..0 + |Print(e)|] == Print(e);
    EndEnds();
    ExpressionReturns(e, ts, Cursor(0, []));
  }

  lemma {:induction false} EndEnds()
    ensures Ends(ASSIGNMENT, Eof)
  {
  }

  /** So two trees with the same text are the same tree, however the text is spaced. */
  lemma {:induction false} TextIsUnambiguous(
    a: Expr, b: Expr, gaps: seq<string>, gaps': seq<string>, text: string, indentSize: nat)
    requires Writable(a) && Writable(b) && indentSize > 0
    requires Writes(text, Print(a), gaps, indentSize) && Writes(text, Print(b), gaps', indentSize)
    ensures a == b
  {
    hide Writable, Writes, Expression, Lexemes.Tokenize;
    TextReturns(a, gaps, text, indentSize);
    TextReturns(b, gaps', text, indentSize);
  }

  /** The same for whole programs: lexing and parsing the text of a program gives back its statements and reports
      nothing. */
  lemma {:induction false} ProgramTextReturns(ss: seq<Stmt>, gaps: seq<string>, text: string, indentSize: nat)
    requires WritableProgram(ss) && Writes(text, PrintStmts(ss), gaps, indentSize) && indentSize > 0
    ensures var ts := Lexemes.Tokenize(text, indentSize);
            EndMarked(ts) && Program([], ts, Cursor(0, [])) == (ss, Cursor(|ts| - 1, []))
  {
    hide Writes, PrintStmts, WellFormedStmt, Program, Lexemes.Tokenize, Lex.AllPrintable;
    TokensOfText(text, PrintStmts(ss), gaps, indentSize);
    var ts := PrintStmts(ss) + [Lexemes.END];
    assert ts[..|ts| - 1] == PrintStmts(ss);
    ProgramReturns(ss, ts);
  }

  lemma {:induction false} ProgramTextIsUnambiguous(
    a: seq<Stmt>, b: seq<Stmt>, gaps: seq<string>, gaps': seq<string>, text: string, indentSize: nat)
    requires WritableProgram(a) && WritableProgram(b) && indentSize > 0
    requires Writes(text, PrintStmts(a), gaps, indentSize) && Writes(text, PrintStmts(b), gaps', indentSize)
    ensures a == b
  {
    hide WritableProgram, Writes, Program, Lexemes.Tokenize;
    ProgramTextReturns(a, gaps, text, indentSize);
    ProgramTextReturns(b, gaps', text, indentSize);
  }
}
