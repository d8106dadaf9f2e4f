/** The statement grammar of src/parser/parser.cpp as functions of the token list and the parser's state.

    An exception is the result Thrown. A declaration catches what it throws: it skips tokens until a statement can
    begin again, reports the token it has come to and returns no statement. Blocks keep the place of such a declaration,
    programs leave it out. */
module Statements {
  import opened Tokens
  import opened Wrappers
  import opened Grammar

  /** Statement trees with the token each node carries. */
  datatype Stmt =
    | Missing    // the null pointer that declaration returns after an exception
    | ExpressionStmt(tok: Token, expression: Expr)
    | VariableStmt(
        tok: Token, name: string, varType: Option<TypeExpr>, initializer: Option<Expr>, isConstant: bool)
    | BlockStmt(tok: Token, statements: seq<Stmt>)
    | IfStmt(tok: Token, condition: Expr, thenBranch: Stmt, elifBranches: seq<Branch>, elseBranch: Option<Stmt>)
    | WhileStmt(tok: Token, condition: Expr, body: Stmt)
    | ForStmt(tok: Token, name: string, varType: Option<TypeExpr>, iterable: Expr, body: Stmt)
    | FunctionStmt(
        tok: Token, name: string, parameters: seq<Parameter>, returnType: TypeExpr, body: Stmt, isAsync: bool)
    | ReturnStmt(tok: Token, value: Option<Expr>)
    | ClassStmt(tok: Token, name: string, fields: seq<Stmt>, methods: seq<Stmt>)
    | ImportStmt(tok: Token, name: string)
    | MatchStmt(tok: Token, subject: Expr, cases: seq<Branch>, defaultCase: Option<Stmt>)
    | SelectStmt(tok: Token, choices: seq<Choice>)
    | GoStmt(tok: Token, expression: Expr)

  datatype Branch = Branch(test: Expr, body: Stmt)

  /** A case of select; the value that is sent or assigned is not kept. The default has no channel. */
  datatype Choice = Choice(channel: Option<Expr>, body: Stmt)

  /** The type of a function that declares none. */
  const NO_TYPE := Simple(Token(Nil, "None"))

  function Previous(ts: seq<Token>, p: Cursor): Token
    requires Good(ts, p) && p.pos > 0
  {
    ts[p.pos - 1]
  }

  // Recovery

  /** Where panic-mode recovery stops looking. */
  predicate StartsStatement(k: Kind) {
    k == Class || k == Def || k == Async || k == Let || k == Const || k == For || k == If || k == While || k == Return
    || k == Import || k == Match || k == Go || k == Select
  }

  /** Recovery stops before token i. */
  predicate RecoversAt(ts: seq<Token>, i: nat)
    requires 0 < i < |ts|
  {
    ts[i].kind == Eof || ts[i - 1].kind == SemiColon || StartsStatement(ts[i].kind)
  }

  function Recovery(ts: seq<Token>, i: nat): (r: nat)
    requires EndMarked(ts) && 0 < i < |ts|
    ensures i <= r < |ts| && RecoversAt(ts, r) && forall j :: i <= j < r ==> !RecoversAt(ts, j)
    decreases |ts| - i
  {
    if RecoversAt(ts, i) then i else Recovery(ts, i + 1)
  }

  /** Recovery skips the offending token, unless it is the end marker. */
  function Synchronized(ts: seq<Token>, p: Cursor): (r: Cursor)
    requires Good(ts, p) && (KindAt(ts, p) == Eof ==> p.pos > 0)
    ensures Reaches(ts, p, r) && (KindAt(ts, p) != Eof ==> r.pos > p.pos)
    ensures r.pos > 0 && RecoversAt(ts, r.pos) && forall i :: p.pos < i < r.pos ==> !RecoversAt(ts, i)
  {
    Cursor(Recovery(ts, if KindAt(ts, p) == Eof then p.pos else p.pos + 1), p.reports)
  }

  // The program

  /** The declarations up to the end marker; those that failed are left out. */
  function Program(before: seq<Stmt>, ts: seq<Token>, p: Cursor): (r: (seq<Stmt>, Cursor))
    requires Good(ts, p)
    ensures Reaches(ts, p, r.1) && KindAt(ts, r.1) == Eof
    decreases |ts| - p.pos
  {
    if KindAt(ts, p) == Eof then (before, p)
    else
      var (s, q) := Declaration(ts, p);
      Program(if s.Missing? then before else before + [s], ts, q)
  }

  /** A program of one statement is that statement, any other is a block with the program's first token. */
  function Root(statements: seq<Stmt>, ts: seq<Token>): Stmt
    requires EndMarked(ts)
  {
    if |statements| == 1 then statements[0] else BlockStmt(ts[0], statements)
  }

  // Declarations

  /** Catches what its statement throws. Off the end marker it moves the cursor forward, thrown or not. */
  function Declaration(ts: seq<Token>, p: Cursor): (r: (Stmt, Cursor))
    requires Good(ts, p) && KindAt(ts, p) != Eof
    ensures Reaches(ts, p, r.1) && r.1.pos > p.pos
    decreases |ts| - p.pos, 60
  {
    hide TryDeclaration, Recover;
    var r := TryDeclaration(ts, p);
    if r.Ok? then (r.value, r.rest) else (Missing, Recover(ts, r.rest))
  }

  /** Exactly what throws is missing, and a missing statement is reported where the parser goes on: at the end, behind
      a semicolon or at a token that starts a statement. */
  lemma {:induction false} MissingIsReported(ts: seq<Token>, p: Cursor)
    requires Good(ts, p) && KindAt(ts, p) != Eof
    ensures var (s, q) := Declaration(ts, p);
            && (s.Missing? <==> TryDeclaration(ts, p).Thrown?)
            && (s.Missing? ==>
                  q.pos > 0 && RecoversAt(ts, q.pos) && q.reports != []
                  && q.reports[|q.reports| - 1] == Recovered(ts[q.pos]))
  {
    hide TryDeclaration;
  }

  function Recover(ts: seq<Token>, p: Cursor): (r: Cursor)
    requires Good(ts, p) && (KindAt(ts, p) == Eof ==> p.pos > 0)
    ensures Reaches(ts, p, r) && (KindAt(ts, p) != Eof ==> r.pos > p.pos)
  {
    var q := Synchronized(ts, p);
    q.Blame(Recovered(ts[q.pos]))
  }

  /** What declaration runs under its handler. */
  function TryDeclaration(ts: seq<Token>, p: Cursor): (r: Result<Stmt>)
    requires Good(ts, p) && KindAt(ts, p) != Eof
    ensures Reaches(ts, p, r.rest) && (r.Ok? ==> r.rest.pos > p.pos)
    ensures r.Ok? ==> !r.value.Missing?
    decreases |ts| - p.pos, 59
  {
    hide VarDeclaration, FunctionDeclaration, ClassDeclaration, ImportRest, Statement;
    var k := KindAt(ts, p);
    if k == Let || k == Const then VarDeclaration(ts, p.Advance())
    else if k == Def || k == Async then FunctionDeclaration(ts, p.Advance())
    else if k == Class then ClassDeclaration(ts, p.Advance())
    else if k == Import then ImportRest(ts, p.Advance())
    else Statement(ts, p)
  }

  function VarDeclaration(ts: seq<Token>, p: Cursor): (r: Result<Stmt>)
    requires Good(ts, p) && p.pos > 0
    ensures Reaches(ts, p, r.rest)
    ensures r.Ok? ==> !r.value.Missing?
  {
    hide OptionalType, OptionalInitializer, Consume;
    var (name, q) := Consume(ts, p, Identifier);
    var (varType, q1) :- OptionalType(ts, q);
    var (initializer, q2) :- OptionalInitializer(ts, q1);
    var (_, q3) := Consume(ts, q2, SemiColon);
    Ok(VariableStmt(name, name.text, varType, initializer, Previous(ts, p).kind == Const), q3)
  }

  function OptionalType(ts: seq<Token>, p: Cursor): (r: Result<Option<TypeExpr>>)
    requires Good(ts, p)
    ensures Reaches(ts, p, r.rest)
  {
    hide ParseType;
    if KindAt(ts, p) == Colon then
      var (t, q) :- ParseType(ts, p.Advance());
      Ok(Some(t), q)
    else Ok(None, p)
  }

  function OptionalInitializer(ts: seq<Token>, p: Cursor): (r: Result<Option<Expr>>)
    requires Good(ts, p)
    ensures Reaches(ts, p, r.rest)
  {
    hide Expression;
    if KindAt(ts, p) == Equal then
      var (e, q) :- Expression(ts, p.Advance());
      Ok(Some(e), q)
    else Ok(None, p)
  }

  function FunctionDeclaration(ts: seq<Token>, p: Cursor): (r: Result<Stmt>)
    requires Good(ts, p) && p.pos > 0
    ensures Reaches(ts, p, r.rest)
    ensures r.Ok? ==> !r.value.Missing?
    decreases |ts| - p.pos, 64
  {
    hide FunctionHead, Braced, Function;
    var (head, q) :- FunctionHead(ts, p);
    var (body, q1) := Braced(ts, q);
    Ok(Function(head, body, Previous(ts, p).kind == Async), q1)
  }

  function Function(head: Head, body: Stmt, isAsync: bool): (r: Stmt)
    ensures !r.Missing?
  {
    FunctionStmt(head.tok, head.tok.text, head.parameters, head.returnType, body, isAsync)
  }

  datatype Head = Head(tok: Token, parameters: seq<Parameter>, returnType: TypeExpr)

  /** A function up to its body. */
  function FunctionHead(ts: seq<Token>, p: Cursor): (r: Result<Head>)
    requires Good(ts, p) && p.pos > 0
    ensures Reaches(ts, p, r.rest)
  {
    hide DefAfterAsync, ParametersInParens, ReturnType, Consume;
    var (name, q) := Consume(ts, DefAfterAsync(ts, p), Identifier);
    var (parameters, q1) :- ParametersInParens(ts, q);
    var (returnType, q2) :- ReturnType(ts, q1);
    Ok(Head(name, parameters, returnType), q2)
  }

  function ParametersInParens(ts: seq<Token>, p: Cursor): (r: Result<seq<Parameter>>)
    requires Good(ts, p)
    ensures Reaches(ts, p, r.rest)
  {
    hide Parameters, Consume;
    var (_, q) := Consume(ts, p, LeftParen);
    var (parameters, q1) :- Parameters(ts, q);
    var (_, q2) := Consume(ts, q1, RightParen);
    Ok(parameters, q2)
  }

  /** A missing def is blamed on the async. */
  function DefAfterAsync(ts: seq<Token>, p: Cursor): (r: Cursor)
    requires Good(ts, p) && p.pos > 0
    ensures Reaches(ts, p, r)
  {
    if Previous(ts, p).kind != Async then p
    else if KindAt(ts, p) == Def then p.Advance()
    else p.Blame(Unexpected(Previous(ts, p)))
  }

  function ReturnType(ts: seq<Token>, p: Cursor): (r: Result<TypeExpr>)
    requires Good(ts, p)
    ensures Reaches(ts, p, r.rest)
  {
    hide ParseType;
    if KindAt(ts, p) == Arrow || KindAt(ts, p) == Colon then ParseType(ts, p.Advance()) else Ok(NO_TYPE, p)
  }

  function ClassDeclaration(ts: seq<Token>, p: Cursor): (r: Result<Stmt>)
    requires Good(ts, p)
    ensures Reaches(ts, p, r.rest)
    ensures r.Ok? ==> !r.value.Missing?
    decreases |ts| - p.pos, 67
  {
    hide ClassBody, Consume;
    var (name, q) := Consume(ts, p, Identifier);
    var (members, q1) :- ClassBody(ts, q);
    Ok(ClassStmt(name, name.text, members.0, members.1), q1)
  }

  function ClassBody(ts: seq<Token>, p: Cursor): (r: Result<(seq<Stmt>, seq<Stmt>)>)
    requires Good(ts, p)
    ensures Reaches(ts, p, r.rest)
    decreases |ts| - p.pos, 66
  {
    hide Members, Consume;
    var (_, q) := Consume(ts, p, LeftBrace);
    var (members, q1) :- Members([], [], ts, q);
    var (_, q2) := Consume(ts, q1, RightBrace);
    Ok(members, q2)
  }

  /** The fields and the methods up to the closing brace. */
  function Members(
    fields: seq<Stmt>, methods: seq<Stmt>, ts: seq<Token>, p: Cursor): (r: Result<(seq<Stmt>, seq<Stmt>)>)
    requires Good(ts, p)
    ensures Reaches(ts, p, r.rest)
    decreases |ts| - p.pos, 65
  {
    hide Member;
    if KindAt(ts, p) == RightBrace || KindAt(ts, p) == Eof then Ok((fields, methods), p)
    else
      var (members, q) :- Member(fields, methods, ts, p);
      Members(members.0, members.1, ts, q)
  }

  /** One more field or method; any other token is reported and skipped. */
  function Member(
    fields: seq<Stmt>, methods: seq<Stmt>, ts: seq<Token>, p: Cursor): (r: Result<(seq<Stmt>, seq<Stmt>)>)
    requires Good(ts, p) && KindAt(ts, p) != Eof
    ensures Reaches(ts, p, r.rest) && r.rest.pos > p.pos
    decreases |ts| - p.pos, 64
  {
    hide Field, Method;
    var k := KindAt(ts, p);
    if k == Let || k == Const then Field(fields, methods, ts, p.Advance())
    else if k == Def || k == Async then Method(fields, methods, ts, p.Advance())
    else Ok((fields, methods), p.Blame(Unexpected(ts[p.pos])).Advance())
  }

  function Field(
    fields: seq<Stmt>, methods: seq<Stmt>, ts: seq<Token>, p: Cursor): (r: Result<(seq<Stmt>, seq<Stmt>)>)
    requires Good(ts, p) && p.pos > 0
    ensures Reaches(ts, p, r.rest)
  {
    hide VarDeclaration;
    var (s, q) :- VarDeclaration(ts, p);
    Ok((fields + [s], methods), q)
  }

  function Method(
    fields: seq<Stmt>, methods: seq<Stmt>, ts: seq<Token>, p: Cursor): (r: Result<(seq<Stmt>, seq<Stmt>)>)
    requires Good(ts, p) && p.pos > 0
    ensures Reaches(ts, p, r.rest)
    decreases |ts| - p.pos, 65
  {
    hide FunctionDeclaration;
    var (s, q) :- FunctionDeclaration(ts, p);
    Ok((fields, methods + [s]), q)
  }

  function ImportRest(ts: seq<Token>, p: Cursor): (r: Result<Stmt>)
    requires Good(ts, p)
    ensures Reaches(ts, p, r.rest)
    ensures r.Ok? ==> !r.value.Missing?
  {
    hide Consume;
    var (name, q) := Consume(ts, p, Identifier);
    var (_, q1) := Consume(ts, q, SemiColon);
    Ok(ImportStmt(name, name.text), q1)
  }

  // Statements

  function Statement(ts: seq<Token>, p: Cursor): (r: Result<Stmt>)
    requires Good(ts, p) && KindAt(ts, p) != Eof
    ensures Reaches(ts, p, r.rest) && (r.Ok? ==> r.rest.pos > p.pos)
    ensures r.Ok? ==> !r.value.Missing?
    decreases |ts| - p.pos, 58
  {
    hide IfRest, WhileRest, ForRest, BlockRest, SimpleStatement;
    var k := KindAt(ts, p);
    if k == If then IfRest(ts, p.Advance())
    else if k == While then WhileRest(ts, p.Advance())
    else if k == For then ForRest(ts, p.Advance())
    else if k == LeftBrace then BlockRest(ts, p.Advance())
    else SimpleStatement(ts, p)
  }

  function SimpleStatement(ts: seq<Token>, p: Cursor): (r: Result<Stmt>)
    requires Good(ts, p) && KindAt(ts, p) != Eof
    ensures Reaches(ts, p, r.rest) && (r.Ok? ==> r.rest.pos > p.pos)
    ensures r.Ok? ==> !r.value.Missing?
    decreases |ts| - p.pos, 57
  {
    hide ReturnRest, MatchRest, GoRest, SelectRest, ExpressionRest;
    var k := KindAt(ts, p);
    if k == Return then ReturnRest(ts, p.Advance())
    else if k == Match then MatchRest(ts, p.Advance())
    else if k == Go then GoRest(ts, p.Advance())
    else if k == Select then SelectRest(ts, p.Advance())
    else ExpressionRest(ts, p)
  }

  function BlockRest(ts: seq<Token>, p: Cursor): (r: Result<Stmt>)
    requires Good(ts, p) && p.pos > 0
    ensures Reaches(ts, p, r.rest)
    ensures r.Ok? ==> !r.value.Missing?
    decreases |ts| - p.pos, 63
  {
    hide Block;
    var (b, q) := Block(ts, p);
    Ok(b, q)
  }

  function ExpressionRest(ts: seq<Token>, p: Cursor): (r: Result<Stmt>)
    requires Good(ts, p)
    ensures Reaches(ts, p, r.rest) && (r.Ok? ==> r.rest.pos > p.pos)
    ensures r.Ok? ==> !r.value.Missing?
  {
    hide Expression, Consume;
    var (e, q) :- Expression(ts, p);
    var (_, q1) := Consume(ts, q, SemiColon);
    Ok(ExpressionStmt(TokenOf(e), e), q1)
  }

  /** A block behind its opening brace. Its declarations catch what they throw, so it throws nothing. */
  function Block(ts: seq<Token>, p: Cursor): (r: (Stmt, Cursor))
    requires Good(ts, p) && p.pos > 0
    ensures Reaches(ts, p, r.1)
    decreases |ts| - p.pos, 62
  {
    hide BlockItems, Consume;
    var (statements, q) := BlockItems([], ts, p);
    var (_, q1) := Consume(ts, q, RightBrace);
    (BlockStmt(Previous(ts, q1), statements), q1)
  }

  /** The declarations up to the closing brace or the end; those that failed are kept as Missing. */
  function BlockItems(before: seq<Stmt>, ts: seq<Token>, p: Cursor): (r: (seq<Stmt>, Cursor))
    requires Good(ts, p)
    ensures Reaches(ts, p, r.1) && (KindAt(ts, r.1) == RightBrace || KindAt(ts, r.1) == Eof)
    decreases |ts| - p.pos, 61
  {
    hide Declaration;
    if KindAt(ts, p) == RightBrace || KindAt(ts, p) == Eof then (before, p)
    else
      var (s, q) := Declaration(ts, p);
      BlockItems(before + [s], ts, q)
  }

  function Braced(ts: seq<Token>, p: Cursor): (r: (Stmt, Cursor))
    requires Good(ts, p) && p.pos > 0
    ensures Reaches(ts, p, r.1)
    decreases |ts| - p.pos, 63
  {
    hide Block, Consume;
    var (_, q) := Consume(ts, p, LeftBrace);
    Block(ts, q)
  }

  /** An expression and a block in braces. */
  function Guarded(ts: seq<Token>, p: Cursor): (r: Result<Branch>)
    requires Good(ts, p) && p.pos > 0
    ensures Reaches(ts, p, r.rest)
    decreases |ts| - p.pos, 64
  {
    hide Expression, Braced;
    var (e, q) :- Expression(ts, p);
    var (b, q1) := Braced(ts, q);
    Ok(Branch(e, b), q1)
  }

  function IfRest(ts: seq<Token>, p: Cursor): (r: Result<Stmt>)
    requires Good(ts, p) && p.pos > 0
    ensures Reaches(ts, p, r.rest)
    ensures r.Ok? ==> !r.value.Missing?
    decreases |ts| - p.pos, 66
  {
    hide Guarded, Elifs, OptionalElse;
    var (b, q) :- Guarded(ts, p);
    var (elifs, q1) :- Elifs([], ts, q);
    var (otherwise, q2) := OptionalElse(ts, q1);
    Ok(IfStmt(TokenOf(b.test), b.test, b.body, elifs, otherwise), q2)
  }

  function Elifs(before: seq<Branch>, ts: seq<Token>, p: Cursor): (r: Result<seq<Branch>>)
    requires Good(ts, p)
    ensures Reaches(ts, p, r.rest)
    decreases |ts| - p.pos, 65
  {
    hide Guarded;
    if KindAt(ts, p) == Elif then
      var (b, q) :- Guarded(ts, p.Advance());
      Elifs(before + [b], ts, q)
    else Ok(before, p)
  }

  function OptionalElse(ts: seq<Token>, p: Cursor): (r: (Option<Stmt>, Cursor))
    requires Good(ts, p)
    ensures Reaches(ts, p, r.1)
    decreases |ts| - p.pos, 65
  {
    hide Braced;
    if KindAt(ts, p) == Else then
      var (b, q) := Braced(ts, p.Advance());
      (Some(b), q)
    else (None, p)
  }

  function WhileRest(ts: seq<Token>, p: Cursor): (r: Result<Stmt>)
    requires Good(ts, p) && p.pos > 0
    ensures Reaches(ts, p, r.rest)
    ensures r.Ok? ==> !r.value.Missing?
    decreases |ts| - p.pos, 65
  {
    hide Guarded;
    var (b, q) :- Guarded(ts, p);
    Ok(WhileStmt(TokenOf(b.test), b.test, b.body), q)
  }

  function ForRest(ts: seq<Token>, p: Cursor): (r: Result<Stmt>)
    requires Good(ts, p) && p.pos > 0
    ensures Reaches(ts, p, r.rest)
    ensures r.Ok? ==> !r.value.Missing?
    decreases |ts| - p.pos, 65
  {
    hide OptionalType, Guarded, Consume;
    var (name, q) := Consume(ts, p, Identifier);
    var (varType, q1) :- OptionalType(ts, q);
    var (_, q2) := Consume(ts, q1, In);
    var (b, q3) :- Guarded(ts, q2);
    Ok(ForStmt(name, name.text, varType, b.test, b.body), q3)
  }

  function ReturnRest(ts: seq<Token>, p: Cursor): (r: Result<Stmt>)
    requires Good(ts, p) && p.pos > 0
    ensures Reaches(ts, p, r.rest)
    ensures r.Ok? ==> !r.value.Missing?
  {
    hide OptionalValue, Consume;
    var (value, q) :- OptionalValue(ts, p);
    var (_, q1) := Consume(ts, q, SemiColon);
    Ok(ReturnStmt(Previous(ts, p), value), q1)
  }

  function OptionalValue(ts: seq<Token>, p: Cursor): (r: Result<Option<Expr>>)
    requires Good(ts, p)
    ensures Reaches(ts, p, r.rest)
  {
    hide Expression;
    if KindAt(ts, p) == SemiColon then Ok(None, p)
    else
      var (e, q) :- Expression(ts, p);
      Ok(Some(e), q)
  }

  function MatchRest(ts: seq<Token>, p: Cursor): (r: Result<Stmt>)
    requires Good(ts, p)
    ensures Reaches(ts, p, r.rest)
    ensures r.Ok? ==> !r.value.Missing?
    decreases |ts| - p.pos, 67
  {
    hide Expression, Cases, Consume;
    var (e, q) :- Expression(ts, p);
    var (_, q1) := Consume(ts, q, LeftBrace);
    var (cases, q2) :- Cases([], None, ts, q1);
    var (_, q3) := Consume(ts, q2, RightBrace);
    Ok(MatchStmt(TokenOf(e), e, cases.0, cases.1), q3)
  }

  /** The cases and the last default up to the closing brace. */
  function Cases(before: seq<Branch>, otherwise: Option<Stmt>, ts: seq<Token>, p: Cursor)
    : (r: Result<(seq<Branch>, Option<Stmt>)>)
    requires Good(ts, p)
    ensures Reaches(ts, p, r.rest)
    decreases |ts| - p.pos, 66
  {
    hide CaseAt;
    if KindAt(ts, p) == RightBrace || KindAt(ts, p) == Eof then Ok((before, otherwise), p)
    else
      var (cases, q) :- CaseAt(before, otherwise, ts, p);
      Cases(cases.0, cases.1, ts, q)
  }

  /** One more case, or another default; any other token is reported and skipped. */
  function CaseAt(before: seq<Branch>, otherwise: Option<Stmt>, ts: seq<Token>, p: Cursor)
    : (r: Result<(seq<Branch>, Option<Stmt>)>)
    requires Good(ts, p) && KindAt(ts, p) != Eof
    ensures Reaches(ts, p, r.rest) && r.rest.pos > p.pos
    decreases |ts| - p.pos, 65
  {
    hide CaseRest, DefaultRest;
    var k := KindAt(ts, p);
    if k == Case then
      var (b, q) :- CaseRest(ts, p.Advance());
      Ok((before + [b], otherwise), q)
    else if k == Default then
      var (b, q) := DefaultRest(ts, p.Advance());
      Ok((before, Some(b)), q)
    else Ok((before, otherwise), p.Blame(Unexpected(ts[p.pos])).Advance())
  }

  /** A case ends with a brace that it does not open. */
  function CaseRest(ts: seq<Token>, p: Cursor): (r: Result<Branch>)
    requires Good(ts, p) && p.pos > 0
    ensures Reaches(ts, p, r.rest)
    decreases |ts| - p.pos, 64
  {
    hide Expression, DefaultRest;
    var (e, q) :- Expression(ts, p);
    var (b, q1) := DefaultRest(ts, q);
    Ok(Branch(e, b), q1)
  }

  function DefaultRest(ts: seq<Token>, p: Cursor): (r: (Stmt, Cursor))
    requires Good(ts, p) && p.pos > 0
    ensures Reaches(ts, p, r.1)
    decreases |ts| - p.pos, 63
  {
    hide Block, Consume;
    var (_, q) := Consume(ts, p, Colon);
    Block(ts, q)
  }

  function GoRest(ts: seq<Token>, p: Cursor): (r: Result<Stmt>)
    requires Good(ts, p) && p.pos > 0
    ensures Reaches(ts, p, r.rest)
    ensures r.Ok? ==> !r.value.Missing?
  {
    hide Expression, Consume;
    var (_, q) := Consume(ts, p, LeftParen);
    var (e, q1) :- Expression(ts, q);
    var (_, q2) := Consume(ts, q1, RightParen);
    var (_, q3) := Consume(ts, q2, SemiColon);
    Ok(GoStmt(Previous(ts, p), e), q3)
  }

  function SelectRest(ts: seq<Token>, p: Cursor): (r: Result<Stmt>)
    requires Good(ts, p) && p.pos > 0
    ensures Reaches(ts, p, r.rest)
    ensures r.Ok? ==> !r.value.Missing?
    decreases |ts| - p.pos, 67
  {
    hide Choices, Consume;
    var (_, q) := Consume(ts, p, LeftBrace);
    var (choices, q1) :- Choices([], ts, q);
    var (_, q2) := Consume(ts, q1, RightBrace);
    Ok(SelectStmt(Previous(ts, p), choices), q2)
  }

  function Choices(before: seq<Choice>, ts: seq<Token>, p: Cursor): (r: Result<seq<Choice>>)
    requires Good(ts, p)
    ensures Reaches(ts, p, r.rest)
    decreases |ts| - p.pos, 66
  {
    hide ChoiceAt;
    if KindAt(ts, p) == RightBrace || KindAt(ts, p) == Eof then Ok(before, p)
    else
      var (choices, q) :- ChoiceAt(before, ts, p);
      Choices(choices, ts, q)
  }

  function ChoiceAt(before: seq<Choice>, ts: seq<Token>, p: Cursor): (r: Result<seq<Choice>>)
    requires Good(ts, p) && KindAt(ts, p) != Eof
    ensures Reaches(ts, p, r.rest) && r.rest.pos > p.pos
    decreases |ts| - p.pos, 65
  {
    hide ChoiceRest, DefaultRest;
    var k := KindAt(ts, p);
    if k == Case then
      var (c, q) :- ChoiceRest(ts, p.Advance());
      Ok(before + [c], q)
    else if k == Default then
      var (b, q) := DefaultRest(ts, p.Advance());
      Ok(before + [Choice(None, b)], q)
    else Ok(before, p.Blame(Unexpected(ts[p.pos])).Advance())
  }

  function ChoiceRest(ts: seq<Token>, p: Cursor): (r: Result<Choice>)
    requires Good(ts, p) && p.pos > 0
    ensures Reaches(ts, p, r.rest)
    decreases |ts| - p.pos, 64
  {
    hide ChoiceChannel, DefaultRest;
    var (channel, q) :- ChoiceChannel(ts, p);
    var (b, q1) := DefaultRest(ts, q);
    Ok(Choice(Some(channel), b), q1)
  }

  /** The channel of a send, which stands before the arrow, or of a receive, which stands behind it. */
  function ChoiceChannel(ts: seq<Token>, p: Cursor): (r: Result<Expr>)
    requires Good(ts, p)
    ensures Reaches(ts, p, r.rest)
  {
    hide Expression, Consume;
    var (first, q) :- Expression(ts, p);
    if KindAt(ts, q) == ChannelSend then
      var (_, q1) :- Expression(ts, q.Advance());
      Ok(first, q1)
    else if TokenOf(first).kind == ChannelReceive then Expression(ts, q)
    else
      var (_, q1) := Consume(ts, q, ChannelReceive);
      Expression(ts, q1)
  }
}
