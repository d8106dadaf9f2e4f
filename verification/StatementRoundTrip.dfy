/** Printing a program and parsing it again. Every type and every statement but select has a printed form; wherever it
    stands in a token list, and nothing behind it can be taken for more of it, the functions of modules Grammar and
    Statements read back exactly the tree that was printed and report nothing. */
module StatementRoundTrip {
  // There is one lemma for each function of the grammar, named after what it reads. Each takes the text at the cursor
  // apart, part by part, and hands every part to the lemma of the function that reads it.

  import opened Tokens
  import opened Wrappers
  import opened Grammar
  import opened Statements
  import opened RoundTrip

  const RBRACE := Token(RightBrace, "}")
  const SEMICOLON := Token(SemiColon, ";")
  const EQUAL := Token(Equal, "=")
  const LESS := Token(Less, "<")
  const GREATER := Token(Greater, ">")
  const ARROW := Token(Arrow, "->")
  const LET := Token(Let, "let")
  const CONST := Token(Const, "const")
  const ASYNC := Token(Async, "async")
  const DEF := Token(Def, "def")
  const CLASS := Token(Class, "class")
  const IMPORT := Token(Import, "import")
  const IF := Token(If, "if")
  const ELIF := Token(Elif, "elif")
  const ELSE := Token(Else, "else")
  const WHILE := Token(While, "while")
  const FOR := Token(For, "for")
  const IN := Token(In, "in")
  const MATCH := Token(Match, "match")
  const CASE := Token(Case, "case")
  const DEFAULT := Token(Default, "default")

  // Printed types

  function PrintType(t: TypeExpr): seq<Token>
    decreases t, 1
  {
    match t
    case Simple(tok) => [tok]
    case Generic(tok, _, arguments) => [tok] + ([LESS] + (PrintTypes(arguments) + [GREATER]))
    case FunctionOf(tok, parameters, result) =>
      [tok] + ([LPAREN] + (PrintTypes(parameters) + ([RPAREN] + ([ARROW] + PrintType(result)))))
  }

  function PrintTypes(ts: seq<TypeExpr>): seq<Token>
    decreases ts, 0
  {
    if ts == [] then []
    else if |ts| == 1 then PrintType(ts[0])
    else PrintType(ts[0]) + ([COMMA] + PrintTypes(ts[1..]))
  }

  predicate WellFormedType(t: TypeExpr) {
    && t.tok.kind == Identifier
    && match t
       case Simple(_) => true
       case Generic(tok, name, arguments) =>
         name == tok.text && arguments != [] && forall x | x in arguments :: WellFormedType(x)
       case FunctionOf(_, parameters, result) =>
         WellFormedType(result) && forall x | x in parameters :: WellFormedType(x)
  }

  /** A token that cannot continue a type. */
  predicate EndsType(k: Kind) {
    k != Less && k != LeftParen && k != Or
  }

  function PrintOptionalType(t: Option<TypeExpr>): seq<Token> {
    match t
    case None => []
    case Some(x) => [COLON] + PrintType(x)
  }

  function PrintParameter(x: Parameter): seq<Token> {
    [Token(Identifier, x.name)] + ([COLON] + PrintType(x.paramType))
  }

  function PrintParameters(xs: seq<Parameter>): seq<Token> {
    if xs == [] then []
    else if |xs| == 1 then PrintParameter(xs[0])
    else PrintParameter(xs[0]) + ([COMMA] + PrintParameters(xs[1..]))
  }

  /** A function that declares no type is printed without one. */
  function PrintReturnType(t: TypeExpr): seq<Token> {
    if t == NO_TYPE then [] else [ARROW] + PrintType(t)
  }

  // Printed statements

  /** The tokens of a statement. A select has no printed form: its tree does not keep the values of its cases. */
  function PrintStmt(s: Stmt): seq<Token>
    decreases s, 3
  {
    match s
    case ExpressionStmt(_, e) => Print(e) + [SEMICOLON]
    case VariableStmt(_, _, _, _, isConstant) => [if isConstant then CONST else LET] + PrintVariable(s)
    case BlockStmt(_, _) => [LBRACE] + PrintBody(s)
    case IfStmt(_, condition, body, elifs, otherwise) =>
      [IF] + (PrintGuarded(condition, body) + (PrintElifs(elifs) + PrintElse(otherwise)))
    case WhileStmt(_, condition, body) => [WHILE] + PrintGuarded(condition, body)
    case ForStmt(tok, _, varType, iterable, body) =>
      [FOR] + ([tok] + (PrintOptionalType(varType) + ([IN] + PrintGuarded(iterable, body))))
    case FunctionStmt(_, _, _, _, body, isAsync) =>
      if isAsync then [ASYNC] + ([DEF] + PrintFunction(s)) else [DEF] + PrintFunction(s)
    case ReturnStmt(tok, value) => [tok] + (PrintOptional(value) + [SEMICOLON])
    case ClassStmt(tok, _, fields, methods) =>
      [CLASS] + ([tok] + ([LBRACE] + (PrintStmts(fields) + (PrintStmts(methods) + [RBRACE]))))
    case ImportStmt(tok, _) => [IMPORT] + ([tok] + [SEMICOLON])
    case MatchStmt(_, subject, cases, otherwise) =>
      [MATCH] + (Print(subject) + ([LBRACE] + (PrintCases(cases) + (PrintDefault(otherwise) + [RBRACE]))))
    case GoStmt(tok, e) => [tok] + ([LPAREN] + (Print(e) + ([RPAREN] + [SEMICOLON])))
    case _ => []
  }

  function PrintStmts(ss: seq<Stmt>): seq<Token>
    decreases ss, 0
  {
    if ss == [] then [] else PrintStmt(ss[0]) + PrintStmts(ss[1..])
  }

  /** A block behind its opening brace. */
  function PrintBody(b: Stmt): seq<Token>
    decreases b, 0
  {
    if b.BlockStmt? then PrintStmts(b.statements) + [b.tok] else []
  }

  function PrintGuarded(e: Expr, b: Stmt): seq<Token>
    decreases b, 1
  {
    Print(e) + ([LBRACE] + PrintBody(b))
  }

  function PrintElifs(bs: seq<Branch>): seq<Token>
    decreases bs, 0
  {
    if bs == [] then [] else PrintElif(bs[0]) + PrintElifs(bs[1..])
  }

  function PrintElif(b: Branch): seq<Token>
    decreases b, 0
  {
    [ELIF] + PrintGuarded(b.test, b.body)
  }

  function PrintElse(b: Option<Stmt>): seq<Token>
    decreases b, 0
  {
    match b
    case None => []
    case Some(body) => [ELSE] + ([LBRACE] + PrintBody(body))
  }

  function PrintCases(bs: seq<Branch>): seq<Token>
    decreases bs, 0
  {
    if bs == [] then [] else PrintCase(bs[0]) + PrintCases(bs[1..])
  }

  /** A case ends with the brace of its body, which no brace opens. */
  function PrintCase(b: Branch): seq<Token>
    decreases b, 0
  {
    [CASE] + (Print(b.test) + ([COLON] + PrintBody(b.body)))
  }

  function PrintDefault(b: Option<Stmt>): seq<Token>
    decreases b, 0
  {
    match b
    case None => []
    case Some(body) => [DEFAULT] + ([COLON] + PrintBody(body))
  }

  function PrintOptional(e: Option<Expr>): seq<Token> {
    match e
    case None => []
    case Some(x) => Print(x)
  }

  function PrintInitializer(e: Option<Expr>): seq<Token> {
    match e
    case None => []
    case Some(x) => [EQUAL] + Print(x)
  }

  function PrintVariable(s: Stmt): seq<Token>
    requires s.VariableStmt?
  {
    [s.tok] + (PrintOptionalType(s.varType) + (PrintInitializer(s.initializer) + [SEMICOLON]))
  }

  function PrintFunction(s: Stmt): seq<Token>
    requires s.FunctionStmt?
    decreases s, 2
  {
    PrintHead(Head(s.tok, s.parameters, s.returnType)) + ([LBRACE] + PrintBody(s.body))
  }

  function PrintHead(h: Head): seq<Token> {
    [h.tok] + ([LPAREN] + (PrintParameters(h.parameters) + ([RPAREN] + PrintReturnType(h.returnType))))
  }

  // Well-formed statements

  predicate IsName(tok: Token, name: string) {
    tok.kind == Identifier && name == tok.text
  }

  predicate WellFormedOption(e: Option<Expr>) {
    e.Some? ==> WellFormed(e.value)
  }

  predicate WellFormedTypeOption(t: Option<TypeExpr>) {
    t.Some? ==> WellFormedType(t.value)
  }

  predicate WellFormedHead(h: Head) {
    && h.tok.kind == Identifier && (forall x | x in h.parameters :: WellFormedType(x.paramType))
    && (h.returnType == NO_TYPE || WellFormedType(h.returnType))
  }

  /** An expression that a statement can consist of: a leading brace would open a block. */
  predicate StandsAlone(e: Expr) {
    WellFormed(e) && (Print(e) != [] ==> Print(e)[0].kind != LeftBrace)
  }

  /** The statement can be printed, and the tokens its nodes carry are those of its text. */
  predicate WellFormedStmt(s: Stmt)
    decreases s, 1
  {
    match s
    case ExpressionStmt(tok, e) => StandsAlone(e) && tok == TokenOf(e)
    case VariableStmt(tok, name, varType, initializer, _) =>
      IsName(tok, name) && WellFormedTypeOption(varType) && WellFormedOption(initializer)
    case BlockStmt(tok, statements) => IsBody(s)
    case IfStmt(tok, condition, body, elifs, otherwise) =>
      && WellFormed(condition) && tok == TokenOf(condition) && IsBody(body)
      && (forall b | b in elifs :: WellFormed(b.test) && IsBody(b.body))
      && (otherwise.Some? ==> IsBody(otherwise.value))
    case WhileStmt(tok, condition, body) => WellFormed(condition) && tok == TokenOf(condition) && IsBody(body)
    case ForStmt(tok, name, varType, iterable, body) =>
      IsName(tok, name) && WellFormedTypeOption(varType) && WellFormed(iterable) && IsBody(body)
    case FunctionStmt(tok, name, parameters, returnType, body, _) =>
      IsName(tok, name) && WellFormedHead(Head(tok, parameters, returnType)) && IsBody(body)
    case ReturnStmt(tok, value) => tok.kind == Return && WellFormedOption(value)
    case ClassStmt(tok, name, fields, methods) =>
      && IsName(tok, name) && (forall x | x in fields :: x.VariableStmt? && WellFormedStmt(x))
      && (forall x | x in methods :: x.FunctionStmt? && WellFormedStmt(x))
    case ImportStmt(tok, name) => IsName(tok, name)
    case MatchStmt(tok, subject, cases, otherwise) =>
      && WellFormed(subject) && tok == TokenOf(subject)
      && (forall b | b in cases :: WellFormed(b.test) && IsBody(b.body))
      && (otherwise.Some? ==> IsBody(otherwise.value))
    case GoStmt(tok, e) => tok.kind == Go && WellFormed(e)
    case _ => false
  }

  predicate IsBody(b: Stmt)
    decreases b, 0
  {
    b.BlockStmt? && b.tok.kind == RightBrace && forall s | s in b.statements :: WellFormedStmt(s)
  }

  // Text at a position

  /** The text stands at p, and a further token follows it. */
  ghost predicate At(ts: seq<Token>, p: Cursor, text: seq<Token>) {
    Good(ts, p) && Has(ts, p.pos, text) && p.pos + |text| < |ts|
  }

  /** The type of the token behind a text. */
  function Next(ts: seq<Token>, p: Cursor, text: seq<Token>): Kind
    requires p.pos + |text| < |ts|
  {
    ts[p.pos + |text|].kind
  }

  lemma {:induction false} Split(ts: seq<Token>, p: Cursor, a: seq<Token>, b: seq<Token>)
    requires At(ts, p, a + b)
    ensures At(ts, p, a) && At(ts, After(p, a), b) && After(After(p, a), b) == After(p, a + b)
    ensures b != [] ==> Next(ts, p, a) == b[0].kind
    ensures Next(ts, After(p, a), b) == Next(ts, p, a + b)
  {
    hide Has;
    HasSplit(ts, p.pos, a, b);
    if b != [] {
      FirstOf(ts, p.pos + |a|, b);
    }
  }

  /** The expected token stands at p, with more behind it. */
  lemma {:induction false} Peel(ts: seq<Token>, p: Cursor, t: Token, rest: seq<Token>)
    requires At(ts, p, [t] + rest) && t.kind != Eof
    ensures ts[p.pos] == t && Consume(ts, p, t.kind) == (t, p.Advance())
    ensures At(ts, p.Advance(), rest) && After(p.Advance(), rest) == After(p, [t] + rest)
    ensures Next(ts, p.Advance(), rest) == Next(ts, p, [t] + rest)
  {
    hide Has;
    Split(ts, p, [t], rest);
    HasOne(ts, p.pos, t);
  }

  /** The expected token stands at p. */
  lemma {:induction false} Last(ts: seq<Token>, p: Cursor, t: Token)
    requires At(ts, p, [t]) && t.kind != Eof
    ensures ts[p.pos] == t && Consume(ts, p, t.kind) == (t, p.Advance()) && After(p, [t]) == p.Advance()
    ensures Good(ts, p.Advance())
  {
    hide Has;
    HasOne(ts, p.pos, t);
  }

  predicate Closes(k: Kind) {
    k == SemiColon || k == LeftBrace || k == RightParen || k == Colon
  }

  lemma {:induction false} ClosesEnds(k: Kind)
    requires Closes(k)
    ensures Ends(ASSIGNMENT, k) && EndsType(k)
  {
  }

  lemma {:induction false} ReadExpression(e: Expr, ts: seq<Token>, p: Cursor)
    requires WellFormed(e) && At(ts, p, Print(e)) && Closes(Next(ts, p, Print(e)))
    ensures Expression(ts, p) == Ok(e, After(p, Print(e)))
    ensures Begins(KindAt(ts, p))
  {
    hide WellFormed, Print, Has, Expression, Ends, Begins;
    ClosesEnds(Next(ts, p, Print(e)));
    ExpressionReturns(e, ts, p);
    FirstToken(e);
    FirstOf(ts, p.pos, Print(e));
  }

  // Types

  lemma {:induction false} ReadType(t: TypeExpr, ts: seq<Token>, p: Cursor)
    requires WellFormedType(t) && At(ts, p, PrintType(t)) && EndsType(Next(ts, p, PrintType(t)))
    ensures ParseType(ts, p) == Ok(t, After(p, PrintType(t)))
    decreases t, 1
  {
    hide Has, At, Good, Consume, TypeTail;
    match t
    case Simple(tok) =>
      Last(ts, p, tok);
      TypeTailStep(tok, ts, p.Advance());
    case Generic(tok, name, arguments) =>
      Peel(ts, p, tok, [LESS] + (PrintTypes(arguments) + [GREATER]));
      ReadGeneric(t, ts, p.Advance());
    case FunctionOf(tok, parameters, result) =>
      Peel(ts, p, tok, [LPAREN] + (PrintTypes(parameters) + ([RPAREN] + ([ARROW] + PrintType(result)))));
      ReadFunctionType(t, ts, p.Advance());
  }

  lemma {:induction false} TypeTailStep(t: Token, ts: seq<Token>, p: Cursor)
    requires Good(ts, p)
    ensures var k := KindAt(ts, p);
            && (k == Less ==> TypeTail(t, ts, p) == GenericRest(t, ts, p.Advance()))
            && (k == LeftParen ==> TypeTail(t, ts, p) == FunctionTypeRest(t, ts, p.Advance()))
            && (EndsType(k) ==> TypeTail(t, ts, p) == Ok(Simple(t), p))
  {
    hide GenericRest, FunctionTypeRest, UnionRest;
  }

  lemma {:induction false} ReadGeneric(t: TypeExpr, ts: seq<Token>, p: Cursor)
    requires t.Generic? && WellFormedType(t) && At(ts, p, [LESS] + (PrintTypes(t.arguments) + [GREATER]))
    ensures TypeTail(t.tok, ts, p) == Ok(t, After(p, [LESS] + (PrintTypes(t.arguments) + [GREATER])))
    decreases t, 0
  {
    hide Has, Good, TypeTail, TypeList, Consume, PrintTypes;
    Peel(ts, p, LESS, PrintTypes(t.arguments) + [GREATER]);
    TypeTailStep(t.tok, ts, p);
    Split(ts, p.Advance(), PrintTypes(t.arguments), [GREATER]);
    var q := After(p.Advance(), PrintTypes(t.arguments));
    Last(ts, q, GREATER);
    ReadTypes([], t.arguments, ts, p.Advance());
    MoveNothing(t.arguments);
  }

  lemma {:induction false} ReadFunctionType(t: TypeExpr, ts: seq<Token>, p: Cursor)
    requires t.FunctionOf? && WellFormedType(t)
    requires var text := [LPAREN] + (PrintTypes(t.parameters) + ([RPAREN] + ([ARROW] + PrintType(t.result))));
             At(ts, p, text) && EndsType(Next(ts, p, text))
    ensures var text := [LPAREN] + (PrintTypes(t.parameters) + ([RPAREN] + ([ARROW] + PrintType(t.result))));
            TypeTail(t.tok, ts, p) == Ok(t, After(p, text))
    decreases t, 0
  {
    hide Has, Good, TypeTail, OptionalTypes, Consume, PrintTypes, PrintType, ParseType;
    Peel(ts, p, LPAREN, PrintTypes(t.parameters) + ([RPAREN] + ([ARROW] + PrintType(t.result))));
    TypeTailStep(t.tok, ts, p);
    Split(ts, p.Advance(), PrintTypes(t.parameters), [RPAREN] + ([ARROW] + PrintType(t.result)));
    var q := After(p.Advance(), PrintTypes(t.parameters));
    Peel(ts, q, RPAREN, [ARROW] + PrintType(t.result));
    Peel(ts, q.Advance(), ARROW, PrintType(t.result));
    ReadOptionalTypes(t.parameters, ts, p.Advance());
    ReadType(t.result, ts, q.Advance().Advance());
  }

  lemma {:induction false} ReadOptionalTypes(xs: seq<TypeExpr>, ts: seq<Token>, p: Cursor)
    requires (forall x | x in xs :: WellFormedType(x))
    requires At(ts, p, PrintTypes(xs)) && Next(ts, p, PrintTypes(xs)) == RightParen
    ensures OptionalTypes(ts, p) == Ok(xs, After(p, PrintTypes(xs)))
    decreases xs, 1
  {
    hide Has, TypeList;
    if xs != [] {
      hide PrintTypes, PrintType;
      FirstOfTypes(xs);
      FirstOf(ts, p.pos, PrintTypes(xs));
      ReadTypes([], xs, ts, p);
      MoveNothing(xs);
    }
  }

  lemma {:induction false} FirstOfTypes(xs: seq<TypeExpr>)
    requires xs != [] && WellFormedType(xs[0])
    ensures PrintTypes(xs) != [] && PrintTypes(xs)[0].kind == Identifier
  {
  }

  lemma {:induction false} ReadTypes(before: seq<TypeExpr>, xs: seq<TypeExpr>, ts: seq<Token>, p: Cursor)
    requires xs != [] && (forall x | x in xs :: WellFormedType(x))
    requires At(ts, p, PrintTypes(xs)) && Next(ts, p, PrintTypes(xs)) in {Greater, RightParen}
    ensures TypeList(before, Comma, ts, p) == Ok(before + xs, After(p, PrintTypes(xs)))
    decreases xs, 0
  {
    hide Has, Good, ParseType, PrintType, WellFormedType, TypeList;
    TypesStep(before, ts, p);
    MoveFirst(before, xs);
    if |xs| == 1 {
      ReadType(xs[0], ts, p);
    } else {
      Split(ts, p, PrintType(xs[0]), [COMMA] + PrintTypes(xs[1..]));
      var q := After(p, PrintType(xs[0]));
      Peel(ts, q, COMMA, PrintTypes(xs[1..]));
      ReadType(xs[0], ts, p);
      ReadTypes(before + [xs[0]], xs[1..], ts, q.Advance());
    }
  }

  lemma {:induction false} TypesStep(before: seq<TypeExpr>, ts: seq<Token>, p: Cursor)
    requires Good(ts, p)
    ensures var r := ParseType(ts, p);
            r.Ok? ==>
              (TypeList(before, Comma, ts, p)
               == if KindAt(ts, r.rest) == Comma then TypeList(before + [r.value], Comma, ts, r.rest.Advance())
                  else Ok(before + [r.value], r.rest))
  {
    hide ParseType;
  }

  // Parameters

  lemma {:induction false} ReadParameter(x: Parameter, ts: seq<Token>, p: Cursor)
    requires WellFormedType(x.paramType) && At(ts, p, PrintParameter(x)) && EndsType(Next(ts, p, PrintParameter(x)))
    ensures ParameterAt(ts, p) == Ok(x, After(p, PrintParameter(x)))
  {
    hide Has, Good, ParseType, PrintType, WellFormedType, Consume;
    var name := Token(Identifier, x.name);
    Peel(ts, p, name, [COLON] + PrintType(x.paramType));
    Peel(ts, p.Advance(), COLON, PrintType(x.paramType));
    ReadType(x.paramType, ts, p.Advance().Advance());
  }

  lemma {:induction false} ReadParameterList(before: seq<Parameter>, xs: seq<Parameter>, ts: seq<Token>, p: Cursor)
    requires xs != [] && (forall x | x in xs :: WellFormedType(x.paramType))
    requires At(ts, p, PrintParameters(xs)) && Next(ts, p, PrintParameters(xs)) == RightParen
    ensures ParameterList(before, ts, p) == Ok(before + xs, After(p, PrintParameters(xs)))
    decreases xs
  {
    hide Has, Good, ParameterAt, PrintParameter, WellFormedType, ParameterList;
    ParametersStep(before, ts, p);
    MoveFirst(before, xs);
    if |xs| == 1 {
      ReadParameter(xs[0], ts, p);
    } else {
      Split(ts, p, PrintParameter(xs[0]), [COMMA] + PrintParameters(xs[1..]));
      var q := After(p, PrintParameter(xs[0]));
      Peel(ts, q, COMMA, PrintParameters(xs[1..]));
      ReadParameter(xs[0], ts, p);
      ReadParameterList(before + [xs[0]], xs[1..], ts, q.Advance());
    }
  }

  lemma {:induction false} ParametersStep(before: seq<Parameter>, ts: seq<Token>, p: Cursor)
    requires Good(ts, p)
    ensures var r := ParameterAt(ts, p);
            r.Ok? ==>
              (ParameterList(before, ts, p)
               == if KindAt(ts, r.rest) == Comma then ParameterList(before + [r.value], ts, r.rest.Advance())
                  else Ok(before + [r.value], r.rest))
  {
    hide ParameterAt;
  }

  lemma {:induction false} ReadParameters(xs: seq<Parameter>, ts: seq<Token>, p: Cursor)
    requires (forall x | x in xs :: WellFormedType(x.paramType))
    requires At(ts, p, PrintParameters(xs)) && Next(ts, p, PrintParameters(xs)) == RightParen
    ensures Parameters(ts, p) == Ok(xs, After(p, PrintParameters(xs)))
  {
    hide Has, ParameterList;
    if xs != [] {
      hide PrintParameters;
      FirstOfParameters(xs);
      FirstOf(ts, p.pos, PrintParameters(xs));
      ReadParameterList([], xs, ts, p);
      MoveNothing(xs);
    }
  }

  lemma {:induction false} FirstOfParameters(xs: seq<Parameter>)
    requires xs != []
    ensures PrintParameters(xs) != [] && PrintParameters(xs)[0].kind == Identifier
  {
  }

  // Optional parts

  lemma {:induction false} ReadOptionalType(t: Option<TypeExpr>, ts: seq<Token>, p: Cursor)
    requires WellFormedTypeOption(t) && At(ts, p, PrintOptionalType(t))
    requires Next(ts, p, PrintOptionalType(t)) in {Equal, SemiColon, In}
    ensures OptionalType(ts, p) == Ok(t, After(p, PrintOptionalType(t)))
  {
    hide Has, ParseType, WellFormedType, PrintType, Consume;
    if t.Some? {
      Peel(ts, p, COLON, PrintType(t.value));
      ReadType(t.value, ts, p.Advance());
    }
  }

  lemma {:induction false} ReadReturnType(t: TypeExpr, ts: seq<Token>, p: Cursor)
    requires (t == NO_TYPE || WellFormedType(t)) && At(ts, p, PrintReturnType(t))
    requires Next(ts, p, PrintReturnType(t)) == LeftBrace
    ensures ReturnType(ts, p) == Ok(t, After(p, PrintReturnType(t)))
  {
    hide Has, ParseType, WellFormedType, PrintType, Consume;
    if t != NO_TYPE {
      Peel(ts, p, ARROW, PrintType(t));
      ReadType(t, ts, p.Advance());
    }
  }

  lemma {:induction false} ReadInitializer(e: Option<Expr>, ts: seq<Token>, p: Cursor)
    requires WellFormedOption(e) && At(ts, p, PrintInitializer(e)) && Next(ts, p, PrintInitializer(e)) == SemiColon
    ensures OptionalInitializer(ts, p) == Ok(e, After(p, PrintInitializer(e)))
  {
    hide Has, Expression, WellFormed, Print, Consume;
    if e.Some? {
      Peel(ts, p, EQUAL, Print(e.value));
      ReadExpression(e.value, ts, p.Advance());
    }
  }

  lemma {:induction false} ReadOptional(e: Option<Expr>, ts: seq<Token>, p: Cursor)
    requires WellFormedOption(e) && At(ts, p, PrintOptional(e)) && Next(ts, p, PrintOptional(e)) == SemiColon
    ensures OptionalValue(ts, p) == Ok(e, After(p, PrintOptional(e)))
  {
    hide Has, Expression, WellFormed, Print, Consume, IsAtom;
    if e.Some? {
      ReadExpression(e.value, ts, p);
      AtomIsNotSemiColon(KindAt(ts, p));
    }
  }

  lemma {:induction false} AtomIsNotSemiColon(k: Kind)
    ensures IsAtom(k) ==> k != SemiColon
  {
  }

  // Declarations

  lemma {:induction false} ReadVariable(s: Stmt, ts: seq<Token>, p: Cursor)
    requires s.VariableStmt? && WellFormedStmt(s) && At(ts, p, PrintVariable(s)) && p.pos > 0
    requires ts[p.pos - 1].kind == if s.isConstant then Const else Let
    ensures VarDeclaration(ts, p) == Ok(s, After(p, PrintVariable(s)))
  {
    hide Has, Good, Consume, OptionalType, OptionalInitializer, PrintOptionalType, PrintInitializer;
    hide WellFormedOption, WellFormedTypeOption;
    Peel(ts, p, s.tok, PrintOptionalType(s.varType) + (PrintInitializer(s.initializer) + [SEMICOLON]));
    var q := p.Advance();
    Split(ts, q, PrintOptionalType(s.varType), PrintInitializer(s.initializer) + [SEMICOLON]);
    FirstOfInitializer(s.initializer);
    ReadOptionalType(s.varType, ts, q);
    var q1 := After(q, PrintOptionalType(s.varType));
    Split(ts, q1, PrintInitializer(s.initializer), [SEMICOLON]);
    ReadInitializer(s.initializer, ts, q1);
    Last(ts, After(q1, PrintInitializer(s.initializer)), SEMICOLON);
  }

  lemma {:induction false} FirstOfInitializer(e: Option<Expr>)
    ensures var text := PrintInitializer(e) + [SEMICOLON]; text[0].kind == Equal || text[0].kind == SemiColon
  {
  }

  lemma {:induction false} ReadHead(h: Head, ts: seq<Token>, p: Cursor, q: Cursor)
    requires Good(ts, p) && p.pos > 0 && q == DefAfterAsync(ts, p)
    requires WellFormedHead(h) && At(ts, q, PrintHead(h)) && Next(ts, q, PrintHead(h)) == LeftBrace
    ensures FunctionHead(ts, p) == Ok(h, After(q, PrintHead(h)))
  {
    hide Has, Consume, DefAfterAsync, Parameters, ReturnType, PrintParameters, PrintReturnType, WellFormedType;
    Peel(ts, q, h.tok, [LPAREN] + (PrintParameters(h.parameters) + ([RPAREN] + PrintReturnType(h.returnType))));
    var q1 := q.Advance();
    Peel(ts, q1, LPAREN, PrintParameters(h.parameters) + ([RPAREN] + PrintReturnType(h.returnType)));
    var q2 := q1.Advance();
    Split(ts, q2, PrintParameters(h.parameters), [RPAREN] + PrintReturnType(h.returnType));
    var q3 := After(q2, PrintParameters(h.parameters));
    Peel(ts, q3, RPAREN, PrintReturnType(h.returnType));
    ReadParameters(h.parameters, ts, q2);
    ReadReturnType(h.returnType, ts, q3.Advance());
  }

  lemma {:induction false} ReadFunction(s: Stmt, ts: seq<Token>, p: Cursor, q: Cursor)
    requires s.FunctionStmt? && WellFormedStmt(s) && Good(ts, p) && p.pos > 0 && q == DefAfterAsync(ts, p)
    requires s.isAsync == (ts[p.pos - 1].kind == Async) && At(ts, q, PrintFunction(s))
    ensures FunctionDeclaration(ts, p) == Ok(s, After(q, PrintFunction(s)))
    decreases s, 2
  {
    hide Has, Good, Consume, DefAfterAsync, FunctionHead, Braced, PrintHead, PrintBody, WellFormedHead, IsBody;
    var h := Head(s.tok, s.parameters, s.returnType);
    Split(ts, q, PrintHead(h), [LBRACE] + PrintBody(s.body));
    ReadHead(h, ts, p, q);
    ReadBraced(s.body, ts, After(q, PrintHead(h)));
  }

  // Blocks

  lemma {:induction false} ReadBraced(b: Stmt, ts: seq<Token>, p: Cursor)
    requires IsBody(b) && p.pos > 0 && At(ts, p, [LBRACE] + PrintBody(b))
    ensures Braced(ts, p) == (b, After(p, [LBRACE] + PrintBody(b)))
    decreases b, 1
  {
    hide Has, Good, Consume, Block, PrintBody, IsBody;
    Peel(ts, p, LBRACE, PrintBody(b));
    ReadBody(b, ts, p.Advance());
  }

  lemma {:induction false} ReadBody(b: Stmt, ts: seq<Token>, p: Cursor)
    requires IsBody(b) && p.pos > 0 && At(ts, p, PrintBody(b))
    ensures Block(ts, p) == (b, After(p, PrintBody(b)))
    decreases b, 0
  {
    hide Has, Good, Consume, BlockItems, PrintStmts, WellFormedStmt;
    Split(ts, p, PrintStmts(b.statements), [b.tok]);
    var q := After(p, PrintStmts(b.statements));
    Last(ts, q, b.tok);
    ReadItems([], b.statements, ts, p);
    MoveNothing(b.statements);
    ItemsEnd(b.statements, ts, q);
  }

  lemma {:induction false} ItemsEnd(before: seq<Stmt>, ts: seq<Token>, p: Cursor)
    requires Good(ts, p) && KindAt(ts, p) == RightBrace
    ensures BlockItems(before, ts, p) == (before, p)
  {
  }

  /** What a statement can begin with. */
  predicate Starts(k: Kind) {
    k != Elif && k != Else && k != RightBrace && k != Eof
  }

  /** What can follow a statement: an if without else must not meet one. */
  predicate Follows(s: Stmt, k: Kind) {
    s.IfStmt? && s.elseBranch.None? ==> k != Elif && k != Else
  }

  lemma {:induction false} FirstOfStmt(s: Stmt)
    requires WellFormedStmt(s)
    ensures PrintStmt(s) != [] && Starts(PrintStmt(s)[0].kind)
  {
    hide Print, WellFormed, PrintVariable, PrintFunction, PrintBody, PrintGuarded, PrintStmts, IsBody, WellFormedHead;
    hide Begins, StartsExpression;
    if s.ExpressionStmt? {
      FirstToken(s.expression);
      BeginsStarts(Print(s.expression)[0].kind);
    }
  }

  lemma {:induction false} BeginsStarts(k: Kind)
    requires Begins(k)
    ensures Starts(k) && (k != LeftBrace ==> StartsExpression(k))
  {
  }

  /** A token that neither declaration nor statement looks for. */
  predicate StartsExpression(k: Kind) {
    && k != Let && k != Const && k != Def && k != Async && k != Class && k != Import
    && k != If && k != While && k != For && k != LeftBrace && k != Return && k != Match && k != Go && k != Select
  }

  lemma {:induction false} ReadItems(before: seq<Stmt>, ss: seq<Stmt>, ts: seq<Token>, p: Cursor)
    requires (forall s | s in ss :: WellFormedStmt(s)) && At(ts, p, PrintStmts(ss))
    requires var k := Next(ts, p, PrintStmts(ss)); k != Elif && k != Else
    ensures BlockItems(before, ts, p) == BlockItems(before + ss, ts, After(p, PrintStmts(ss)))
    decreases ss, 0
  {
    hide Has, Good, BlockItems, Declaration, PrintStmt, WellFormedStmt;
    if ss == [] {
      assert before + ss == before;
    } else {
      Split(ts, p, PrintStmt(ss[0]), PrintStmts(ss[1..]));
      FollowsAll(ss, ts, p);
      ReadDeclaration(ss[0], ts, p);
      BlockStep(before, ts, p);
      var q := After(p, PrintStmt(ss[0]));
      ReadItems(before + [ss[0]], ss[1..], ts, q);
      MoveFirst(before, ss);
    }
  }

  lemma {:induction false} BlockStep(before: seq<Stmt>, ts: seq<Token>, p: Cursor)
    requires Good(ts, p) && Starts(KindAt(ts, p))
    ensures var (s, q) := Declaration(ts, p); BlockItems(before, ts, p) == BlockItems(before + [s], ts, q)
  {
    hide Declaration;
  }

  lemma {:induction false} FollowsAll(ss: seq<Stmt>, ts: seq<Token>, p: Cursor)
    requires ss != [] && (forall s | s in ss :: WellFormedStmt(s)) && At(ts, p, PrintStmts(ss))
    requires var k := Next(ts, p, PrintStmts(ss)); k != Elif && k != Else
    ensures At(ts, p, PrintStmt(ss[0])) && Follows(ss[0], Next(ts, p, PrintStmt(ss[0]))) && Starts(KindAt(ts, p))
  {
    hide Has, Good, PrintStmt, WellFormedStmt;
    Split(ts, p, PrintStmt(ss[0]), PrintStmts(ss[1..]));
    FirstOfStmt(ss[0]);
    FirstOf(ts, p.pos, PrintStmt(ss[0]));
    if |ss| > 1 {
      FirstOfStmt(ss[1]);
      assert PrintStmts(ss[1..])[0] == PrintStmt(ss[1])[0];
    }
  }

  // Statements

  lemma {:induction false} ReadDeclaration(s: Stmt, ts: seq<Token>, p: Cursor)
    requires WellFormedStmt(s) && At(ts, p, PrintStmt(s)) && Follows(s, Next(ts, p, PrintStmt(s)))
    ensures KindAt(ts, p) != Eof && Declaration(ts, p) == (s, After(p, PrintStmt(s)))
    decreases s, 6
  {
    hide Has, TryDeclaration, PrintStmt, WellFormedStmt;
    FirstOfStmt(s);
    FirstOf(ts, p.pos, PrintStmt(s));
    ReadStatement(s, ts, p);
  }

  // The function that reads what begins with the token at the cursor

  lemma {:induction false} DispatchDeclaration(ts: seq<Token>, p: Cursor)
    requires Good(ts, p) && KindAt(ts, p) != Eof
    ensures var k := KindAt(ts, p);
            && (k == Let || k == Const ==> TryDeclaration(ts, p) == VarDeclaration(ts, p.Advance()))
            && (k == Def || k == Async ==> TryDeclaration(ts, p) == FunctionDeclaration(ts, p.Advance()))
            && (k == Class ==> TryDeclaration(ts, p) == ClassDeclaration(ts, p.Advance()))
            && (k == Import ==> TryDeclaration(ts, p) == ImportRest(ts, p.Advance()))
  {
    hide VarDeclaration, FunctionDeclaration, ClassDeclaration, ImportRest, Statement, Good;
    NextIsGood(ts, p);
  }

  lemma {:induction false} DispatchStatement(ts: seq<Token>, p: Cursor)
    requires Good(ts, p) && KindAt(ts, p) != Eof
    ensures var k := KindAt(ts, p);
            && (k == If ==> TryDeclaration(ts, p) == IfRest(ts, p.Advance()))
            && (k == While ==> TryDeclaration(ts, p) == WhileRest(ts, p.Advance()))
            && (k == For ==> TryDeclaration(ts, p) == ForRest(ts, p.Advance()))
            && (k == LeftBrace ==> TryDeclaration(ts, p) == BlockRest(ts, p.Advance()))
  {
    hide VarDeclaration, FunctionDeclaration, ClassDeclaration, ImportRest, IfRest, WhileRest, ForRest, BlockRest;
    hide SimpleStatement, Good;
    NextIsGood(ts, p);
  }

  lemma {:induction false} SimpleKinds(ts: seq<Token>, p: Cursor)
    requires Good(ts, p) && KindAt(ts, p) != Eof
    ensures var k := KindAt(ts, p);
            && (k == Return ==> SimpleStatement(ts, p) == ReturnRest(ts, p.Advance()))
            && (k == Match ==> SimpleStatement(ts, p) == MatchRest(ts, p.Advance()))
            && (k == Go ==> SimpleStatement(ts, p) == GoRest(ts, p.Advance()))
            && (StartsExpression(k) ==> SimpleStatement(ts, p) == ExpressionRest(ts, p))
  {
    hide ReturnRest, MatchRest, GoRest, SelectRest, ExpressionRest, Good;
    NextIsGood(ts, p);
  }

  lemma {:induction false} IsSimple(ts: seq<Token>, p: Cursor)
    requires Good(ts, p) && KindAt(ts, p) != Eof
    requires var k := KindAt(ts, p); k == Return || k == Match || k == Go || StartsExpression(k)
    ensures TryDeclaration(ts, p) == SimpleStatement(ts, p)
  {
    hide VarDeclaration, FunctionDeclaration, ClassDeclaration, ImportRest, IfRest, WhileRest, ForRest, BlockRest;
    hide SimpleStatement, Good;
  }

  lemma {:induction false} ReadStatement(s: Stmt, ts: seq<Token>, p: Cursor)
    requires WellFormedStmt(s) && At(ts, p, PrintStmt(s)) && Follows(s, Next(ts, p, PrintStmt(s)))
    requires KindAt(ts, p) != Eof
    ensures TryDeclaration(ts, p) == Ok(s, After(p, PrintStmt(s)))
    decreases s, 5
  {
    hide Has, Good, TryDeclaration, PrintStmt, WellFormedStmt;
    match s
    case ExpressionStmt(_, _) => ReadExpressionStmt(s, ts, p);
    case VariableStmt(_, _, _, _, _) => ReadVariableStmt(s, ts, p);
    case BlockStmt(_, _) => ReadBlockStmt(s, ts, p);
    case IfStmt(_, _, _, _, _) => ReadIf(s, ts, p);
    case WhileStmt(_, _, _) => ReadWhile(s, ts, p);
    case ForStmt(_, _, _, _, _) => ReadFor(s, ts, p);
    case FunctionStmt(_, _, _, _, _, _) => ReadFunctionStmt(s, ts, p);
    case ReturnStmt(_, _) => ReadReturn(s, ts, p);
    case ClassStmt(_, _, _, _) => ReadClass(s, ts, p);
    case ImportStmt(_, _) => ReadImport(s, ts, p);
    case MatchStmt(_, _, _, _) => ReadMatch(s, ts, p);
    case GoStmt(_, _) => ReadGo(s, ts, p);
    case _ => Unprinted(s);
  }

  lemma {:induction false} Unprinted(s: Stmt)
    ensures s.Missing? || s.SelectStmt? ==> !WellFormedStmt(s)
  {
  }

  lemma {:induction false} ReadExpressionStmt(s: Stmt, ts: seq<Token>, p: Cursor)
    requires s.ExpressionStmt? && WellFormedStmt(s) && At(ts, p, PrintStmt(s)) && KindAt(ts, p) != Eof
    ensures TryDeclaration(ts, p) == Ok(s, After(p, PrintStmt(s)))
  {
    hide Has, Good, TryDeclaration, Expression, Consume, Print, WellFormed, Begins;
    var e := s.expression;
    Split(ts, p, Print(e), [SEMICOLON]);
    ReadExpression(e, ts, p);
    Last(ts, After(p, Print(e)), SEMICOLON);
    FirstToken(e);
    FirstOf(ts, p.pos, Print(e));
    BeginsStarts(KindAt(ts, p));
    SimpleKinds(ts, p);
    IsSimple(ts, p);
  }

  lemma {:induction false} ReadField(s: Stmt, ts: seq<Token>, p: Cursor)
    requires s.VariableStmt? && WellFormedStmt(s) && At(ts, p, PrintStmt(s))
    ensures (KindAt(ts, p) == Let || KindAt(ts, p) == Const) && Good(ts, p.Advance())
    ensures VarDeclaration(ts, p.Advance()) == Ok(s, After(p, PrintStmt(s)))
  {
    hide Has, VarDeclaration, Consume, PrintVariable, WellFormedStmt;
    Peel(ts, p, if s.isConstant then CONST else LET, PrintVariable(s));
    ReadVariable(s, ts, p.Advance());
  }

  lemma {:induction false} ReadVariableStmt(s: Stmt, ts: seq<Token>, p: Cursor)
    requires s.VariableStmt? && WellFormedStmt(s) && At(ts, p, PrintStmt(s)) && KindAt(ts, p) != Eof
    ensures TryDeclaration(ts, p) == Ok(s, After(p, PrintStmt(s)))
  {
    hide Has, TryDeclaration, VarDeclaration, PrintStmt, WellFormedStmt;
    ReadField(s, ts, p);
    DispatchDeclaration(ts, p);
  }

  lemma {:induction false} ReadBlockStmt(s: Stmt, ts: seq<Token>, p: Cursor)
    requires s.BlockStmt? && WellFormedStmt(s) && At(ts, p, PrintStmt(s)) && KindAt(ts, p) != Eof
    ensures TryDeclaration(ts, p) == Ok(s, After(p, PrintStmt(s)))
    decreases s, 3
  {
    hide Has, TryDeclaration, Block, Consume, PrintBody, IsBody;
    Peel(ts, p, LBRACE, PrintBody(s));
    ReadBody(s, ts, p.Advance());
    DispatchStatement(ts, p);
  }

  lemma {:induction false} ReadFunctionStmt(s: Stmt, ts: seq<Token>, p: Cursor)
    requires s.FunctionStmt? && WellFormedStmt(s) && At(ts, p, PrintStmt(s)) && KindAt(ts, p) != Eof
    ensures TryDeclaration(ts, p) == Ok(s, After(p, PrintStmt(s)))
    decreases s, 4
  {
    hide Has, TryDeclaration, FunctionDeclaration, PrintStmt, WellFormedStmt;
    ReadMethod(s, ts, p);
    DispatchDeclaration(ts, p);
  }

  lemma {:induction false} ReadGuarded(e: Expr, b: Stmt, ts: seq<Token>, p: Cursor)
    requires WellFormed(e) && IsBody(b) && p.pos > 0 && At(ts, p, PrintGuarded(e, b))
    ensures Guarded(ts, p) == Ok(Branch(e, b), After(p, PrintGuarded(e, b)))
    decreases b, 2
  {
    hide Has, Expression, Braced, Print, PrintBody, WellFormed, IsBody, Begins;
    Split(ts, p, Print(e), [LBRACE] + PrintBody(b));
    ReadExpression(e, ts, p);
    ReadBraced(b, ts, After(p, Print(e)));
  }

  lemma {:induction false} ReadWhile(s: Stmt, ts: seq<Token>, p: Cursor)
    requires s.WhileStmt? && WellFormedStmt(s) && At(ts, p, PrintStmt(s)) && KindAt(ts, p) != Eof
    ensures TryDeclaration(ts, p) == Ok(s, After(p, PrintStmt(s)))
    decreases s, 3
  {
    hide Has, TryDeclaration, Guarded, Consume, PrintGuarded, IsBody, WellFormed;
    Peel(ts, p, WHILE, PrintGuarded(s.condition, s.body));
    ReadGuarded(s.condition, s.body, ts, p.Advance());
    DispatchStatement(ts, p);
  }

  lemma {:induction false} ReadFor(s: Stmt, ts: seq<Token>, p: Cursor)
    requires s.ForStmt? && WellFormedStmt(s) && At(ts, p, PrintStmt(s)) && KindAt(ts, p) != Eof
    ensures TryDeclaration(ts, p) == Ok(s, After(p, PrintStmt(s)))
    decreases s, 3
  {
    hide Has, TryDeclaration, Guarded, Consume, PrintGuarded, IsBody, WellFormed;
    hide OptionalType, PrintOptionalType, WellFormedTypeOption;
    var rest := PrintOptionalType(s.varType) + ([IN] + PrintGuarded(s.iterable, s.body));
    Peel(ts, p, FOR, [s.tok] + rest);
    Peel(ts, p.Advance(), s.tok, rest);
    var q := p.Advance().Advance();
    Split(ts, q, PrintOptionalType(s.varType), [IN] + PrintGuarded(s.iterable, s.body));
    ReadOptionalType(s.varType, ts, q);
    var q1 := After(q, PrintOptionalType(s.varType));
    Peel(ts, q1, IN, PrintGuarded(s.iterable, s.body));
    ReadGuarded(s.iterable, s.body, ts, q1.Advance());
    DispatchStatement(ts, p);
  }

  lemma {:induction false} ReadReturn(s: Stmt, ts: seq<Token>, p: Cursor)
    requires s.ReturnStmt? && WellFormedStmt(s) && At(ts, p, PrintStmt(s)) && KindAt(ts, p) != Eof
    ensures TryDeclaration(ts, p) == Ok(s, After(p, PrintStmt(s)))
  {
    hide Has, TryDeclaration, OptionalValue, Consume, PrintOptional, WellFormedOption;
    Peel(ts, p, s.tok, PrintOptional(s.value) + [SEMICOLON]);
    var q := p.Advance();
    Split(ts, q, PrintOptional(s.value), [SEMICOLON]);
    ReadOptional(s.value, ts, q);
    Last(ts, After(q, PrintOptional(s.value)), SEMICOLON);
    SimpleKinds(ts, p);
    IsSimple(ts, p);
  }

  lemma {:induction false} ReadImport(s: Stmt, ts: seq<Token>, p: Cursor)
    requires s.ImportStmt? && WellFormedStmt(s) && At(ts, p, PrintStmt(s)) && KindAt(ts, p) != Eof
    ensures TryDeclaration(ts, p) == Ok(s, After(p, PrintStmt(s)))
  {
    hide Has, TryDeclaration, Consume;
    Peel(ts, p, IMPORT, [s.tok] + [SEMICOLON]);
    Peel(ts, p.Advance(), s.tok, [SEMICOLON]);
    Last(ts, p.Advance().Advance(), SEMICOLON);
    DispatchDeclaration(ts, p);
  }

  lemma {:induction false} ReadGo(s: Stmt, ts: seq<Token>, p: Cursor)
    requires s.GoStmt? && WellFormedStmt(s) && At(ts, p, PrintStmt(s)) && KindAt(ts, p) != Eof
    ensures TryDeclaration(ts, p) == Ok(s, After(p, PrintStmt(s)))
  {
    hide Has, Good, TryDeclaration, SimpleStatement, GoRest, Consume, Print, WellFormed;
    Peel(ts, p, s.tok, [LPAREN] + (Print(s.expression) + ([RPAREN] + [SEMICOLON])));
    ReadGoRest(s, ts, p.Advance());
    SimpleKinds(ts, p);
    IsSimple(ts, p);
  }

  lemma {:induction false} ReadGoRest(s: Stmt, ts: seq<Token>, p: Cursor)
    requires s.GoStmt? && WellFormed(s.expression) && Good(ts, p) && p.pos > 0 && ts[p.pos - 1] == s.tok
    requires At(ts, p, [LPAREN] + (Print(s.expression) + ([RPAREN] + [SEMICOLON])))
    ensures GoRest(ts, p) == Ok(s, After(p, [LPAREN] + (Print(s.expression) + ([RPAREN] + [SEMICOLON]))))
  {
    hide Has, Good, Consume, Expression, Print, WellFormed, Begins;
    var e := s.expression;
    Peel(ts, p, LPAREN, Print(e) + ([RPAREN] + [SEMICOLON]));
    var q := p.Advance();
    Split(ts, q, Print(e), [RPAREN] + [SEMICOLON]);
    ReadExpression(e, ts, q);
    var q1 := After(q, Print(e));
    Peel(ts, q1, RPAREN, [SEMICOLON]);
    Last(ts, q1.Advance(), SEMICOLON);
  }

  // Branches

  lemma {:induction false} ReadIf(s: Stmt, ts: seq<Token>, p: Cursor)
    requires s.IfStmt? && WellFormedStmt(s) && At(ts, p, PrintStmt(s)) && KindAt(ts, p) != Eof
    requires Follows(s, Next(ts, p, PrintStmt(s)))
    ensures TryDeclaration(ts, p) == Ok(s, After(p, PrintStmt(s)))
    decreases s, 4
  {
    hide Has, Good, TryDeclaration, Consume, IfRest, PrintGuarded, PrintElifs, PrintElse, WellFormedStmt;
    var text := PrintGuarded(s.condition, s.thenBranch) + (PrintElifs(s.elifBranches) + PrintElse(s.elseBranch));
    Peel(ts, p, IF, text);
    ReadIfRest(s, ts, p.Advance());
    DispatchStatement(ts, p);
  }

  lemma {:induction false} ReadIfRest(s: Stmt, ts: seq<Token>, p: Cursor)
    requires s.IfStmt? && WellFormedStmt(s) && p.pos > 0
    requires At(ts, p, PrintGuarded(s.condition, s.thenBranch) + (PrintElifs(s.elifBranches) + PrintElse(s.elseBranch)))
    requires Follows(s, Next(ts, p, PrintGuarded(s.condition, s.thenBranch)
                                    + (PrintElifs(s.elifBranches) + PrintElse(s.elseBranch))))
    ensures IfRest(ts, p) == Ok(s, After(p, PrintGuarded(s.condition, s.thenBranch)
                                            + (PrintElifs(s.elifBranches) + PrintElse(s.elseBranch))))
    decreases s, 3
  {
    hide Has, Good, Guarded, Elifs, OptionalElse, PrintGuarded, PrintElifs, PrintElse, IsBody, WellFormed;
    var elifs, otherwise := s.elifBranches, s.elseBranch;
    Split(ts, p, PrintGuarded(s.condition, s.thenBranch), PrintElifs(elifs) + PrintElse(otherwise));
    ReadGuarded(s.condition, s.thenBranch, ts, p);
    var q := After(p, PrintGuarded(s.condition, s.thenBranch));
    Split(ts, q, PrintElifs(elifs), PrintElse(otherwise));
    ElifsEnd(otherwise, ts, After(q, PrintElifs(elifs)));
    ReadElifs([], elifs, ts, q);
    MoveNothing(elifs);
    ReadElse(otherwise, ts, After(q, PrintElifs(elifs)));
  }

  lemma {:induction false} ElifsEnd(b: Option<Stmt>, ts: seq<Token>, p: Cursor)
    requires At(ts, p, PrintElse(b)) && (b.None? ==> Next(ts, p, PrintElse(b)) != Elif)
    ensures KindAt(ts, p) != Elif
  {
    hide Has, Consume;
    if b.Some? {
      Peel(ts, p, ELSE, [LBRACE] + PrintBody(b.value));
    }
  }

  lemma {:induction false} ReadElifs(before: seq<Branch>, bs: seq<Branch>, ts: seq<Token>, p: Cursor)
    requires (forall b | b in bs :: WellFormed(b.test) && IsBody(b.body))
    requires At(ts, p, PrintElifs(bs)) && Next(ts, p, PrintElifs(bs)) != Elif
    ensures Elifs(before, ts, p) == Ok(before + bs, After(p, PrintElifs(bs)))
    decreases bs, 0
  {
    hide Has, Guarded, Consume, PrintElif, IsBody, WellFormed;
    if bs == [] {
      assert before + bs == before;
    } else {
      Split(ts, p, PrintElif(bs[0]), PrintElifs(bs[1..]));
      ReadElif(bs[0], ts, p);
      ReadElifs(before + [bs[0]], bs[1..], ts, After(p, PrintElif(bs[0])));
      MoveFirst(before, bs);
    }
  }

  lemma {:induction false} ReadElif(b: Branch, ts: seq<Token>, p: Cursor)
    requires WellFormed(b.test) && IsBody(b.body) && At(ts, p, PrintElif(b))
    ensures KindAt(ts, p) == Elif && Good(ts, p.Advance())
    ensures Guarded(ts, p.Advance()) == Ok(b, After(p, PrintElif(b)))
    decreases b, 0
  {
    hide Has, Guarded, Consume, PrintGuarded, IsBody, WellFormed;
    Peel(ts, p, ELIF, PrintGuarded(b.test, b.body));
    ReadGuarded(b.test, b.body, ts, p.Advance());
  }

  lemma {:induction false} ReadElse(b: Option<Stmt>, ts: seq<Token>, p: Cursor)
    requires (b.Some? ==> IsBody(b.value)) && At(ts, p, PrintElse(b)) && (b.None? ==> Next(ts, p, PrintElse(b)) != Else)
    ensures OptionalElse(ts, p) == (b, After(p, PrintElse(b)))
    decreases b, 0
  {
    hide Has, Braced, Consume, PrintBody, IsBody;
    if b.Some? {
      Peel(ts, p, ELSE, [LBRACE] + PrintBody(b.value));
      ReadBraced(b.value, ts, p.Advance());
    }
  }

  lemma {:induction false} ReadMatch(s: Stmt, ts: seq<Token>, p: Cursor)
    requires s.MatchStmt? && WellFormedStmt(s) && At(ts, p, PrintStmt(s)) && KindAt(ts, p) != Eof
    ensures TryDeclaration(ts, p) == Ok(s, After(p, PrintStmt(s)))
    decreases s, 3
  {
    hide Has, TryDeclaration, Expression, Cases, Consume, Print, PrintCases, PrintDefault, IsBody, WellFormed, Begins;
    var e, cases, otherwise := s.subject, s.cases, s.defaultCase;
    var text := PrintCases(cases) + (PrintDefault(otherwise) + [RBRACE]);
    Peel(ts, p, MATCH, Print(e) + ([LBRACE] + text));
    var q := p.Advance();
    Split(ts, q, Print(e), [LBRACE] + text);
    ReadExpression(e, ts, q);
    var q1 := After(q, Print(e));
    Peel(ts, q1, LBRACE, text);
    var q2 := q1.Advance();
    ReadAllCases(s, cases, otherwise, ts, q2);
    SimpleKinds(ts, p);
    IsSimple(ts, p);
  }

  /** The cases and the closing brace. */
  lemma {:induction false} ReadAllCases(
    s: Stmt, cases: seq<Branch>, otherwise: Option<Stmt>, ts: seq<Token>, p: Cursor)
    requires s.MatchStmt? && cases == s.cases && otherwise == s.defaultCase
    requires (forall b | b in cases :: WellFormed(b.test) && IsBody(b.body))
    requires otherwise.Some? ==> IsBody(otherwise.value)
    requires At(ts, p, PrintCases(cases) + (PrintDefault(otherwise) + [RBRACE]))
    ensures var q := After(After(p, PrintCases(cases)), PrintDefault(otherwise));
            && Cases([], None, ts, p) == Ok((cases, otherwise), q)
            && Good(ts, q) && Consume(ts, q, RightBrace) == (RBRACE, q.Advance())
            && q.Advance() == After(p, PrintCases(cases) + (PrintDefault(otherwise) + [RBRACE]))
    decreases s, 2
  {
    hide Has, Cases, Consume, PrintCases, PrintDefault, IsBody, WellFormed;
    Split(ts, p, PrintCases(cases), PrintDefault(otherwise) + [RBRACE]);
    ReadCases([], cases, ts, p);
    MoveNothing(cases);
    var q := After(p, PrintCases(cases));
    Split(ts, q, PrintDefault(otherwise), [RBRACE]);
    ReadDefault(cases, otherwise, ts, q);
    var q1 := After(q, PrintDefault(otherwise));
    Last(ts, q1, RBRACE);
    CasesEnd(cases, otherwise, ts, q1);
  }

  lemma {:induction false} CasesEnd(before: seq<Branch>, otherwise: Option<Stmt>, ts: seq<Token>, p: Cursor)
    requires Good(ts, p) && KindAt(ts, p) == RightBrace
    ensures Cases(before, otherwise, ts, p) == Ok((before, otherwise), p)
  {
    hide CaseAt;
  }

  lemma {:induction false} ReadCases(before: seq<Branch>, bs: seq<Branch>, ts: seq<Token>, p: Cursor)
    requires (forall b | b in bs :: WellFormed(b.test) && IsBody(b.body)) && At(ts, p, PrintCases(bs))
    ensures Cases(before, None, ts, p) == Cases(before + bs, None, ts, After(p, PrintCases(bs)))
    decreases bs, 0
  {
    hide Has, Cases, CaseRest, DefaultRest, PrintCase, IsBody, WellFormed;
    if bs == [] {
      assert before + bs == before;
    } else {
      Split(ts, p, PrintCase(bs[0]), PrintCases(bs[1..]));
      ReadCase(bs[0], ts, p);
      CasesStep(before, None, ts, p);
      ReadCases(before + [bs[0]], bs[1..], ts, After(p, PrintCase(bs[0])));
      MoveFirst(before, bs);
    }
  }

  lemma {:induction false} CasesStep(before: seq<Branch>, otherwise: Option<Stmt>, ts: seq<Token>, p: Cursor)
    requires Good(ts, p)
    ensures KindAt(ts, p) == Case ==>
              var r := CaseRest(ts, p.Advance());
              r.Ok? ==> Cases(before, otherwise, ts, p) == Cases(before + [r.value], otherwise, ts, r.rest)
    ensures KindAt(ts, p) == Default ==>
              var (b, q) := DefaultRest(ts, p.Advance());
              Cases(before, otherwise, ts, p) == Cases(before, Some(b), ts, q)
  {
    hide CaseRest, DefaultRest;
  }

  lemma {:induction false} ReadCase(b: Branch, ts: seq<Token>, p: Cursor)
    requires WellFormed(b.test) && IsBody(b.body) && At(ts, p, PrintCase(b))
    ensures KindAt(ts, p) == Case && Good(ts, p.Advance()) && CaseRest(ts, p.Advance()) == Ok(b, After(p, PrintCase(b)))
    decreases b, 0
  {
    hide Has, Expression, Consume, DefaultRest, Print, PrintBody, WellFormed, IsBody, Begins;
    Peel(ts, p, CASE, Print(b.test) + ([COLON] + PrintBody(b.body)));
    var q := p.Advance();
    Split(ts, q, Print(b.test), [COLON] + PrintBody(b.body));
    ReadExpression(b.test, ts, q);
    ReadDefaultRest(b.body, ts, After(q, Print(b.test)));
  }

  lemma {:induction false} ReadDefaultRest(b: Stmt, ts: seq<Token>, p: Cursor)
    requires IsBody(b) && p.pos > 0 && At(ts, p, [COLON] + PrintBody(b))
    ensures DefaultRest(ts, p) == (b, After(p, [COLON] + PrintBody(b)))
    decreases b, 1
  {
    hide Has, Good, Consume, Block, PrintBody, IsBody;
    Peel(ts, p, COLON, PrintBody(b));
    ReadBody(b, ts, p.Advance());
  }

  lemma {:induction false} ReadDefault(before: seq<Branch>, b: Option<Stmt>, ts: seq<Token>, p: Cursor)
    requires (b.Some? ==> IsBody(b.value)) && At(ts, p, PrintDefault(b))
    ensures Cases(before, None, ts, p) == Cases(before, b, ts, After(p, PrintDefault(b)))
    decreases b, 0
  {
    hide Has, Cases, CaseRest, DefaultRest, Consume, PrintBody, IsBody;
    if b.Some? {
      Peel(ts, p, DEFAULT, [COLON] + PrintBody(b.value));
      ReadDefaultRest(b.value, ts, p.Advance());
      CasesStep(before, None, ts, p);
    }
  }

  // Classes

  lemma {:induction false} ReadClass(s: Stmt, ts: seq<Token>, p: Cursor)
    requires s.ClassStmt? && WellFormedStmt(s) && At(ts, p, PrintStmt(s)) && KindAt(ts, p) != Eof
    ensures TryDeclaration(ts, p) == Ok(s, After(p, PrintStmt(s)))
    decreases s, 3
  {
    hide Has, TryDeclaration, ClassBody, Consume, PrintStmts;
    var text := PrintStmts(s.fields) + (PrintStmts(s.methods) + [RBRACE]);
    Peel(ts, p, CLASS, [s.tok] + ([LBRACE] + text));
    Peel(ts, p.Advance(), s.tok, [LBRACE] + text);
    ReadClassBody(s.fields, s.methods, ts, p.Advance().Advance());
    DispatchDeclaration(ts, p);
  }

  lemma {:induction false} ReadClassBody(fields: seq<Stmt>, methods: seq<Stmt>, ts: seq<Token>, p: Cursor)
    requires forall x | x in fields :: x.VariableStmt? && WellFormedStmt(x)
    requires forall x | x in methods :: x.FunctionStmt? && WellFormedStmt(x)
    requires At(ts, p, [LBRACE] + (PrintStmts(fields) + (PrintStmts(methods) + [RBRACE])))
    ensures ClassBody(ts, p)
         == Ok((fields, methods), After(p, [LBRACE] + (PrintStmts(fields) + (PrintStmts(methods) + [RBRACE]))))
    decreases methods, 1
  {
    hide Has, Members, Consume, PrintStmts, WellFormedStmt;
    Peel(ts, p, LBRACE, PrintStmts(fields) + (PrintStmts(methods) + [RBRACE]));
    var q := p.Advance();
    Split(ts, q, PrintStmts(fields), PrintStmts(methods) + [RBRACE]);
    ReadFields([], fields, ts, q);
    MoveNothing(fields);
    var q1 := After(q, PrintStmts(fields));
    Split(ts, q1, PrintStmts(methods), [RBRACE]);
    ReadMethods(fields, [], methods, ts, q1);
    MoveNothing(methods);
    var q2 := After(q1, PrintStmts(methods));
    Last(ts, q2, RBRACE);
    MembersEnd(fields, methods, ts, q2);
  }

  lemma {:induction false} MembersEnd(fields: seq<Stmt>, methods: seq<Stmt>, ts: seq<Token>, p: Cursor)
    requires Good(ts, p) && KindAt(ts, p) == RightBrace
    ensures Members(fields, methods, ts, p) == Ok((fields, methods), p)
  {
    hide Member;
  }

  lemma {:induction false} FieldStep(fields: seq<Stmt>, methods: seq<Stmt>, ts: seq<Token>, p: Cursor)
    requires Good(ts, p) && (KindAt(ts, p) == Let || KindAt(ts, p) == Const)
    ensures var r := VarDeclaration(ts, p.Advance());
            r.Ok? ==> Members(fields, methods, ts, p) == Members(fields + [r.value], methods, ts, r.rest)
  {
    hide VarDeclaration, Method;
  }

  lemma {:induction false} MethodStep(fields: seq<Stmt>, methods: seq<Stmt>, ts: seq<Token>, p: Cursor)
    requires Good(ts, p) && (KindAt(ts, p) == Def || KindAt(ts, p) == Async)
    ensures var r := FunctionDeclaration(ts, p.Advance());
            r.Ok? ==> Members(fields, methods, ts, p) == Members(fields, methods + [r.value], ts, r.rest)
  {
    hide FunctionDeclaration, Field;
    assert Member(fields, methods, ts, p) == Method(fields, methods, ts, p.Advance());
  }

  lemma {:induction false} ReadFields(before: seq<Stmt>, xs: seq<Stmt>, ts: seq<Token>, p: Cursor)
    requires (forall x | x in xs :: x.VariableStmt? && WellFormedStmt(x)) && At(ts, p, PrintStmts(xs))
    ensures Members(before, [], ts, p) == Members(before + xs, [], ts, After(p, PrintStmts(xs)))
    decreases xs
  {
    hide Has, Members, VarDeclaration, PrintStmt, WellFormedStmt;
    if xs == [] {
      assert before + xs == before;
    } else {
      var s := xs[0];
      Split(ts, p, PrintStmt(s), PrintStmts(xs[1..]));
      ReadField(s, ts, p);
      FieldStep(before, [], ts, p);
      ReadFields(before + [s], xs[1..], ts, After(p, PrintStmt(s)));
      MoveFirst(before, xs);
    }
  }

  lemma {:induction false} ReadMethods(
    fields: seq<Stmt>, before: seq<Stmt>, xs: seq<Stmt>, ts: seq<Token>, p: Cursor)
    requires (forall x | x in xs :: x.FunctionStmt? && WellFormedStmt(x)) && At(ts, p, PrintStmts(xs))
    ensures Members(fields, before, ts, p) == Members(fields, before + xs, ts, After(p, PrintStmts(xs)))
    decreases xs, 0
  {
    hide Has, Members, FunctionDeclaration, Consume, PrintStmt, WellFormedStmt;
    if xs == [] {
      assert before + xs == before;
    } else {
      var s := xs[0];
      Split(ts, p, PrintStmt(s), PrintStmts(xs[1..]));
      ReadMethod(s, ts, p);
      MethodStep(fields, before, ts, p);
      ReadMethods(fields, before + [s], xs[1..], ts, After(p, PrintStmt(s)));
      MoveFirst(before, xs);
    }
  }

  lemma {:induction false} ReadMethod(s: Stmt, ts: seq<Token>, p: Cursor)
    requires s.FunctionStmt? && WellFormedStmt(s) && At(ts, p, PrintStmt(s))
    ensures (KindAt(ts, p) == Def || KindAt(ts, p) == Async) && Good(ts, p.Advance())
    ensures FunctionDeclaration(ts, p.Advance()) == Ok(s, After(p, PrintStmt(s)))
    decreases s, 3
  {
    hide Has, FunctionDeclaration, Consume, PrintFunction, WellFormedStmt;
    if s.isAsync {
      Peel(ts, p, ASYNC, [DEF] + PrintFunction(s));
      Peel(ts, p.Advance(), DEF, PrintFunction(s));
      ReadFunction(s, ts, p.Advance(), p.Advance().Advance());
    } else {
      Peel(ts, p, DEF, PrintFunction(s));
      ReadFunction(s, ts, p.Advance(), p.Advance());
    }
  }

  // The program

  lemma {:induction false} ReadProgram(before: seq<Stmt>, ss: seq<Stmt>, ts: seq<Token>, p: Cursor)
    requires (forall s | s in ss :: WellFormedStmt(s)) && At(ts, p, PrintStmts(ss))
    requires Next(ts, p, PrintStmts(ss)) == Eof
    ensures Program(before, ts, p) == (before + ss, After(p, PrintStmts(ss)))
    decreases ss
  {
    hide Has, Good, Declaration, PrintStmt, WellFormedStmt;
    if ss == [] {
      assert before + ss == before;
    } else {
      Split(ts, p, PrintStmt(ss[0]), PrintStmts(ss[1..]));
      FollowsAll(ss, ts, p);
      ReadDeclaration(ss[0], ts, p);
      PrintedIsPresent(ss[0]);
      ReadProgram(before + [ss[0]], ss[1..], ts, After(p, PrintStmt(ss[0])));
      MoveFirst(before, ss);
    }
  }

  lemma {:induction false} PrintedIsPresent(s: Stmt)
    requires WellFormedStmt(s)
    ensures !s.Missing?
  {
  }

  /** Printing a program and parsing the tokens gives back its statements and reports nothing. */
  lemma {:induction false} ProgramReturns(ss: seq<Stmt>, ts: seq<Token>)
    requires (forall s | s in ss :: WellFormedStmt(s))
    requires EndMarked(ts) && ts[..|ts| - 1] == PrintStmts(ss)
    ensures Program([], ts, Cursor(0, [])) == (ss, Cursor(|ts| - 1, []))
  {
    hide PrintStmts, WellFormedStmt, Program;
    assert ts[0..0 + |PrintStmts(ss)|] == PrintStmts(ss);
    ReadProgram([], ss, ts, Cursor(0, []));
    MoveNothing(ss);
  }
}
