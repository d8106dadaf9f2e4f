/** The converse for statements: what the parser returns without a report are well-formed programs. Their text need not
    be the printed one (the type of a function can stand behind a colon, and the order of the members of a class and of
    the default of a match is not kept), but printing them and parsing again gives the same program. */
module StatementExactness {
  // One lemma for each function of the grammar again: an unreported result is well formed.

  import opened Tokens
  import opened Wrappers
  import opened Grammar
  import opened Statements
  import opened RoundTrip
  import opened Exactness
  import opened StatementRoundTrip

  /** Tokens with their usual spelling, and none that begins a construct without a printed form. */
  ghost predicate Usual(ts: seq<Token>, from: nat, to: nat) {
    to <= |ts| && forall i :: from <= i < to ==> Allowed(ts[i]) && ts[i].kind != Select
  }

  lemma {:induction false} UsualPart(ts: seq<Token>, from: nat, to: nat, from': nat, to': nat)
    requires Usual(ts, from, to) && from <= from' && to' <= to
    ensures Usual(ts, from', to') && AllowedIn(ts, from', to')
  {
  }

  /** Everything between p and the end of the result is usual, and nothing was reported there. */
  ghost predicate Smooth<T>(ts: seq<Token>, p: Cursor, r: Result<T>) {
    Clean(p, r) && Usual(ts, p.pos, r.rest.pos)
  }

  ghost predicate SmoothTo(ts: seq<Token>, p: Cursor, q: Cursor) {
    |q.reports| == |p.reports| && Usual(ts, p.pos, q.pos)
  }

  // Types

  lemma {:induction false} TypeSound(ts: seq<Token>, p: Cursor)
    requires Good(ts, p) && Clean(p, ParseType(ts, p))
    ensures WellFormedType(ParseType(ts, p).value)
    decreases |ts| - p.pos, 1
  {
    hide TypeTail, Consume, WellFormedType;
    var (t, q) := Consume(ts, p, Identifier);
    ConsumedOne(ts, p, Identifier);
    TypeTailSound(t, ts, q);
  }

  lemma {:induction false} TypeTailSound(t: Token, ts: seq<Token>, p: Cursor)
    requires Good(ts, p) && t.kind == Identifier && Clean(p, TypeTail(t, ts, p))
    ensures WellFormedType(TypeTail(t, ts, p).value)
    decreases |ts| - p.pos, 0
  {
    hide TypeList, OptionalTypes, ParseType, Consume;
    var k := KindAt(ts, p);
    if k == Less {
      TypeListSound([], Comma, ts, p.Advance());
    } else if k == LeftParen {
      FunctionTypeSound(t, ts, p.Advance());
    }
  }

  lemma {:induction false} FunctionTypeSound(t: Token, ts: seq<Token>, p: Cursor)
    requires Good(ts, p) && t.kind == Identifier && Clean(p, FunctionTypeRest(t, ts, p))
    ensures WellFormedType(FunctionTypeRest(t, ts, p).value)
    decreases |ts| - p.pos, 4
  {
    hide TypeList, ParseType, Consume;
    var r := OptionalTypes(ts, p);
    if KindAt(ts, p) != RightParen {
      TypeListSound([], Comma, ts, p);
    }
    var (_, q1) := Consume(ts, r.rest, RightParen);
    var (_, q2) := Consume(ts, q1, Arrow);
    TypeSound(ts, q2);
  }

  lemma {:induction false} TypeListSound(before: seq<TypeExpr>, separator: Kind, ts: seq<Token>, p: Cursor)
    requires Good(ts, p) && separator != Eof && (forall x | x in before :: WellFormedType(x))
    requires Clean(p, TypeList(before, separator, ts, p))
    ensures var xs := TypeList(before, separator, ts, p).value;
            xs != [] && forall x | x in xs :: WellFormedType(x)
    decreases |ts| - p.pos, 2
  {
    hide ParseType, WellFormedType;
    var r := ParseType(ts, p);
    TypeSound(ts, p);
    if KindAt(ts, r.rest) == separator {
      TypeListSound(before + [r.value], separator, ts, r.rest.Advance());
    }
  }

  lemma {:induction false} ParameterListSound(before: seq<Parameter>, ts: seq<Token>, p: Cursor)
    requires Good(ts, p) && (forall x | x in before :: WellFormedType(x.paramType))
    requires Clean(p, ParameterList(before, ts, p))
    ensures forall x | x in ParameterList(before, ts, p).value :: WellFormedType(x.paramType)
    decreases |ts| - p.pos
  {
    hide ParameterAt, WellFormedType;
    var r := ParameterAt(ts, p);
    ParameterSound(ts, p);
    if KindAt(ts, r.rest) == Comma {
      ParameterListSound(before + [r.value], ts, r.rest.Advance());
    }
  }

  lemma {:induction false} ParameterSound(ts: seq<Token>, p: Cursor)
    requires Good(ts, p) && Clean(p, ParameterAt(ts, p))
    ensures WellFormedType(ParameterAt(ts, p).value.paramType)
  {
    hide ParseType, Consume, WellFormedType;
    var (_, q) := Consume(ts, p, Identifier);
    var (_, q1) := Consume(ts, q, Colon);
    TypeSound(ts, q1);
  }

  lemma {:induction false} ParametersSound(ts: seq<Token>, p: Cursor)
    requires Good(ts, p) && Clean(p, ParametersInParens(ts, p))
    ensures forall x | x in ParametersInParens(ts, p).value :: WellFormedType(x.paramType)
  {
    hide ParameterList, Consume, WellFormedType;
    var (_, q) := Consume(ts, p, LeftParen);
    if KindAt(ts, q) != RightParen {
      ParameterListSound([], ts, q);
    }
  }

  lemma {:induction false} OptionalTypeSound(ts: seq<Token>, p: Cursor)
    requires Good(ts, p) && Clean(p, OptionalType(ts, p))
    ensures WellFormedTypeOption(OptionalType(ts, p).value)
  {
    hide ParseType, WellFormedType;
    if KindAt(ts, p) == Colon {
      TypeSound(ts, p.Advance());
    }
  }

  lemma {:induction false} ReturnTypeSound(ts: seq<Token>, p: Cursor)
    requires Good(ts, p) && Clean(p, ReturnType(ts, p))
    ensures var t := ReturnType(ts, p).value; t == NO_TYPE || WellFormedType(t)
  {
    hide ParseType, WellFormedType;
    if KindAt(ts, p) == Arrow || KindAt(ts, p) == Colon {
      TypeSound(ts, p.Advance());
    }
  }

  // Expressions

  lemma {:induction false} OperandSound(ts: seq<Token>, p: Cursor)
    requires Good(ts, p) && Smooth(ts, p, Expression(ts, p))
    ensures WellFormed(Expression(ts, p).value)
    ensures KindAt(ts, p) != LeftBrace ==> StandsAlone(Expression(ts, p).value)
  {
    hide Expression, WellFormed, Print, Has, Ends, Begins;
    var r := Expression(ts, p);
    UsualPart(ts, p.pos, r.rest.pos, p.pos, r.rest.pos);
    ExpressionSound(ts, p);
    FirstToken(r.value);
    FirstOf(ts, p.pos, Print(r.value));
  }

  lemma {:induction false} OptionalInitializerSound(ts: seq<Token>, p: Cursor)
    requires Good(ts, p) && Smooth(ts, p, OptionalInitializer(ts, p))
    ensures WellFormedOption(OptionalInitializer(ts, p).value)
  {
    hide Expression, WellFormed, StandsAlone;
    if KindAt(ts, p) == Equal {
      OperandSound(ts, p.Advance());
    }
  }

  lemma {:induction false} OptionalValueSound(ts: seq<Token>, p: Cursor)
    requires Good(ts, p) && Smooth(ts, p, OptionalValue(ts, p))
    ensures WellFormedOption(OptionalValue(ts, p).value)
  {
    hide Expression, WellFormed, StandsAlone;
    if KindAt(ts, p) != SemiColon {
      OperandSound(ts, p);
    }
  }

  // Declarations

  lemma {:induction false} VariableSound(ts: seq<Token>, p: Cursor)
    requires Good(ts, p) && p.pos > 0 && Smooth(ts, p, VarDeclaration(ts, p))
    ensures var s := VarDeclaration(ts, p).value; s.VariableStmt? && WellFormedStmt(s)
  {
    hide OptionalType, OptionalInitializer, Consume, WellFormedTypeOption, WellFormedOption, Allowed;
    var (name, q) := Consume(ts, p, Identifier);
    ConsumedOne(ts, p, Identifier);
    var varType := OptionalType(ts, q);
    OptionalTypeSound(ts, q);
    OptionalInitializerSound(ts, varType.rest);
  }

  lemma {:induction false} HeadSound(ts: seq<Token>, p: Cursor)
    requires Good(ts, p) && p.pos > 0 && Clean(p, FunctionHead(ts, p))
    ensures WellFormedHead(FunctionHead(ts, p).value)
  {
    hide ParametersInParens, ReturnType, Consume, WellFormedType;
    var q0 := DefAfterAsync(ts, p);
    var (name, q) := Consume(ts, q0, Identifier);
    ConsumedOne(ts, q0, Identifier);
    ParametersSound(ts, q);
    ReturnTypeSound(ts, ParametersInParens(ts, q).rest);
  }

  lemma {:induction false} FunctionSound(ts: seq<Token>, p: Cursor)
    requires Good(ts, p) && p.pos > 0 && Smooth(ts, p, FunctionDeclaration(ts, p))
    ensures var s := FunctionDeclaration(ts, p).value; s.FunctionStmt? && WellFormedStmt(s)
    decreases |ts| - p.pos, 64
  {
    hide FunctionHead, Braced, WellFormedHead, IsBody, Allowed;
    var head := FunctionHead(ts, p);
    HeadSound(ts, p);
    BracedSound(ts, head.rest);
    NameOfHead(head.value);
  }

  lemma {:induction false} NameOfHead(h: Head)
    requires WellFormedHead(h)
    ensures IsName(h.tok, h.tok.text)
  {
  }

  // Blocks

  lemma {:induction false} BracedSound(ts: seq<Token>, p: Cursor)
    requires Good(ts, p) && p.pos > 0 && SmoothTo(ts, p, Braced(ts, p).1)
    ensures IsBody(Braced(ts, p).0)
    decreases |ts| - p.pos, 63
  {
    hide Block, IsBody, Allowed;
    var (_, q) := Consume(ts, p, LeftBrace);
    BlockSound(ts, q);
  }

  lemma {:induction false} BlockSound(ts: seq<Token>, p: Cursor)
    requires Good(ts, p) && p.pos > 0 && SmoothTo(ts, p, Block(ts, p).1)
    ensures IsBody(Block(ts, p).0)
    decreases |ts| - p.pos, 62
  {
    hide BlockItems, WellFormedStmt, Allowed, Consume;
    var (statements, q) := BlockItems([], ts, p);
    ConsumedOne(ts, q, RightBrace);
    BlockItemsSound([], ts, p);
  }

  lemma {:induction false} BlockItemsSound(before: seq<Stmt>, ts: seq<Token>, p: Cursor)
    requires Good(ts, p) && (forall s | s in before :: WellFormedStmt(s))
    requires SmoothTo(ts, p, BlockItems(before, ts, p).1)
    ensures forall s | s in BlockItems(before, ts, p).0 :: WellFormedStmt(s)
    decreases |ts| - p.pos, 61
  {
    hide Declaration, WellFormedStmt, Allowed;
    if KindAt(ts, p) != RightBrace && KindAt(ts, p) != Eof {
      var (s, q) := Declaration(ts, p);
      DeclarationSound(ts, p);
      BlockItemsSound(before + [s], ts, q);
    }
  }

  lemma {:induction false} DeclarationSound(ts: seq<Token>, p: Cursor)
    requires Good(ts, p) && KindAt(ts, p) != Eof && SmoothTo(ts, p, Declaration(ts, p).1)
    ensures WellFormedStmt(Declaration(ts, p).0)
    decreases |ts| - p.pos, 60
  {
    hide TryDeclaration, Synchronized, WellFormedStmt, Allowed;
    StatementSound(ts, p);
  }

  lemma {:induction false} StatementSound(ts: seq<Token>, p: Cursor)
    requires Good(ts, p) && KindAt(ts, p) != Eof && Smooth(ts, p, TryDeclaration(ts, p))
    ensures WellFormedStmt(TryDeclaration(ts, p).value)
    decreases |ts| - p.pos, 59
  {
    hide TryDeclaration, VarDeclaration, FunctionDeclaration, ClassDeclaration, ImportRest, WellFormedStmt, Good;
    hide IfRest, WhileRest, ForRest, BlockRest, SimpleStatement, Allowed;
    NextIsGood(ts, p);
    var k := KindAt(ts, p);
    DispatchDeclaration(ts, p);
    DispatchStatement(ts, p);
    if k == Let || k == Const {
      VariableSound(ts, p.Advance());
    } else if k == Def || k == Async {
      FunctionSound(ts, p.Advance());
    } else if k == Class {
      ClassSound(ts, p.Advance());
    } else if k == Import {
      ImportSound(ts, p.Advance());
    } else {
      OtherStatementSound(ts, p);
    }
  }

  lemma {:induction false} OtherStatementSound(ts: seq<Token>, p: Cursor)
    requires Good(ts, p) && KindAt(ts, p) != Eof && Smooth(ts, p, TryDeclaration(ts, p))
    requires var k := KindAt(ts, p);
             k != Let && k != Const && k != Def && k != Async && k != Class && k != Import
    ensures WellFormedStmt(TryDeclaration(ts, p).value)
    decreases |ts| - p.pos, 58
  {
    hide TryDeclaration, WellFormedStmt, IfRest, WhileRest, ForRest, BlockRest, SimpleStatement, Good, Allowed;
    NextIsGood(ts, p);
    var k := KindAt(ts, p);
    DispatchStatement(ts, p);
    if k == If {
      IfSound(ts, p.Advance());
    } else if k == While {
      WhileSound(ts, p.Advance());
    } else if k == For {
      ForSound(ts, p.Advance());
    } else if k == LeftBrace {
      NestedSound(ts, p.Advance());
    } else {
      SimpleSound(ts, p);
    }
  }

  lemma {:induction false} SimpleSound(ts: seq<Token>, p: Cursor)
    requires Good(ts, p) && KindAt(ts, p) != Eof && Smooth(ts, p, TryDeclaration(ts, p))
    requires var k := KindAt(ts, p);
             k == Return || k == Match || k == Go || k == Select || StartsExpression(k)
    ensures WellFormedStmt(TryDeclaration(ts, p).value)
    decreases |ts| - p.pos, 57
  {
    hide TryDeclaration, SimpleStatement, ReturnRest, MatchRest, GoRest, ExpressionRest, WellFormedStmt, Good, Allowed;
    NextIsGood(ts, p);
    var k := KindAt(ts, p);
    assert k != Select by {
      assert p.pos < TryDeclaration(ts, p).rest.pos;
    }
    SimpleKinds(ts, p);
    IsSimple(ts, p);
    if k == Return {
      ReturnSound(ts, p.Advance());
    } else if k == Match {
      MatchSound(ts, p.Advance());
    } else if k == Go {
      GoSound(ts, p.Advance());
    } else {
      ExpressionStmtSound(ts, p);
    }
  }

  lemma {:induction false} ImportSound(ts: seq<Token>, p: Cursor)
    requires Good(ts, p) && Smooth(ts, p, ImportRest(ts, p))
    ensures WellFormedStmt(ImportRest(ts, p).value)
  {
    hide Consume, Allowed;
    ConsumedOne(ts, p, Identifier);
  }

  lemma {:induction false} ExpressionStmtSound(ts: seq<Token>, p: Cursor)
    requires Good(ts, p) && Smooth(ts, p, ExpressionRest(ts, p)) && KindAt(ts, p) != LeftBrace
    ensures WellFormedStmt(ExpressionRest(ts, p).value)
  {
    hide Expression, Consume, StandsAlone, Allowed;
    OperandSound(ts, p);
  }

  lemma {:induction false} NestedSound(ts: seq<Token>, p: Cursor)
    requires Good(ts, p) && p.pos > 0 && Smooth(ts, p, BlockRest(ts, p))
    ensures WellFormedStmt(BlockRest(ts, p).value)
    decreases |ts| - p.pos, 63
  {
    hide Block, Allowed;
    BlockSound(ts, p);
  }

  lemma {:induction false} ReturnSound(ts: seq<Token>, p: Cursor)
    requires Good(ts, p) && p.pos > 0 && ts[p.pos - 1].kind == Return && Smooth(ts, p, ReturnRest(ts, p))
    ensures WellFormedStmt(ReturnRest(ts, p).value)
  {
    hide OptionalValue, Consume, WellFormedOption, Allowed;
    OptionalValueSound(ts, p);
  }

  lemma {:induction false} GoSound(ts: seq<Token>, p: Cursor)
    requires Good(ts, p) && p.pos > 0 && ts[p.pos - 1].kind == Go && Smooth(ts, p, GoRest(ts, p))
    ensures WellFormedStmt(GoRest(ts, p).value)
  {
    hide Expression, WellFormed, StandsAlone, Allowed, Consume;
    var (_, q) := Consume(ts, p, LeftParen);
    OperandSound(ts, q);
  }

  lemma {:induction false} GuardedSound(ts: seq<Token>, p: Cursor)
    requires Good(ts, p) && p.pos > 0 && Smooth(ts, p, Guarded(ts, p))
    ensures var b := Guarded(ts, p).value; WellFormed(b.test) && IsBody(b.body)
    decreases |ts| - p.pos, 64
  {
    hide Expression, Braced, WellFormed, StandsAlone, IsBody, Allowed;
    OperandSound(ts, p);
    BracedSound(ts, Expression(ts, p).rest);
  }

  lemma {:induction false} WhileSound(ts: seq<Token>, p: Cursor)
    requires Good(ts, p) && p.pos > 0 && Smooth(ts, p, WhileRest(ts, p))
    ensures WellFormedStmt(WhileRest(ts, p).value)
    decreases |ts| - p.pos, 65
  {
    hide Guarded, WellFormed, IsBody, Allowed;
    GuardedSound(ts, p);
  }

  lemma {:induction false} ForSound(ts: seq<Token>, p: Cursor)
    requires Good(ts, p) && p.pos > 0 && Smooth(ts, p, ForRest(ts, p))
    ensures WellFormedStmt(ForRest(ts, p).value)
    decreases |ts| - p.pos, 65
  {
    hide OptionalType, Guarded, Consume, WellFormed, WellFormedTypeOption, IsBody, Allowed;
    var (name, q) := Consume(ts, p, Identifier);
    ConsumedOne(ts, p, Identifier);
    OptionalTypeSound(ts, q);
    var (_, q1) := Consume(ts, OptionalType(ts, q).rest, In);
    GuardedSound(ts, q1);
  }

  lemma {:induction false} IfSound(ts: seq<Token>, p: Cursor)
    requires Good(ts, p) && p.pos > 0 && Smooth(ts, p, IfRest(ts, p))
    ensures WellFormedStmt(IfRest(ts, p).value)
    decreases |ts| - p.pos, 66
  {
    hide Guarded, Elifs, OptionalElse, WellFormed, IsBody, Allowed;
    GuardedSound(ts, p);
    var q := Guarded(ts, p).rest;
    ElifsSound([], ts, q);
    ElseSound(ts, Elifs([], ts, q).rest);
  }

  lemma {:induction false} ElifsSound(before: seq<Branch>, ts: seq<Token>, p: Cursor)
    requires Good(ts, p) && (forall b | b in before :: WellFormed(b.test) && IsBody(b.body))
    requires Smooth(ts, p, Elifs(before, ts, p))
    ensures forall b | b in Elifs(before, ts, p).value :: WellFormed(b.test) && IsBody(b.body)
    decreases |ts| - p.pos, 65
  {
    hide Guarded, WellFormed, IsBody, Allowed;
    if KindAt(ts, p) == Elif {
      var r := Guarded(ts, p.Advance());
      GuardedSound(ts, p.Advance());
      ElifsSound(before + [r.value], ts, r.rest);
    }
  }

  lemma {:induction false} ElseSound(ts: seq<Token>, p: Cursor)
    requires Good(ts, p) && SmoothTo(ts, p, OptionalElse(ts, p).1)
    ensures var b := OptionalElse(ts, p).0; b.Some? ==> IsBody(b.value)
    decreases |ts| - p.pos, 65
  {
    hide Braced, IsBody, Allowed;
    if KindAt(ts, p) == Else {
      BracedSound(ts, p.Advance());
    }
  }

  // Matches

  lemma {:induction false} MatchSound(ts: seq<Token>, p: Cursor)
    requires Good(ts, p) && Smooth(ts, p, MatchRest(ts, p))
    ensures WellFormedStmt(MatchRest(ts, p).value)
    decreases |ts| - p.pos, 67
  {
    hide Expression, Cases, Consume, WellFormed, StandsAlone, IsBody, Allowed;
    OperandSound(ts, p);
    var (_, q) := Consume(ts, Expression(ts, p).rest, LeftBrace);
    CasesSound([], None, ts, q);
  }

  lemma {:induction false} CasesSound(before: seq<Branch>, otherwise: Option<Stmt>, ts: seq<Token>, p: Cursor)
    requires Good(ts, p) && (forall b | b in before :: WellFormed(b.test) && IsBody(b.body))
    requires (otherwise.Some? ==> IsBody(otherwise.value)) && Smooth(ts, p, Cases(before, otherwise, ts, p))
    ensures var (cases, b) := Cases(before, otherwise, ts, p).value;
            (forall c | c in cases :: WellFormed(c.test) && IsBody(c.body)) && (b.Some? ==> IsBody(b.value))
    decreases |ts| - p.pos, 66
  {
    hide CaseAt, WellFormed, IsBody, Allowed;
    if KindAt(ts, p) != RightBrace && KindAt(ts, p) != Eof {
      var r := CaseAt(before, otherwise, ts, p);
      CaseAtSound(before, otherwise, ts, p);
      CasesSound(r.value.0, r.value.1, ts, r.rest);
    }
  }

  lemma {:induction false} CaseAtSound(before: seq<Branch>, otherwise: Option<Stmt>, ts: seq<Token>, p: Cursor)
    requires Good(ts, p) && KindAt(ts, p) != Eof
    requires forall b | b in before :: WellFormed(b.test) && IsBody(b.body)
    requires (otherwise.Some? ==> IsBody(otherwise.value)) && Smooth(ts, p, CaseAt(before, otherwise, ts, p))
    ensures var (cases, b) := CaseAt(before, otherwise, ts, p).value;
            (forall c | c in cases :: WellFormed(c.test) && IsBody(c.body)) && (b.Some? ==> IsBody(b.value))
    decreases |ts| - p.pos, 65
  {
    hide CaseRest, DefaultRest, WellFormed, IsBody, Allowed;
    if KindAt(ts, p) == Case {
      CaseSound(ts, p.Advance());
    } else if KindAt(ts, p) == Default {
      CaseBodySound(ts, p.Advance());
    }
  }

  lemma {:induction false} CaseSound(ts: seq<Token>, p: Cursor)
    requires Good(ts, p) && p.pos > 0 && Smooth(ts, p, CaseRest(ts, p))
    ensures var b := CaseRest(ts, p).value; WellFormed(b.test) && IsBody(b.body)
    decreases |ts| - p.pos, 64
  {
    hide Expression, DefaultRest, WellFormed, StandsAlone, IsBody, Allowed;
    OperandSound(ts, p);
    CaseBodySound(ts, Expression(ts, p).rest);
  }

  lemma {:induction false} CaseBodySound(ts: seq<Token>, p: Cursor)
    requires Good(ts, p) && p.pos > 0 && SmoothTo(ts, p, DefaultRest(ts, p).1)
    ensures IsBody(DefaultRest(ts, p).0)
    decreases |ts| - p.pos, 63
  {
    hide Block, IsBody, Allowed, Consume;
    var (_, q) := Consume(ts, p, Colon);
    BlockSound(ts, q);
  }

  // Classes

  lemma {:induction false} ClassSound(ts: seq<Token>, p: Cursor)
    requires Good(ts, p) && Smooth(ts, p, ClassDeclaration(ts, p))
    ensures WellFormedStmt(ClassDeclaration(ts, p).value)
    decreases |ts| - p.pos, 67
  {
    hide Members, Consume, Allowed;
    var (name, q) := Consume(ts, p, Identifier);
    ConsumedOne(ts, p, Identifier);
    var (_, q1) := Consume(ts, q, LeftBrace);
    MembersSound([], [], ts, q1);
  }

  ghost predicate AreMembers(fields: seq<Stmt>, methods: seq<Stmt>) {
    && (forall x | x in fields :: x.VariableStmt? && WellFormedStmt(x))
    && (forall x | x in methods :: x.FunctionStmt? && WellFormedStmt(x))
  }

  lemma {:induction false} MembersSound(fields: seq<Stmt>, methods: seq<Stmt>, ts: seq<Token>, p: Cursor)
    requires Good(ts, p) && AreMembers(fields, methods) && Smooth(ts, p, Members(fields, methods, ts, p))
    ensures var (xs, ys) := Members(fields, methods, ts, p).value; AreMembers(xs, ys)
    decreases |ts| - p.pos, 66
  {
    hide Member, AreMembers, Allowed;
    if KindAt(ts, p) != RightBrace && KindAt(ts, p) != Eof {
      var r := Member(fields, methods, ts, p);
      MemberSound(fields, methods, ts, p);
      MembersSound(r.value.0, r.value.1, ts, r.rest);
    }
  }

  lemma {:induction false} MemberSound(fields: seq<Stmt>, methods: seq<Stmt>, ts: seq<Token>, p: Cursor)
    requires Good(ts, p) && KindAt(ts, p) != Eof && AreMembers(fields, methods)
    requires Smooth(ts, p, Member(fields, methods, ts, p))
    ensures var (xs, ys) := Member(fields, methods, ts, p).value; AreMembers(xs, ys)
    decreases |ts| - p.pos, 65
  {
    hide VarDeclaration, FunctionDeclaration, WellFormedStmt, Allowed;
    var k := KindAt(ts, p);
    if k == Let || k == Const {
      VariableSound(ts, p.Advance());
    } else if k == Def || k == Async {
      FunctionSound(ts, p.Advance());
    }
  }

  // The program

  lemma {:induction false} ProgramSound(before: seq<Stmt>, ts: seq<Token>, p: Cursor)
    requires Good(ts, p) && (forall s | s in before :: WellFormedStmt(s)) && SmoothTo(ts, p, Program(before, ts, p).1)
    ensures forall s | s in Program(before, ts, p).0 :: WellFormedStmt(s)
    decreases |ts| - p.pos
  {
    hide Declaration, WellFormedStmt, Allowed;
    if KindAt(ts, p) != Eof {
      var (s, q) := Declaration(ts, p);
      DeclarationSound(ts, p);
      ProgramSound(if s.Missing? then before else before + [s], ts, q);
    }
  }

  /** What is parsed without a report can be printed, and parsing the printed tokens gives back the same program: the
      printed form is a normal form of every accepted program. */
  lemma {:induction false} ProgramIsNormal(ts: seq<Token>, end: Token)
    requires EndMarked(ts) && end.kind == Eof
    requires SmoothTo(ts, Cursor(0, []), Program([], ts, Cursor(0, [])).1)
    ensures var (ss, _) := Program([], ts, Cursor(0, []));
            var text := PrintStmts(ss) + [end];
            && (forall s | s in ss :: WellFormedStmt(s))
            && Program([], text, Cursor(0, [])) == (ss, Cursor(|text| - 1, []))
  {
    hide Program, WellFormedStmt, PrintStmts, Usual;
    var ss := Program([], ts, Cursor(0, [])).0;
    ProgramSound([], ts, Cursor(0, []));
    var text := PrintStmts(ss) + [end];
    assert text[..|text| - 1] == PrintStmts(ss);
    ProgramReturns(ss, text);
  }

  /** So the programs that are parsed without a report, from usual tokens, are exactly the well-formed ones. */
  lemma {:induction false} ExactlyWellFormed(ss: seq<Stmt>)
    requires Usual(PrintStmts(ss), 0, |PrintStmts(ss)|)
    ensures (exists ts :: Accepts(ts, ss)) <==> forall s | s in ss :: WellFormedStmt(s)
  {
    hide Program, WellFormedStmt, PrintStmts, Allowed;
    if ts :| Accepts(ts, ss) {
      ProgramSound([], ts, Cursor(0, []));
    }
    if forall s | s in ss :: WellFormedStmt(s) {
      var end := Token(Eof, "");
      var ts := PrintStmts(ss) + [end];
      assert ts[..|ts| - 1] == PrintStmts(ss);
      ProgramReturns(ss, ts);
      assert Accepts(ts, ss);
    }
  }

  /** Parsing the tokens gives these statements and no report. */
  ghost predicate Accepts(ts: seq<Token>, ss: seq<Stmt>) {
    && EndMarked(ts) && Usual(ts, 0, |ts| - 1)
    && Program([], ts, Cursor(0, [])) == (ss, Cursor(|ts| - 1, []))
  }
}
