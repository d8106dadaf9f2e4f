/** The parser of src/parser/parser.cpp: a cursor over the token list, moved by one method per grammar rule. An
    exception is the result Exception, which `:-` passes on. The methods are proved to compute the functions of modules
    Grammar and Statements. */
module Parsing {
  import opened Tokens
  import opened Wrappers
  import opened Grammar
  import opened Statements
  import opened Climbing

  datatype Maybe<+T> = Value(value: T) | Exception {
    predicate IsFailure() { Exception? }
    function PropagateFailure<U>(): Maybe<U> requires Exception? { Exception }
    function Extract(): T requires Value? { value }
  }

  class Parser {
    const tokens: seq<Token>
    var current: nat
    var reports: seq<Report>

    ghost predicate Valid()
      reads this
    {
      Good(tokens, Cursor(current, reports))
    }

    /** Whether a method's result and the state it leaves are those of the grammar. */
    static ghost predicate Gives<T>(r: Maybe<T>, pos: nat, reports: seq<Report>, g: Result<T>) {
      && r.Value? == g.Ok? && (r.Value? ==> r.value == g.value)
      && pos == g.rest.pos && reports == g.rest.reports
    }

    constructor (ts: seq<Token>)
      requires EndMarked(ts)
      ensures Valid() && tokens == ts && Cursor(current, reports) == Cursor(0, [])
    {
      tokens, current, reports := ts, 0, [];
    }

    function Peek(): Token
      requires Valid()
      reads this
    {
      tokens[current]
    }

    function IsAtEnd(): bool
      requires Valid()
      reads this
    {
      tokens[current].kind == Eof
    }

    method Advance() returns (t: Token)
      requires Valid() && (IsAtEnd() ==> current > 0)
      modifies this`current
      ensures Valid() && current == if old(IsAtEnd()) then old(current) else old(current) + 1
      ensures t == tokens[current - 1]
    {
      if !IsAtEnd() {
        current := current + 1;
      }
      return tokens[current - 1];
    }

    method Match(k: Kind) returns (matched: bool)
      requires Valid() && k != Eof
      modifies this`current
      ensures Valid() && matched == (tokens[old(current)].kind == k)
      ensures current == if matched then old(current) + 1 else old(current)
    {
      if tokens[current].kind == k {
        var _ := Advance();
        return true;
      }
      return false;
    }

    /** Does not advance when the expected token is missing. */
    method Consume(k: Kind) returns (t: Token)
      requires Valid() && k != Eof
      modifies this
      ensures Valid() && (t, Cursor(current, reports)) == Grammar.Consume(tokens, Cursor(old(current), old(reports)), k)
    {
      if tokens[current].kind == k {
        t := Advance();
        return;
      }
      reports := reports + [Unexpected(Peek())];
      return Peek();
    }

    // Types and parameters

    method ParseType() returns (r: Maybe<TypeExpr>)
      requires Valid()
      modifies this
      ensures Valid()
           && Gives(r, current, reports, Grammar.ParseType(tokens, Cursor(old(current), old(reports))))
      decreases |tokens| - current, 1
    {
      hide TypeTail, Grammar.Consume;
      var token := Consume(Identifier);
      r := ParseTypeTail(token);
    }

    method ParseTypeTail(token: Token) returns (r: Maybe<TypeExpr>)
      requires Valid()
      modifies this
      ensures Valid() && Gives(r, current, reports, TypeTail(token, tokens, Cursor(old(current), old(reports))))
      decreases |tokens| - current, 0
    {
      hide GenericRest, FunctionTypeRest, UnionRest;
      var k := tokens[current].kind;
      if k == Less {
        current := current + 1;
        r := ParseGenericType(token);
      } else if k == LeftParen {
        current := current + 1;
        r := ParseFunctionType(token);
      } else if k == Or {
        current := current + 1;
        r := ParseUnionType();
      } else {
        r := Value(Simple(token));
      }
    }

    method ParseGenericType(token: Token) returns (r: Maybe<TypeExpr>)
      requires Valid()
      modifies this
      ensures Valid() && Gives(r, current, reports, GenericRest(token, tokens, Cursor(old(current), old(reports))))
      decreases |tokens| - current, 4
    {
      hide TypeList, Grammar.Consume;
      var typeArgs :- ParseTypes(Comma);
      var _ := Consume(Greater);
      return Value(Generic(token, token.text, typeArgs));
    }

    method ParseFunctionType(token: Token) returns (r: Maybe<TypeExpr>)
      requires Valid()
      modifies this
      ensures Valid()
           && Gives(r, current, reports, FunctionTypeRest(token, tokens, Cursor(old(current), old(reports))))
      decreases |tokens| - current, 4
    {
      hide OptionalTypes, Grammar.ParseType, Grammar.Consume;
      var paramTypes :- ParseOptionalTypes();
      var _ := Consume(RightParen);
      var _ := Consume(Arrow);
      var returnType :- ParseType();
      return Value(FunctionOf(token, paramTypes, returnType));
    }

    method ParseOptionalTypes() returns (r: Maybe<seq<TypeExpr>>)
      requires Valid()
      modifies this
      ensures Valid()
           && Gives(r, current, reports, OptionalTypes(tokens, Cursor(old(current), old(reports))))
      decreases |tokens| - current, 3
    {
      hide TypeList;
      if tokens[current].kind == RightParen {
        r := Value([]);
      } else {
        r := ParseTypes(Comma);
      }
    }

    /** The constructor of UnionType tests the vector it has just moved from, and throws. */
    method ParseUnionType() returns (r: Maybe<TypeExpr>)
      requires Valid()
      modifies this
      ensures Valid() && Gives(r, current, reports, UnionRest(tokens, Cursor(old(current), old(reports))))
      decreases |tokens| - current, 4
    {
      hide TypeList;
      var _ :- ParseTypes(Or);
      return Exception;
    }

    /** The do-while loop over types separated by one token. */
    method ParseTypes(separator: Kind) returns (r: Maybe<seq<TypeExpr>>)
      requires Valid() && separator != Eof
      modifies this
      ensures Valid()
           && Gives(r, current, reports, TypeList([], separator, tokens, Cursor(old(current), old(reports))))
      decreases |tokens| - current, 2
    {
      hide Grammar.ParseType;
      var types := [];
      var more := true;
      while more
        invariant Valid() && current >= old(current)
        invariant more ==>
                    TypeList(types, separator, tokens, Cursor(current, reports))
                    == TypeList([], separator, tokens, Cursor(old(current), old(reports)))
        invariant !more ==>
                    Gives(Value(types), current, reports,
                          TypeList([], separator, tokens, Cursor(old(current), old(reports))))
        decreases |tokens| - current, more
      {
        var t :- ParseType();
        types := types + [t];
        more := Match(separator);
      }
      return Value(types);
    }

    method ParseParameters() returns (r: Maybe<seq<Parameter>>)
      requires Valid()
      modifies this
      ensures Valid() && Gives(r, current, reports, Parameters(tokens, Cursor(old(current), old(reports))))
    {
      hide ParameterList;
      if tokens[current].kind == RightParen {
        r := Value([]);
      } else {
        r := ParseParameterList();
      }
    }

    method ParseParameterList() returns (r: Maybe<seq<Parameter>>)
      requires Valid()
      modifies this
      ensures Valid()
      ensures Gives(r, current, reports, ParameterList([], tokens, Cursor(old(current), old(reports))))
    {
      hide ParameterAt;
      var parameters := [];
      var more := true;
      while more
        invariant Valid() && current >= old(current)
        invariant more ==>
                    ParameterList(parameters, tokens, Cursor(current, reports))
                    == ParameterList([], tokens, Cursor(old(current), old(reports)))
        invariant !more ==>
                    Gives(Value(parameters), current, reports,
                          ParameterList([], tokens, Cursor(old(current), old(reports))))
        decreases |tokens| - current, more
      {
        var parameter :- ParseParameter();
        parameters := parameters + [parameter];
        more := Match(Comma);
      }
      return Value(parameters);
    }

    method ParseParameter() returns (r: Maybe<Parameter>)
      requires Valid()
      modifies this
      ensures Valid() && Gives(r, current, reports, ParameterAt(tokens, Cursor(old(current), old(reports))))
    {
      hide Grammar.ParseType, Grammar.Consume;
      var name := Consume(Identifier);
      var _ := Consume(Colon);
      var t :- ParseType();
      return Value(Parameter(name.text, t));
    }

    // Expressions

    method ParseExpression() returns (r: Maybe<Expr>)
      requires Valid()
      modifies this
      ensures Valid() && Gives(r, current, reports, Expression(tokens, Cursor(old(current), old(reports))))
      decreases |tokens| - current, 41
    {
      r := Assignment();
    }

    method Assignment() returns (r: Maybe<Expr>)
      requires Valid()
      modifies this
      ensures Valid() && Gives(r, current, reports, Expression(tokens, Cursor(old(current), old(reports))))
      decreases |tokens| - current, 40
    {
      hide Level, Expression;
      ExpressionStep(tokens, Cursor(current, reports));
      var expr :- OrExpr();
      var assigns := Match(Equal);
      if assigns {
        var equals := tokens[current - 1];
        var value :- Assignment();
        if expr.Variable? {
          return Value(Assign(equals, expr.name, value));
        } else if expr.Get? {
          return Value(SetField(equals, expr.obj, expr.name, value));
        }
        reports := reports + [InvalidTarget(equals)];
      }
      return Value(expr);
    }

    method OrExpr() returns (r: Maybe<Expr>)
      requires Valid()
      modifies this
      ensures Valid() && Gives(r, current, reports, Level(0, tokens, Cursor(old(current), old(reports))))
      decreases |tokens| - current, 20
    {
      hide Level, LevelLoop, IsOperator;
      LevelStart(0, tokens, Cursor(current, reports));
      var expr :- AndExpr();
      while IsOperator(0, tokens[current].kind)
        invariant Valid() && current > old(current)
        invariant LevelLoop(0, expr, tokens, Cursor(current, reports))
               == Level(0, tokens, Cursor(old(current), old(reports)))
        decreases |tokens| - current
      {
        LoopTakes(0, expr, tokens, Cursor(current, reports));
        var op := tokens[current];
        current := current + 1;
        var right :- AndExpr();
        expr := Binary(expr, op, right);
      }
      LoopLeaves(0, expr, tokens, Cursor(current, reports));
      return Value(expr);
    }

    method AndExpr() returns (r: Maybe<Expr>)
      requires Valid()
      modifies this
      ensures Valid() && Gives(r, current, reports, Level(1, tokens, Cursor(old(current), old(reports))))
      decreases |tokens| - current, 19
    {
      hide Level, LevelLoop, IsOperator;
      LevelStart(1, tokens, Cursor(current, reports));
      var expr :- Equality();
      while IsOperator(1, tokens[current].kind)
        invariant Valid() && current > old(current)
        invariant LevelLoop(1, expr, tokens, Cursor(current, reports))
               == Level(1, tokens, Cursor(old(current), old(reports)))
        decreases |tokens| - current
      {
        LoopTakes(1, expr, tokens, Cursor(current, reports));
        var op := tokens[current];
        current := current + 1;
        var right :- Equality();
        expr := Binary(expr, op, right);
      }
      LoopLeaves(1, expr, tokens, Cursor(current, reports));
      return Value(expr);
    }

    method Equality() returns (r: Maybe<Expr>)
      requires Valid()
      modifies this
      ensures Valid() && Gives(r, current, reports, Level(2, tokens, Cursor(old(current), old(reports))))
      decreases |tokens| - current, 18
    {
      hide Level, LevelLoop, IsOperator;
      LevelStart(2, tokens, Cursor(current, reports));
      var expr :- Comparison();
      while IsOperator(2, tokens[current].kind)
        invariant Valid() && current > old(current)
        invariant LevelLoop(2, expr, tokens, Cursor(current, reports))
               == Level(2, tokens, Cursor(old(current), old(reports)))
        decreases |tokens| - current
      {
        LoopTakes(2, expr, tokens, Cursor(current, reports));
        var op := tokens[current];
        current := current + 1;
        var right :- Comparison();
        expr := Binary(expr, op, right);
      }
      LoopLeaves(2, expr, tokens, Cursor(current, reports));
      return Value(expr);
    }

    method Comparison() returns (r: Maybe<Expr>)
      requires Valid()
      modifies this
      ensures Valid() && Gives(r, current, reports, Level(3, tokens, Cursor(old(current), old(reports))))
      decreases |tokens| - current, 17
    {
      hide Level, LevelLoop, IsOperator;
      LevelStart(3, tokens, Cursor(current, reports));
      var expr :- Term();
      while IsOperator(3, tokens[current].kind)
        invariant Valid() && current > old(current)
        invariant LevelLoop(3, expr, tokens, Cursor(current, reports))
               == Level(3, tokens, Cursor(old(current), old(reports)))
        decreases |tokens| - current
      {
        LoopTakes(3, expr, tokens, Cursor(current, reports));
        var op := tokens[current];
        current := current + 1;
        var right :- Term();
        expr := Binary(expr, op, right);
      }
      LoopLeaves(3, expr, tokens, Cursor(current, reports));
      return Value(expr);
    }

    method Term() returns (r: Maybe<Expr>)
      requires Valid()
      modifies this
      ensures Valid() && Gives(r, current, reports, Level(4, tokens, Cursor(old(current), old(reports))))
      decreases |tokens| - current, 16
    {
      hide Level, LevelLoop, IsOperator;
      LevelStart(4, tokens, Cursor(current, reports));
      var expr :- Factor();
      while IsOperator(4, tokens[current].kind)
        invariant Valid() && current > old(current)
        invariant LevelLoop(4, expr, tokens, Cursor(current, reports))
               == Level(4, tokens, Cursor(old(current), old(reports)))
        decreases |tokens| - current
      {
        LoopTakes(4, expr, tokens, Cursor(current, reports));
        var op := tokens[current];
        current := current + 1;
        var right :- Factor();
        expr := Binary(expr, op, right);
      }
      LoopLeaves(4, expr, tokens, Cursor(current, reports));
      return Value(expr);
    }

    method Factor() returns (r: Maybe<Expr>)
      requires Valid()
      modifies this
      ensures Valid() && Gives(r, current, reports, Level(5, tokens, Cursor(old(current), old(reports))))
      decreases |tokens| - current, 15
    {
      hide Level, LevelLoop, UnaryExpr, IsOperator;
      FactorStart(tokens, Cursor(current, reports));
      var expr :- ParseUnary();
      while IsOperator(5, tokens[current].kind)
        invariant Valid() && current > old(current)
        invariant LevelLoop(5, expr, tokens, Cursor(current, reports))
               == Level(5, tokens, Cursor(old(current), old(reports)))
        decreases |tokens| - current
      {
        FactorTakes(expr, tokens, Cursor(current, reports));
        var op := tokens[current];
        current := current + 1;
        var right :- ParseUnary();
        expr := Binary(expr, op, right);
      }
      LoopLeaves(5, expr, tokens, Cursor(current, reports));
      return Value(expr);
    }

    method ParseUnary() returns (r: Maybe<Expr>)
      requires Valid()
      modifies this
      ensures Valid() && Gives(r, current, reports, UnaryExpr(tokens, Cursor(old(current), old(reports))))
      decreases |tokens| - current, 13
    {
      hide CallExpr, OperandRest, AwaitRest, NewRest, DeleteRest, ReceiveRest;
      var op := tokens[current];
      if op.kind == Bang || op.kind == Minus {
        current := current + 1;
        r := ParseOperand(op);
      } else if op.kind == Await {
        current := current + 1;
        r := ParseAwait();
      } else if op.kind == New {
        current := current + 1;
        r := NewExpr(op);
      } else if op.kind == Delete {
        current := current + 1;
        r := DeleteExpr(op);
      } else if op.kind == ChannelReceive {
        current := current + 1;
        r := ChannelReceiveExpr(op);
      } else {
        r := ParseCall();
      }
    }

    method ParseOperand(op: Token) returns (r: Maybe<Expr>)
      requires Valid()
      modifies this
      ensures Valid()
           && Gives(r, current, reports, OperandRest(op, tokens, Cursor(old(current), old(reports))))
      decreases |tokens| - current, 14
    {
      hide UnaryExpr;
      var right :- ParseUnary();
      return Value(Unary(op, right));
    }

    method ParseAwait() returns (r: Maybe<Expr>)
      requires Valid()
      modifies this
      ensures Valid() && Gives(r, current, reports, AwaitRest(tokens, Cursor(old(current), old(reports))))
      decreases |tokens| - current, 14
    {
      hide UnaryExpr;
      var expr :- ParseUnary();
      return Value(Awaiting(tokens[current - 1], expr));
    }

    method NewExpr(keyword: Token) returns (r: Maybe<Expr>)
      requires Valid()
      modifies this
      ensures Valid()
           && Gives(r, current, reports, NewRest(keyword, tokens, Cursor(old(current), old(reports))))
      decreases |tokens| - current, 12
    {
      hide Primary, Expression;
      var expr :- ParsePrimary();
      var sized := Match(LeftBracket);
      if sized {
        var size :- ParseExpression();
        var _ := Consume(RightBracket);
        return Value(NewOf(keyword, expr, [size]));
      }
      return Value(NewOf(keyword, expr, []));
    }

    method DeleteExpr(keyword: Token) returns (r: Maybe<Expr>)
      requires Valid()
      modifies this
      ensures Valid()
           && Gives(r, current, reports, DeleteRest(keyword, tokens, Cursor(old(current), old(reports))))
      decreases |tokens| - current, 12
    {
      hide Primary;
      var expr :- ParsePrimary();
      return Value(DeleteOf(keyword, expr));
    }

    method ChannelReceiveExpr(keyword: Token) returns (r: Maybe<Expr>)
      requires Valid()
      modifies this
      ensures Valid()
           && Gives(r, current, reports, ReceiveRest(keyword, tokens, Cursor(old(current), old(reports))))
      decreases |tokens| - current, 42
    {
      hide Expression;
      var channel :- ParseExpression();
      return Value(Receive(keyword, channel));
    }

    method ParseCall() returns (r: Maybe<Expr>)
      requires Valid()
      modifies this
      ensures Valid() && Gives(r, current, reports, CallExpr(tokens, Cursor(old(current), old(reports))))
      decreases |tokens| - current, 12
    {
      hide Primary, CallExpr, CallLoop, Suffix;
      CallStart(tokens, Cursor(current, reports));
      var expr :- ParsePrimary();
      while ExtendsCall(tokens[current].kind)
        invariant Valid() && current > old(current)
        invariant CallLoop(expr, tokens, Cursor(current, reports))
               == CallExpr(tokens, Cursor(old(current), old(reports)))
        decreases |tokens| - current
      {
        CallStep(expr, tokens, Cursor(current, reports));
        var k := tokens[current].kind;
        current := current + 1;
        expr :- ParseSuffix(k, expr);
      }
      CallStep(expr, tokens, Cursor(current, reports));
      return Value(expr);
    }

    method ParseSuffix(k: Kind, expr: Expr) returns (r: Maybe<Expr>)
      requires Valid() && ExtendsCall(k)
      modifies this
      ensures Valid()
      ensures Gives(r, current, reports, Suffix(k, expr, tokens, Cursor(old(current), old(reports))))
      decreases |tokens| - current, 45
    {
      hide ArgumentsRest, PropertyRest, SendRest;
      if k == LeftParen {
        r := ParseArguments(expr);
      } else if k == Dot {
        r := ParseProperty(expr);
      } else {
        r := ParseSend(expr);
      }
    }

    method ParseArguments(expr: Expr) returns (r: Maybe<Expr>)
      requires Valid()
      modifies this
      ensures Valid()
           && Gives(r, current, reports, ArgumentsRest(expr, tokens, Cursor(old(current), old(reports))))
      decreases |tokens| - current, 44
    {
      hide OptionalItems, Grammar.Consume;
      var arguments :- ParseItems(RightParen);
      var paren := Consume(RightParen);
      return Value(Call(paren, expr, arguments));
    }

    method ParseProperty(expr: Expr) returns (r: Maybe<Expr>)
      requires Valid()
      modifies this
      ensures Valid()
           && Gives(r, current, reports, PropertyRest(expr, tokens, Cursor(old(current), old(reports))))
      decreases |tokens| - current, 44
    {
      hide Grammar.Consume;
      var name := Consume(Identifier);
      return Value(Get(name, expr, name.text));
    }

    method ParseSend(expr: Expr) returns (r: Maybe<Expr>)
      requires Valid()
      modifies this
      ensures Valid()
           && Gives(r, current, reports, SendRest(expr, tokens, Cursor(old(current), old(reports))))
      decreases |tokens| - current, 44
    {
      hide Expression;
      var value :- ParseExpression();
      return Value(Send(tokens[current - 1], expr, value));
    }

    /** Arguments and list elements: none if the closing bracket follows, else a do-while loop over commas. */
    method ParseItems(close: Kind) returns (r: Maybe<seq<Expr>>)
      requires Valid() && close != Eof
      modifies this
      ensures Valid()
           && Gives(r, current, reports, OptionalItems(close, tokens, Cursor(old(current), old(reports))))
      decreases |tokens| - current, 43
    {
      hide Expression, Items;
      if tokens[current].kind == close {
        return Value([]);
      }
      var items := [];
      var more := true;
      while more
        invariant Valid() && current >= old(current)
        invariant more ==>
                    Items(items, tokens, Cursor(current, reports))
                    == OptionalItems(close, tokens, Cursor(old(current), old(reports)))
        invariant !more ==>
                    Ok(items, Cursor(current, reports))
                    == OptionalItems(close, tokens, Cursor(old(current), old(reports)))
        decreases |tokens| - current, more
      {
        ItemsStep(items, tokens, Cursor(current, reports));
        var item :- ParseExpression();
        items := items + [item];
        more := Match(Comma);
      }
      return Value(items);
    }

    method ParseEntries() returns (r: Maybe<seq<Entry>>)
      requires Valid()
      modifies this
      ensures Valid()
           && Gives(r, current, reports, OptionalEntries(tokens, Cursor(old(current), old(reports))))
      decreases |tokens| - current, 44
    {
      hide EntryAt, Entries;
      if tokens[current].kind == RightBrace {
        return Value([]);
      }
      var entries := [];
      var more := true;
      while more
        invariant Valid() && current >= old(current)
        invariant more ==>
                    Entries(entries, tokens, Cursor(current, reports))
                    == OptionalEntries(tokens, Cursor(old(current), old(reports)))
        invariant !more ==>
                    Ok(entries, Cursor(current, reports))
                    == OptionalEntries(tokens, Cursor(old(current), old(reports)))
        decreases |tokens| - current, more
      {
        EntriesStep(entries, tokens, Cursor(current, reports));
        var entry :- ParseEntry();
        entries := entries + [entry];
        more := Match(Comma);
      }
      return Value(entries);
    }

    method ParseEntry() returns (r: Maybe<Entry>)
      requires Valid()
      modifies this
      ensures Valid() && Gives(r, current, reports, EntryAt(tokens, Cursor(old(current), old(reports))))
      decreases |tokens| - current, 43
    {
      hide Expression, Grammar.Consume;
      var key :- ParseExpression();
      var _ := Consume(Colon);
      var value :- ParseExpression();
      return Value(Entry(key, value));
    }

    method ParsePrimary() returns (r: Maybe<Expr>)
      requires Valid()
      modifies this
      ensures Valid() && Gives(r, current, reports, Primary(tokens, Cursor(old(current), old(reports))))
      decreases |tokens| - current, 11
    {
      hide GroupingRest, ListRest, DictionaryRest, LambdaExpr, IsAtom, Atom;
      var token := tokens[current];
      if IsAtom(token.kind) {
        AtomIsNotEof(token.kind);
        current := current + 1;
        r := Value(Atom(token));
      } else if token.kind == LeftParen {
        current := current + 1;
        r := ParseGrouping();
      } else if token.kind == LeftBracket {
        current := current + 1;
        r := ParseList();
      } else if token.kind == LeftBrace {
        current := current + 1;
        r := ParseDictionary();
      } else if token.kind == Lambda {
        current := current + 1;
        r := ParseLambda();
      } else {
        reports := reports + [Unexpected(token)];
        r := Exception;
      }
    }

    method ParseGrouping() returns (r: Maybe<Expr>)
      requires Valid()
      modifies this
      ensures Valid()
           && Gives(r, current, reports, GroupingRest(tokens, Cursor(old(current), old(reports))))
      decreases |tokens| - current, 44
    {
      hide Expression, Grammar.Consume, TokenOf;
      var expr :- ParseExpression();
      var _ := Consume(RightParen);
      return Value(Grouping(TokenOf(expr), expr));
    }

    method ParseList() returns (r: Maybe<Expr>)
      requires Valid()
      modifies this
      ensures Valid() && Gives(r, current, reports, ListRest(tokens, Cursor(old(current), old(reports))))
      decreases |tokens| - current, 44
    {
      hide OptionalItems, Grammar.Consume;
      var elements :- ParseItems(RightBracket);
      var token := Consume(RightBracket);
      return Value(ListOf(token, elements));
    }

    method ParseDictionary() returns (r: Maybe<Expr>)
      requires Valid()
      modifies this
      ensures Valid()
           && Gives(r, current, reports, DictionaryRest(tokens, Cursor(old(current), old(reports))))
      decreases |tokens| - current, 45
    {
      hide OptionalEntries, Grammar.Consume;
      var entries :- ParseEntries();
      var token := Consume(RightBrace);
      return Value(Dictionary(token, entries));
    }

    /** The constructor of LambdaExpr tests the return type it has just moved from, and throws. */
    method ParseLambda() returns (r: Maybe<Expr>)
      requires Valid()
      modifies this
      ensures Valid() && Gives(r, current, reports, LambdaExpr(tokens, Cursor(old(current), old(reports))))
      decreases |tokens| - current, 43
    {
      hide Expression, LambdaHead;
      var _ :- ParseLambdaHead();
      var _ :- ParseExpression();
      return Exception;
    }

    method ParseLambdaHead() returns (r: Maybe<()>)
      requires Valid()
      modifies this
      ensures Valid() && Gives(r, current, reports, LambdaHead(tokens, Cursor(old(current), old(reports))))
    {
      hide Parameters, Grammar.ParseType, Grammar.Consume;
      var _ := Consume(LeftParen);
      var _ :- ParseParameters();
      var _ := Consume(RightParen);
      r := Value(());
      if tokens[current].kind == Arrow {
        current := current + 1;
        var _ :- ParseType();
      }
    }

    /** The alternative to the ladder. */
    method ParseBinaryExpression(minPrecedence: nat) returns (r: Maybe<Expr>)
      requires Valid()
      modifies this
      ensures Valid()
           && Gives(r, current, reports, Climb(minPrecedence, tokens, Cursor(old(current), old(reports))))
      decreases |tokens| - current, 50
    {
      hide UnaryExpr, Precedence, RightAssociative;
      var left :- ParseUnary();
      while !IsAtEnd() && Precedence(Peek().kind) >= minPrecedence
        invariant Valid() && current > old(current)
        invariant ClimbLoop(minPrecedence, left, tokens, Cursor(current, reports))
               == Climb(minPrecedence, tokens, Cursor(old(current), old(reports)))
        decreases |tokens| - current
      {
        var opType := Peek().kind;
        var op := Advance();
        var nextMinPrecedence := Precedence(opType);
        if !RightAssociative(opType) {
          nextMinPrecedence := nextMinPrecedence + 1;
        }
        var right :- ParseBinaryExpression(nextMinPrecedence);
        left := Binary(left, op, right);
      }
      return Value(left);
    }

    // Statements

    /** Whether a value and the state that a method leaves are those of the grammar. */
    static ghost predicate Leaves<T>(x: T, pos: nat, reports: seq<Report>, g: (T, Cursor)) {
      x == g.0 && pos == g.1.pos && reports == g.1.reports
    }

    method Parse() returns (program: Stmt)
      requires Valid()
      modifies this
      ensures Valid() && IsAtEnd()
      ensures var g := Program([], tokens, Cursor(old(current), old(reports)));
              Leaves(program, current, reports, (Root(g.0, tokens), g.1))
    {
      hide Declaration;
      var statements := [];
      while !IsAtEnd()
        invariant Valid()
        invariant Program(statements, tokens, Cursor(current, reports))
               == Program([], tokens, Cursor(old(current), old(reports)))
        decreases |tokens| - current
      {
        var stmt := ParseDeclaration();
        if !stmt.Missing? {
          statements := statements + [stmt];
        }
      }
      if |statements| == 1 {
        return statements[0];
      }
      return Stmt.BlockStmt(tokens[0], statements);
    }

    /** Catches what its statement throws. Off the end marker it moves the cursor forward, thrown or not. */
    method ParseDeclaration() returns (stmt: Stmt)
      requires Valid() && !IsAtEnd()
      modifies this
      ensures Valid() && current > old(current)
      ensures Leaves(stmt, current, reports, Declaration(tokens, Cursor(old(current), old(reports))))
      decreases |tokens| - current, 60
    {
      hide TryDeclaration, Synchronized;
      var r := ParseUnderHandler();
      if r.Value? {
        return r.value;
      }
      Synchronize();
      reports := reports + [Recovered(Peek())];
      return Missing;
    }

    /** What declaration runs under its handler. */
    method ParseUnderHandler() returns (r: Maybe<Stmt>)
      requires Valid() && !IsAtEnd()
      modifies this
      ensures Valid() && Gives(r, current, reports, TryDeclaration(tokens, Cursor(old(current), old(reports))))
      decreases |tokens| - current, 59
    {
      hide Gives, Good, Statements.VarDeclaration, Statements.FunctionDeclaration, Statements.ClassDeclaration;
      hide ImportRest, Statement;
      NextIsGood(tokens, Cursor(current, reports));
      var k := Peek().kind;
      if k == Let || k == Const {
        current := current + 1;
        r := VarDeclaration();
      } else if k == Def || k == Async {
        current := current + 1;
        r := FunctionDeclaration();
      } else if k == Class {
        current := current + 1;
        r := ClassDeclaration();
      } else if k == Import {
        current := current + 1;
        r := ImportStmt();
      } else {
        r := ParseStatement();
      }
    }

    method Synchronize()
      requires Valid() && (IsAtEnd() ==> current > 0)
      modifies this`current
      ensures Valid() && Cursor(current, reports) == Synchronized(tokens, Cursor(old(current), reports))
    {
      hide StartsStatement;
      var _ := Advance();
      while !IsAtEnd()
        invariant Valid() && current > 0
        invariant Recovery(tokens, current)
               == Recovery(tokens, if tokens[old(current)].kind == Eof then old(current) else old(current) + 1)
        decreases |tokens| - current
      {
        if tokens[current - 1].kind == SemiColon || StartsStatement(Peek().kind) {
          return;
        }
        current := current + 1;
      }
    }

    method VarDeclaration() returns (r: Maybe<Stmt>)
      requires Valid() && current > 0
      modifies this
      ensures Valid()
      ensures Gives(r, current, reports, Statements.VarDeclaration(tokens, Cursor(old(current), old(reports))))
    {
      hide Statements.OptionalType, OptionalInitializer, Grammar.Consume;
      var isConstant := tokens[current - 1].kind == Const;
      var name := Consume(Identifier);
      var varType :- ParseOptionalType();
      var initializer :- ParseInitializer();
      var _ := Consume(SemiColon);
      return Value(VariableStmt(name, name.text, varType, initializer, isConstant));
    }

    method ParseOptionalType() returns (r: Maybe<Option<TypeExpr>>)
      requires Valid()
      modifies this
      ensures Valid() && Gives(r, current, reports, OptionalType(tokens, Cursor(old(current), old(reports))))
    {
      hide Grammar.ParseType;
      var typed := Match(Colon);
      if typed {
        var t :- ParseType();
        return Value(Some(t));
      }
      return Value(None);
    }

    method ParseInitializer() returns (r: Maybe<Option<Expr>>)
      requires Valid()
      modifies this
      ensures Valid() && Gives(r, current, reports, OptionalInitializer(tokens, Cursor(old(current), old(reports))))
    {
      hide Expression;
      var initialized := Match(Equal);
      if initialized {
        var e :- ParseExpression();
        return Value(Some(e));
      }
      return Value(None);
    }

    method FunctionDeclaration() returns (r: Maybe<Stmt>)
      requires Valid() && current > 0
      modifies this
      ensures Valid()
      ensures Gives(r, current, reports, Statements.FunctionDeclaration(tokens, Cursor(old(current), old(reports))))
      decreases |tokens| - current, 64
    {
      hide FunctionHead, Braced;
      var isAsync := tokens[current - 1].kind == Async;
      var head :- ParseFunctionHead(isAsync);
      var body := BracedStmt();
      return Value(FunctionStmt(head.tok, head.tok.text, head.parameters, head.returnType, body, isAsync));
    }

    method ParseFunctionHead(isAsync: bool) returns (r: Maybe<Head>)
      requires Valid() && current > 0 && isAsync == (tokens[current - 1].kind == Async)
      modifies this
      ensures Valid() && Gives(r, current, reports, FunctionHead(tokens, Cursor(old(current), old(reports))))
    {
      hide DefAfterAsync, Statements.ParametersInParens, Statements.ReturnType, Grammar.Consume;
      SkipDef(isAsync);
      var name := Consume(Identifier);
      var parameters :- ParseParametersInParens();
      var returnType :- ParseReturnType();
      return Value(Head(name, parameters, returnType));
    }

    method SkipDef(isAsync: bool)
      requires Valid() && current > 0 && isAsync == (tokens[current - 1].kind == Async)
      modifies this
      ensures Valid() && Cursor(current, reports) == DefAfterAsync(tokens, Cursor(old(current), old(reports)))
    {
      if isAsync {
        var defined := Match(Def);
        if !defined {
          reports := reports + [Unexpected(tokens[current - 1])];
        }
      }
    }

    method ParseParametersInParens() returns (r: Maybe<seq<Parameter>>)
      requires Valid()
      modifies this
      ensures Valid() && Gives(r, current, reports, ParametersInParens(tokens, Cursor(old(current), old(reports))))
    {
      hide Parameters, Grammar.Consume;
      var _ := Consume(LeftParen);
      var parameters :- ParseParameters();
      var _ := Consume(RightParen);
      return Value(parameters);
    }

    method ParseReturnType() returns (r: Maybe<TypeExpr>)
      requires Valid()
      modifies this
      ensures Valid() && Gives(r, current, reports, ReturnType(tokens, Cursor(old(current), old(reports))))
    {
      hide Grammar.ParseType;
      var typed := Match(Arrow);
      if !typed {
        typed := Match(Colon);
      }
      if typed {
        r := ParseType();
      } else {
        r := Value(NO_TYPE);
      }
    }

    method ClassDeclaration() returns (r: Maybe<Stmt>)
      requires Valid()
      modifies this
      ensures Valid()
      ensures Gives(r, current, reports, Statements.ClassDeclaration(tokens, Cursor(old(current), old(reports))))
      decreases |tokens| - current, 67
    {
      hide Good, Statements.ClassBody, Grammar.Consume;
      var name := Consume(Identifier);
      var members :- ParseClassBody();
      return Value(ClassStmt(name, name.text, members.0, members.1));
    }

    method ParseClassBody() returns (r: Maybe<(seq<Stmt>, seq<Stmt>)>)
      requires Valid()
      modifies this
      ensures Valid() && Gives(r, current, reports, ClassBody(tokens, Cursor(old(current), old(reports))))
      decreases |tokens| - current, 66
    {
      hide Good, Members, Grammar.Consume;
      var _ := Consume(LeftBrace);
      var members :- ClassMembers();
      var _ := Consume(RightBrace);
      return Value(members);
    }

    /** The loop over members ends although a failed consume does not advance. */
    method ClassMembers() returns (r: Maybe<(seq<Stmt>, seq<Stmt>)>)
      requires Valid()
      modifies this
      ensures Valid() && Gives(r, current, reports, Members([], [], tokens, Cursor(old(current), old(reports))))
      decreases |tokens| - current, 65
    {
      hide Member;
      var fields, methods := [], [];
      while Peek().kind != RightBrace && !IsAtEnd()
        invariant Valid() && current >= old(current)
        invariant Members(fields, methods, tokens, Cursor(current, reports))
               == Members([], [], tokens, Cursor(old(current), old(reports)))
        decreases |tokens| - current
      {
        var members :- ClassMember(fields, methods);
        fields, methods := members.0, members.1;
      }
      return Value((fields, methods));
    }

    method ClassMember(fields: seq<Stmt>, methods: seq<Stmt>) returns (r: Maybe<(seq<Stmt>, seq<Stmt>)>)
      requires Valid() && !IsAtEnd()
      modifies this
      ensures Valid()
      ensures Gives(r, current, reports, Member(fields, methods, tokens, Cursor(old(current), old(reports))))
      decreases |tokens| - current, 64
    {
      hide Good, Field, Method;
      NextIsGood(tokens, Cursor(current, reports));
      var k := Peek().kind;
      if k == Let || k == Const {
        current := current + 1;
        r := ClassField(fields, methods);
      } else if k == Def || k == Async {
        current := current + 1;
        r := ClassMethod(fields, methods);
      } else {
        SkipUnexpected();
        r := Value((fields, methods));
      }
    }

    method ClassField(fields: seq<Stmt>, methods: seq<Stmt>) returns (r: Maybe<(seq<Stmt>, seq<Stmt>)>)
      requires Valid() && current > 0
      modifies this
      ensures Valid()
      ensures Gives(r, current, reports, Field(fields, methods, tokens, Cursor(old(current), old(reports))))
    {
      hide Statements.VarDeclaration;
      var field :- VarDeclaration();
      return Value((fields + [field], methods));
    }

    method ClassMethod(fields: seq<Stmt>, methods: seq<Stmt>) returns (r: Maybe<(seq<Stmt>, seq<Stmt>)>)
      requires Valid() && current > 0
      modifies this
      ensures Valid()
      ensures Gives(r, current, reports, Method(fields, methods, tokens, Cursor(old(current), old(reports))))
      decreases |tokens| - current, 65
    {
      hide Statements.FunctionDeclaration;
      var member :- FunctionDeclaration();
      return Value((fields, methods + [member]));
    }

    /** Reports the token at the cursor and steps over it. */
    method SkipUnexpected()
      requires Valid() && !IsAtEnd()
      modifies this
      ensures Valid()
      ensures Cursor(current, reports)
           == Cursor(old(current), old(reports)).Blame(Unexpected(tokens[old(current)])).Advance()
    {
      reports := reports + [Unexpected(Peek())];
      var _ := Advance();
    }

    method ImportStmt() returns (r: Maybe<Stmt>)
      requires Valid()
      modifies this
      ensures Valid() && Gives(r, current, reports, ImportRest(tokens, Cursor(old(current), old(reports))))
    {
      hide Grammar.Consume;
      var name := Consume(Identifier);
      var _ := Consume(SemiColon);
      return Value(Stmt.ImportStmt(name, name.text));
    }

    method ParseStatement() returns (r: Maybe<Stmt>)
      requires Valid() && !IsAtEnd()
      modifies this
      ensures Valid() && Gives(r, current, reports, Statement(tokens, Cursor(old(current), old(reports))))
      decreases |tokens| - current, 58
    {
      hide Gives, Good, IfRest, WhileRest, ForRest, BlockRest, SimpleStatement;
      NextIsGood(tokens, Cursor(current, reports));
      var k := Peek().kind;
      if k == If {
        current := current + 1;
        r := IfStmt();
      } else if k == While {
        current := current + 1;
        r := WhileStmt();
      } else if k == For {
        current := current + 1;
        r := ForStmt();
      } else if k == LeftBrace {
        current := current + 1;
        r := NestedBlock();
      } else {
        r := ParseSimpleStatement();
      }
    }

    method ParseSimpleStatement() returns (r: Maybe<Stmt>)
      requires Valid() && !IsAtEnd()
      modifies this
      ensures Valid() && Gives(r, current, reports, SimpleStatement(tokens, Cursor(old(current), old(reports))))
      decreases |tokens| - current, 57
    {
      hide Gives, Good, ReturnRest, MatchRest, GoRest, SelectRest, ExpressionRest;
      NextIsGood(tokens, Cursor(current, reports));
      var k := Peek().kind;
      if k == Return {
        current := current + 1;
        r := ReturnStmt();
      } else if k == Kind.Match {
        current := current + 1;
        r := MatchStmt();
      } else if k == Go {
        current := current + 1;
        r := GoStmt();
      } else if k == Select {
        current := current + 1;
        r := SelectStmt();
      } else {
        r := ExpressionStmt();
      }
    }

    method ExpressionStmt() returns (r: Maybe<Stmt>)
      requires Valid()
      modifies this
      ensures Valid() && Gives(r, current, reports, ExpressionRest(tokens, Cursor(old(current), old(reports))))
    {
      hide Expression, Grammar.Consume;
      var expr :- ParseExpression();
      var _ := Consume(SemiColon);
      return Value(Stmt.ExpressionStmt(TokenOf(expr), expr));
    }

    /** Its declarations catch what they throw, so it throws nothing. */
    method BlockStmt() returns (block: Stmt)
      requires Valid() && current > 0
      modifies this
      ensures Valid() && Leaves(block, current, reports, Block(tokens, Cursor(old(current), old(reports))))
      decreases |tokens| - current, 62
    {
      hide Declaration, Grammar.Consume;
      var statements := [];
      while Peek().kind != RightBrace && !IsAtEnd()
        invariant Valid() && current >= old(current)
        invariant BlockItems(statements, tokens, Cursor(current, reports))
               == BlockItems([], tokens, Cursor(old(current), old(reports)))
        decreases |tokens| - current
      {
        var stmt := ParseDeclaration();
        statements := statements + [stmt];
      }
      var _ := Consume(RightBrace);
      return Stmt.BlockStmt(tokens[current - 1], statements);
    }

    method NestedBlock() returns (r: Maybe<Stmt>)
      requires Valid() && current > 0
      modifies this
      ensures Valid() && Gives(r, current, reports, BlockRest(tokens, Cursor(old(current), old(reports))))
      decreases |tokens| - current, 63
    {
      hide Block;
      var block := BlockStmt();
      return Value(block);
    }

    method BracedStmt() returns (block: Stmt)
      requires Valid() && current > 0
      modifies this
      ensures Valid() && Leaves(block, current, reports, Braced(tokens, Cursor(old(current), old(reports))))
      decreases |tokens| - current, 63
    {
      hide Block, Grammar.Consume;
      var _ := Consume(LeftBrace);
      block := BlockStmt();
    }

    method GuardedStmt() returns (r: Maybe<Branch>)
      requires Valid() && current > 0
      modifies this
      ensures Valid() && Gives(r, current, reports, Guarded(tokens, Cursor(old(current), old(reports))))
      decreases |tokens| - current, 64
    {
      hide Expression, Braced;
      var condition :- ParseExpression();
      var body := BracedStmt();
      return Value(Branch(condition, body));
    }

    method IfStmt() returns (r: Maybe<Stmt>)
      requires Valid() && current > 0
      modifies this
      ensures Valid() && Gives(r, current, reports, IfRest(tokens, Cursor(old(current), old(reports))))
      decreases |tokens| - current, 66
    {
      hide Guarded, Elifs, OptionalElse;
      var branch :- GuardedStmt();
      var elifBranches :- ElifBranches();
      var elseBranch := ElseBranch();
      return Value(Stmt.IfStmt(TokenOf(branch.test), branch.test, branch.body, elifBranches, elseBranch));
    }

    method ElifBranches() returns (r: Maybe<seq<Branch>>)
      requires Valid()
      modifies this
      ensures Valid() && Gives(r, current, reports, Elifs([], tokens, Cursor(old(current), old(reports))))
      decreases |tokens| - current, 65
    {
      hide Guarded;
      var branches := [];
      while Peek().kind == Elif
        invariant Valid() && current >= old(current)
        invariant Elifs(branches, tokens, Cursor(current, reports))
               == Elifs([], tokens, Cursor(old(current), old(reports)))
        decreases |tokens| - current
      {
        current := current + 1;
        var branch :- GuardedStmt();
        branches := branches + [branch];
      }
      return Value(branches);
    }

    method ElseBranch() returns (branch: Option<Stmt>)
      requires Valid()
      modifies this
      ensures Valid() && Leaves(branch, current, reports, OptionalElse(tokens, Cursor(old(current), old(reports))))
      decreases |tokens| - current, 65
    {
      hide Braced;
      var otherwise := Match(Else);
      if otherwise {
        var block := BracedStmt();
        return Some(block);
      }
      return None;
    }

    method WhileStmt() returns (r: Maybe<Stmt>)
      requires Valid() && current > 0
      modifies this
      ensures Valid() && Gives(r, current, reports, WhileRest(tokens, Cursor(old(current), old(reports))))
      decreases |tokens| - current, 65
    {
      hide Guarded;
      var branch :- GuardedStmt();
      return Value(Stmt.WhileStmt(TokenOf(branch.test), branch.test, branch.body));
    }

    method ForStmt() returns (r: Maybe<Stmt>)
      requires Valid() && current > 0
      modifies this
      ensures Valid() && Gives(r, current, reports, ForRest(tokens, Cursor(old(current), old(reports))))
      decreases |tokens| - current, 65
    {
      hide Good, OptionalType, Guarded, Grammar.Consume;
      var variable := Consume(Identifier);
      var variableType :- ParseOptionalType();
      var _ := Consume(In);
      var branch :- GuardedStmt();
      return Value(Stmt.ForStmt(variable, variable.text, variableType, branch.test, branch.body));
    }

    method ReturnStmt() returns (r: Maybe<Stmt>)
      requires Valid() && current > 0
      modifies this
      ensures Valid() && Gives(r, current, reports, ReturnRest(tokens, Cursor(old(current), old(reports))))
    {
      hide OptionalValue, Grammar.Consume;
      var keyword := tokens[current - 1];
      var value :- ParseOptionalValue();
      var _ := Consume(SemiColon);
      return Value(Stmt.ReturnStmt(keyword, value));
    }

    method ParseOptionalValue() returns (r: Maybe<Option<Expr>>)
      requires Valid()
      modifies this
      ensures Valid() && Gives(r, current, reports, OptionalValue(tokens, Cursor(old(current), old(reports))))
    {
      hide Expression;
      if Peek().kind != SemiColon {
        var e :- ParseExpression();
        return Value(Some(e));
      }
      return Value(None);
    }

    method MatchStmt() returns (r: Maybe<Stmt>)
      requires Valid()
      modifies this
      ensures Valid() && Gives(r, current, reports, MatchRest(tokens, Cursor(old(current), old(reports))))
      decreases |tokens| - current, 67
    {
      hide Good, Expression, Cases, Grammar.Consume;
      var value :- ParseExpression();
      var _ := Consume(LeftBrace);
      var cases :- MatchCases();
      var _ := Consume(RightBrace);
      return Value(Stmt.MatchStmt(TokenOf(value), value, cases.0, cases.1));
    }

    method MatchCases() returns (r: Maybe<(seq<Branch>, Option<Stmt>)>)
      requires Valid()
      modifies this
      ensures Valid() && Gives(r, current, reports, Cases([], None, tokens, Cursor(old(current), old(reports))))
      decreases |tokens| - current, 66
    {
      hide CaseAt;
      var cases: seq<Branch>, defaultCase: Option<Stmt> := [], None;
      while Peek().kind != RightBrace && !IsAtEnd()
        invariant Valid() && current >= old(current)
        invariant Cases(cases, defaultCase, tokens, Cursor(current, reports))
               == Cases([], None, tokens, Cursor(old(current), old(reports)))
        decreases |tokens| - current
      {
        var all :- NextMatchCase(cases, defaultCase);
        cases, defaultCase := all.0, all.1;
      }
      return Value((cases, defaultCase));
    }

    method NextMatchCase(cases: seq<Branch>, defaultCase: Option<Stmt>)
      returns (r: Maybe<(seq<Branch>, Option<Stmt>)>)
      requires Valid() && !IsAtEnd()
      modifies this
      ensures Valid()
      ensures Gives(r, current, reports, CaseAt(cases, defaultCase, tokens, Cursor(old(current), old(reports))))
      decreases |tokens| - current, 65
    {
      hide Good, CaseRest, DefaultRest;
      NextIsGood(tokens, Cursor(current, reports));
      var k := Peek().kind;
      if k == Case {
        current := current + 1;
        var branch :- MatchCase();
        return Value((cases + [branch], defaultCase));
      } else if k == Default {
        current := current + 1;
        var body := CaseBody();
        return Value((cases, Some(body)));
      }
      SkipUnexpected();
      return Value((cases, defaultCase));
    }

    method MatchCase() returns (r: Maybe<Branch>)
      requires Valid() && current > 0
      modifies this
      ensures Valid() && Gives(r, current, reports, CaseRest(tokens, Cursor(old(current), old(reports))))
      decreases |tokens| - current, 64
    {
      hide Expression, DefaultRest;
      var pattern :- ParseExpression();
      var body := CaseBody();
      return Value(Branch(pattern, body));
    }

    method CaseBody() returns (body: Stmt)
      requires Valid() && current > 0
      modifies this
      ensures Valid() && Leaves(body, current, reports, DefaultRest(tokens, Cursor(old(current), old(reports))))
      decreases |tokens| - current, 63
    {
      hide Block, Grammar.Consume;
      var _ := Consume(Colon);
      body := BlockStmt();
    }

    method GoStmt() returns (r: Maybe<Stmt>)
      requires Valid() && current > 0
      modifies this
      ensures Valid() && Gives(r, current, reports, GoRest(tokens, Cursor(old(current), old(reports))))
    {
      hide Expression, Grammar.Consume;
      var keyword := tokens[current - 1];
      var _ := Consume(LeftParen);
      var expr :- ParseExpression();
      var _ := Consume(RightParen);
      var _ := Consume(SemiColon);
      return Value(Stmt.GoStmt(keyword, expr));
    }

    method SelectStmt() returns (r: Maybe<Stmt>)
      requires Valid() && current > 0
      modifies this
      ensures Valid() && Gives(r, current, reports, SelectRest(tokens, Cursor(old(current), old(reports))))
      decreases |tokens| - current, 67
    {
      hide Choices, Grammar.Consume;
      var keyword := tokens[current - 1];
      var _ := Consume(LeftBrace);
      var cases :- SelectCases();
      var _ := Consume(RightBrace);
      return Value(Stmt.SelectStmt(keyword, cases));
    }

    method SelectCases() returns (r: Maybe<seq<Choice>>)
      requires Valid()
      modifies this
      ensures Valid() && Gives(r, current, reports, Choices([], tokens, Cursor(old(current), old(reports))))
      decreases |tokens| - current, 66
    {
      hide ChoiceAt;
      var cases := [];
      while Peek().kind != RightBrace && !IsAtEnd()
        invariant Valid() && current >= old(current)
        invariant Choices(cases, tokens, Cursor(current, reports))
               == Choices([], tokens, Cursor(old(current), old(reports)))
        decreases |tokens| - current
      {
        cases :- NextSelectCase(cases);
      }
      return Value(cases);
    }

    method NextSelectCase(cases: seq<Choice>) returns (r: Maybe<seq<Choice>>)
      requires Valid() && !IsAtEnd()
      modifies this
      ensures Valid() && Gives(r, current, reports, ChoiceAt(cases, tokens, Cursor(old(current), old(reports))))
      decreases |tokens| - current, 65
    {
      hide Good, ChoiceRest, DefaultRest;
      NextIsGood(tokens, Cursor(current, reports));
      var k := Peek().kind;
      if k == Case {
        current := current + 1;
        var choice :- SelectCase();
        return Value(cases + [choice]);
      } else if k == Default {
        current := current + 1;
        var body := CaseBody();
        return Value(cases + [Choice(None, body)]);
      }
      SkipUnexpected();
      return Value(cases);
    }

    method SelectCase() returns (r: Maybe<Choice>)
      requires Valid() && current > 0
      modifies this
      ensures Valid() && Gives(r, current, reports, ChoiceRest(tokens, Cursor(old(current), old(reports))))
      decreases |tokens| - current, 64
    {
      hide ChoiceChannel, DefaultRest;
      var channel :- SelectChannel();
      var body := CaseBody();
      return Value(Choice(Some(channel), body));
    }

    method SelectChannel() returns (r: Maybe<Expr>)
      requires Valid()
      modifies this
      ensures Valid() && Gives(r, current, reports, ChoiceChannel(tokens, Cursor(old(current), old(reports))))
    {
      hide Expression, Grammar.Consume;
      var first :- ParseExpression();
      var sends := Match(ChannelSend);
      if sends {
        var _ :- ParseExpression();
        return Value(first);
      }
      if TokenOf(first).kind != ChannelReceive {
        var _ := Consume(ChannelReceive);
      }
      r := ParseExpression();
    }
  }
}
