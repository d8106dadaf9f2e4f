/** The expression grammar of src/parser/parser.cpp as a function of the token list and the parser's state. */
module Grammar {
  // The methods of module Parsing are proved to compute exactly these functions; the theorems about parsing are proved
  // here.

  import opened Tokens

  datatype LiteralType = Integer | Floating | Boolean | Text | Null

  /** Expression trees with the token each node carries. Lambda has no node: its constructor always throws. */
  datatype Expr =
    | Literal(tok: Token, text: string, literalType: LiteralType)
    | Variable(tok: Token, name: string)
    | Grouping(tok: Token, inner: Expr)
    | ListOf(tok: Token, elements: seq<Expr>)
    | Dictionary(tok: Token, entries: seq<Entry>)
    | Unary(op: Token, right: Expr)
    | Awaiting(tok: Token, inner: Expr)
    | NewOf(tok: Token, target: Expr, size: seq<Expr>)    // at most one size
    | DeleteOf(tok: Token, target: Expr)
    | Receive(tok: Token, channel: Expr)
    | Send(tok: Token, channel: Expr, value: Expr)
    | Binary(left: Expr, op: Token, right: Expr)
    | Call(tok: Token, callee: Expr, args: seq<Expr>)
    | Get(tok: Token, obj: Expr, name: string)
    | Assign(tok: Token, name: string, value: Expr)
    | SetField(tok: Token, obj: Expr, name: string, value: Expr)

  datatype Entry = Entry(key: Expr, value: Expr)

  /** Type trees. A union has no node: its constructor always throws. */
  datatype TypeExpr =
    | Simple(tok: Token)
    | Generic(tok: Token, name: string, arguments: seq<TypeExpr>)
    | FunctionOf(tok: Token, parameters: seq<TypeExpr>, result: TypeExpr)

  datatype Parameter = Parameter(name: string, paramType: TypeExpr)

  function TokenOf(e: Expr): Token {
    if e.Unary? || e.Binary? then e.op else e.tok
  }

  datatype Report = Unexpected(tok: Token) | InvalidTarget(tok: Token) | Recovered(tok: Token)

  /** The parser's cursor and what it has reported. */
  datatype Cursor = Cursor(pos: nat, reports: seq<Report>) {
    function Advance(): Cursor { Cursor(pos + 1, reports) }
    function Blame(r: Report): Cursor { Cursor(pos, reports + [r]) }
  }

  /** Thrown is the exception, with the state it leaves behind. */
  datatype Result<+T> = Ok(value: T, rest: Cursor) | Thrown(rest: Cursor) {
    predicate IsFailure() { Thrown? }
    function PropagateFailure<U>(): Result<U> requires Thrown? { Thrown(rest) }
    function Extract(): (T, Cursor) requires Ok? { (value, rest) }
  }

  predicate Inside(ts: seq<Token>, p: Cursor) {
    p.pos < |ts|
  }

  function KindAt(ts: seq<Token>, p: Cursor): Kind
    requires Inside(ts, p)
  {
    ts[p.pos].kind
  }

  /** The parser may step over any token but the end marker. */
  ghost predicate Good(ts: seq<Token>, p: Cursor) {
    EndMarked(ts) && Inside(ts, p)
  }

  lemma {:induction false} NextIsGood(ts: seq<Token>, p: Cursor)
    requires Good(ts, p)
    ensures p.pos < |ts| && (KindAt(ts, p) != Eof ==> p.pos + 1 < |ts| && Good(ts, p.Advance()))
  {
  }

  /** Whether q can come after p: the parser never goes back, stays inside, and takes no report back. */
  ghost predicate Reaches(ts: seq<Token>, p: Cursor, q: Cursor) {
    p.pos <= q.pos < |ts| && |p.reports| <= |q.reports|
  }

  function Consume(ts: seq<Token>, p: Cursor, k: Kind): (r: (Token, Cursor))
    requires Good(ts, p) && k != Eof
    ensures Reaches(ts, p, r.1)
  {
    if KindAt(ts, p) == k then (ts[p.pos], p.Advance()) else (ts[p.pos], p.Blame(Unexpected(ts[p.pos])))
  }

  // Types and parameters

  function ParseType(ts: seq<Token>, p: Cursor): (r: Result<TypeExpr>)
    requires Good(ts, p)
    ensures Reaches(ts, p, r.rest)
    decreases |ts| - p.pos, 1
  {
    var (t, q) := Consume(ts, p, Identifier);
    TypeTail(t, ts, q)
  }

  /** What follows the name t of a type. */
  function TypeTail(t: Token, ts: seq<Token>, p: Cursor): (r: Result<TypeExpr>)
    requires Good(ts, p)
    ensures Reaches(ts, p, r.rest)
    decreases |ts| - p.pos, 0
  {
    var k := KindAt(ts, p);
    if k == Less then GenericRest(t, ts, p.Advance())
    else if k == LeftParen then FunctionTypeRest(t, ts, p.Advance())
    else if k == Or then UnionRest(ts, p.Advance())
    else Ok(Simple(t), p)
  }

  function GenericRest(t: Token, ts: seq<Token>, p: Cursor): (r: Result<TypeExpr>)
    requires Good(ts, p)
    ensures Reaches(ts, p, r.rest)
    decreases |ts| - p.pos, 4
  {
    var (arguments, q) :- TypeList([], Comma, ts, p);
    Ok(Generic(t, t.text, arguments), Consume(ts, q, Greater).1)
  }

  function FunctionTypeRest(t: Token, ts: seq<Token>, p: Cursor): (r: Result<TypeExpr>)
    requires Good(ts, p)
    ensures Reaches(ts, p, r.rest)
    decreases |ts| - p.pos, 4
  {
    var (parameters, q) :- OptionalTypes(ts, p);
    var (_, q1) := Consume(ts, q, RightParen);
    var (_, q2) := Consume(ts, q1, Arrow);
    var (result, q3) :- ParseType(ts, q2);
    Ok(FunctionOf(t, parameters, result), q3)
  }

  function OptionalTypes(ts: seq<Token>, p: Cursor): (r: Result<seq<TypeExpr>>)
    requires Good(ts, p)
    ensures Reaches(ts, p, r.rest)
    decreases |ts| - p.pos, 3
  {
    if KindAt(ts, p) == RightParen then Ok([], p) else TypeList([], Comma, ts, p)
  }

  /** The constructor of UnionType always throws. */
  function UnionRest(ts: seq<Token>, p: Cursor): (r: Result<TypeExpr>)
    requires Good(ts, p)
    ensures Reaches(ts, p, r.rest) && r.Thrown?
    decreases |ts| - p.pos, 4
  {
    Thrown(TypeList([], Or, ts, p).rest)
  }

  function TypeList(before: seq<TypeExpr>, separator: Kind, ts: seq<Token>, p: Cursor): (r: Result<seq<TypeExpr>>)
    requires Good(ts, p) && separator != Eof
    ensures Reaches(ts, p, r.rest)
    decreases |ts| - p.pos, 2
  {
    var (t, q) :- ParseType(ts, p);
    if KindAt(ts, q) == separator then TypeList(before + [t], separator, ts, q.Advance()) else Ok(before + [t], q)
  }

  function Parameters(ts: seq<Token>, p: Cursor): (r: Result<seq<Parameter>>)
    requires Good(ts, p)
    ensures Reaches(ts, p, r.rest)
  {
    if KindAt(ts, p) == RightParen then Ok([], p) else ParameterList([], ts, p)
  }

  function ParameterList(before: seq<Parameter>, ts: seq<Token>, p: Cursor): (r: Result<seq<Parameter>>)
    requires Good(ts, p)
    ensures Reaches(ts, p, r.rest)
    decreases |ts| - p.pos
  {
    hide ParseType;
    var (x, q) :- ParameterAt(ts, p);
    if KindAt(ts, q) == Comma then ParameterList(before + [x], ts, q.Advance()) else Ok(before + [x], q)
  }

  function ParameterAt(ts: seq<Token>, p: Cursor): (r: Result<Parameter>)
    requires Good(ts, p)
    ensures Reaches(ts, p, r.rest)
  {
    hide ParseType;
    var (name, q) := Consume(ts, p, Identifier);
    var (_, q1) := Consume(ts, q, Colon);
    var (t, q2) :- ParseType(ts, q1);
    Ok(Parameter(name.text, t), q2)
  }

  // Atoms

  predicate IsAtom(k: Kind) {
    k == True || k == False || k == Nil || k == Int || k == Float64 || k == Float32 || k == String || k == Identifier
  }

  lemma {:induction false} AtomIsNotEof(k: Kind)
    ensures IsAtom(k) ==> k != Eof
  {
  }

  function Atom(t: Token): Expr
    requires IsAtom(t.kind)
  {
    var k := t.kind;
    if k == True then Literal(t, "true", Boolean)
    else if k == False then Literal(t, "false", Boolean)
    else if k == Nil then Literal(t, "None", Null)
    else if k == Int then Literal(t, t.text, Integer)
    else if k == Float64 || k == Float32 then Literal(t, t.text, Floating)
    else if k == String then Literal(t, t.text, Text)
    else Variable(t, t.text)
  }

  // The operator ladder

  const UNARY: nat := 6

  /** The operators of orExpr, andExpr, equality, comparison, term and factor, from the outermost inwards. */
  predicate IsOperator(level: nat, k: Kind) {
    match level
    case 0 => k == Or
    case 1 => k == And
    case 2 => k == EqualEqual || k == BangEqual
    case 3 => k == Less || k == LessEqual || k == Greater || k == GreaterEqual
    case 4 => k == Plus || k == Minus
    case 5 => k == Star || k == Slash || k == Percent
    case _ => false
  }

  function Level(level: nat, ts: seq<Token>, p: Cursor): (r: Result<Expr>)
    requires Good(ts, p) && level <= UNARY
    ensures Reaches(ts, p, r.rest) && (r.Ok? ==> r.rest.pos > p.pos)
    decreases |ts| - p.pos, 20 - level
  {
    if level == UNARY then UnaryExpr(ts, p)
    else
      var (left, q) :- Level(level + 1, ts, p);
      LevelLoop(level, left, ts, q)
  }

  function LevelLoop(level: nat, left: Expr, ts: seq<Token>, p: Cursor): (r: Result<Expr>)
    requires Good(ts, p) && level < UNARY
    ensures Reaches(ts, p, r.rest)
    decreases |ts| - p.pos, 0
  {
    if IsOperator(level, KindAt(ts, p)) then
      var (right, q) :- Level(level + 1, ts, p.Advance());
      LevelLoop(level, Binary(left, ts[p.pos], right), ts, q)
    else Ok(left, p)
  }

  function Expression(ts: seq<Token>, p: Cursor): (r: Result<Expr>)
    requires Good(ts, p)
    ensures Reaches(ts, p, r.rest) && (r.Ok? ==> r.rest.pos > p.pos)
    decreases |ts| - p.pos, 21
  {
    var (target, q) :- Level(0, ts, p);
    if KindAt(ts, q) == Equal then
      var (value, q1) :- Expression(ts, q.Advance());
      Assigned(target, ts[q.pos], value, q1)
    else Ok(target, q)
  }

  function Assigned(target: Expr, equals: Token, value: Expr, q: Cursor): Result<Expr> {
    if target.Variable? then Ok(Assign(equals, target.name, value), q)
    else if target.Get? then Ok(SetField(equals, target.obj, target.name, value), q)
    else Ok(target, q.Blame(InvalidTarget(equals)))
  }

  function UnaryExpr(ts: seq<Token>, p: Cursor): (r: Result<Expr>)
    requires Good(ts, p)
    ensures Reaches(ts, p, r.rest) && (r.Ok? ==> r.rest.pos > p.pos)
    decreases |ts| - p.pos, 13
  {
    var k := KindAt(ts, p);
    if k == Bang || k == Minus then OperandRest(ts[p.pos], ts, p.Advance())
    else if k == Await then AwaitRest(ts, p.Advance())
    else if k == New then NewRest(ts[p.pos], ts, p.Advance())
    else if k == Delete then DeleteRest(ts[p.pos], ts, p.Advance())
    else if k == ChannelReceive then ReceiveRest(ts[p.pos], ts, p.Advance())
    else CallExpr(ts, p)
  }

  // What follows a keyword or an opening bracket

  function OperandRest(op: Token, ts: seq<Token>, p: Cursor): (r: Result<Expr>)
    requires Good(ts, p)
    ensures Reaches(ts, p, r.rest)
    decreases |ts| - p.pos, 14
  {
    var (right, q) :- UnaryExpr(ts, p);
    Ok(Unary(op, right), q)
  }

  function AwaitRest(ts: seq<Token>, p: Cursor): (r: Result<Expr>)
    requires Good(ts, p)
    ensures Reaches(ts, p, r.rest)
    decreases |ts| - p.pos, 14
  {
    var (inner, q) :- UnaryExpr(ts, p);
    Ok(Awaiting(ts[q.pos - 1], inner), q)
  }

  function NewRest(keyword: Token, ts: seq<Token>, p: Cursor): (r: Result<Expr>)
    requires Good(ts, p)
    ensures Reaches(ts, p, r.rest) && (r.Ok? ==> r.rest.pos > p.pos)
    decreases |ts| - p.pos, 12
  {
    var (target, q) :- Primary(ts, p);
    if KindAt(ts, q) == LeftBracket then
      var (size, q1) :- Expression(ts, q.Advance());
      Ok(NewOf(keyword, target, [size]), Consume(ts, q1, RightBracket).1)
    else Ok(NewOf(keyword, target, []), q)
  }

  function DeleteRest(keyword: Token, ts: seq<Token>, p: Cursor): (r: Result<Expr>)
    requires Good(ts, p)
    ensures Reaches(ts, p, r.rest)
    decreases |ts| - p.pos, 12
  {
    var (target, q) :- Primary(ts, p);
    Ok(DeleteOf(keyword, target), q)
  }

  function ReceiveRest(keyword: Token, ts: seq<Token>, p: Cursor): (r: Result<Expr>)
    requires Good(ts, p)
    ensures Reaches(ts, p, r.rest)
    decreases |ts| - p.pos, 22
  {
    var (channel, q) :- Expression(ts, p);
    Ok(Receive(keyword, channel), q)
  }

  function GroupingRest(ts: seq<Token>, p: Cursor): (r: Result<Expr>)
    requires Good(ts, p)
    ensures Reaches(ts, p, r.rest)
    decreases |ts| - p.pos, 24
  {
    var (inner, q) :- Expression(ts, p);
    Ok(Grouping(TokenOf(inner), inner), Consume(ts, q, RightParen).1)
  }

  function ListRest(ts: seq<Token>, p: Cursor): (r: Result<Expr>)
    requires Good(ts, p)
    ensures Reaches(ts, p, r.rest)
    decreases |ts| - p.pos, 24
  {
    var (elements, q) :- OptionalItems(RightBracket, ts, p);
    var (close, q1) := Consume(ts, q, RightBracket);
    Ok(ListOf(close, elements), q1)
  }

  function DictionaryRest(ts: seq<Token>, p: Cursor): (r: Result<Expr>)
    requires Good(ts, p)
    ensures Reaches(ts, p, r.rest)
    decreases |ts| - p.pos, 25
  {
    var (entries, q) :- OptionalEntries(ts, p);
    var (close, q1) := Consume(ts, q, RightBrace);
    Ok(Dictionary(close, entries), q1)
  }

  function CallExpr(ts: seq<Token>, p: Cursor): (r: Result<Expr>)
    requires Good(ts, p)
    ensures Reaches(ts, p, r.rest) && (r.Ok? ==> r.rest.pos > p.pos)
    decreases |ts| - p.pos, 12
  {
    var (e, q) :- Primary(ts, p);
    CallLoop(e, ts, q)
  }

  predicate ExtendsCall(k: Kind) {
    k == LeftParen || k == Dot || k == ChannelSend
  }

  function CallLoop(e: Expr, ts: seq<Token>, p: Cursor): (r: Result<Expr>)
    requires Good(ts, p)
    ensures Reaches(ts, p, r.rest)
    decreases |ts| - p.pos, 0
  {
    if ExtendsCall(KindAt(ts, p)) then
      var (longer, q) :- Suffix(KindAt(ts, p), e, ts, p.Advance());
      CallLoop(longer, ts, q)
    else Ok(e, p)
  }

  /** What follows `(`, `.` or `<-` after an expression. */
  function Suffix(k: Kind, e: Expr, ts: seq<Token>, p: Cursor): (r: Result<Expr>)
    requires Good(ts, p) && ExtendsCall(k)
    ensures Reaches(ts, p, r.rest)
    decreases |ts| - p.pos, 25
  {
    if k == LeftParen then ArgumentsRest(e, ts, p) else if k == Dot then PropertyRest(e, ts, p) else SendRest(e, ts, p)
  }

  function ArgumentsRest(e: Expr, ts: seq<Token>, p: Cursor): (r: Result<Expr>)
    requires Good(ts, p)
    ensures Reaches(ts, p, r.rest)
    decreases |ts| - p.pos, 24
  {
    var (args, q) :- OptionalItems(RightParen, ts, p);
    var (paren, q1) := Consume(ts, q, RightParen);
    Ok(Call(paren, e, args), q1)
  }

  function PropertyRest(e: Expr, ts: seq<Token>, p: Cursor): (r: Result<Expr>)
    requires Good(ts, p)
    ensures Reaches(ts, p, r.rest)
  {
    var (name, q) := Consume(ts, p, Identifier);
    Ok(Get(name, e, name.text), q)
  }

  function SendRest(e: Expr, ts: seq<Token>, p: Cursor): (r: Result<Expr>)
    requires Good(ts, p)
    ensures Reaches(ts, p, r.rest)
    decreases |ts| - p.pos, 24
  {
    var (value, q) :- Expression(ts, p);
    Ok(Send(ts[q.pos - 1], e, value), q)
  }

  /** Comma-separated expressions, or none when the closing bracket follows at once. */
  function OptionalItems(close: Kind, ts: seq<Token>, p: Cursor): (r: Result<seq<Expr>>)
    requires Good(ts, p)
    ensures Reaches(ts, p, r.rest)
    decreases |ts| - p.pos, 23
  {
    if KindAt(ts, p) == close then Ok([], p) else Items([], ts, p)
  }

  function Items(before: seq<Expr>, ts: seq<Token>, p: Cursor): (r: Result<seq<Expr>>)
    requires Good(ts, p)
    ensures Reaches(ts, p, r.rest)
    decreases |ts| - p.pos, 22
  {
    var (e, q) :- Expression(ts, p);
    if KindAt(ts, q) == Comma then Items(before + [e], ts, q.Advance()) else Ok(before + [e], q)
  }

  function Entries(before: seq<Entry>, ts: seq<Token>, p: Cursor): (r: Result<seq<Entry>>)
    requires Good(ts, p)
    ensures Reaches(ts, p, r.rest)
    decreases |ts| - p.pos, 23
  {
    var (x, q) :- EntryAt(ts, p);
    if KindAt(ts, q) == Comma then Entries(before + [x], ts, q.Advance()) else Ok(before + [x], q)
  }

  function EntryAt(ts: seq<Token>, p: Cursor): (r: Result<Entry>)
    requires Good(ts, p)
    ensures Reaches(ts, p, r.rest)
    decreases |ts| - p.pos, 22
  {
    var (key, q) :- Expression(ts, p);
    var (_, q1) := Consume(ts, q, Colon);
    var (value, q2) :- Expression(ts, q1);
    Ok(Entry(key, value), q2)
  }

  function Primary(ts: seq<Token>, p: Cursor): (r: Result<Expr>)
    requires Good(ts, p)
    ensures Reaches(ts, p, r.rest) && (r.Ok? ==> r.rest.pos > p.pos)
    decreases |ts| - p.pos, 11
  {
    var t := ts[p.pos];
    if IsAtom(t.kind) then Ok(Atom(t), p.Advance())
    else if t.kind == LeftParen then GroupingRest(ts, p.Advance())
    else if t.kind == LeftBracket then ListRest(ts, p.Advance())
    else if t.kind == LeftBrace then DictionaryRest(ts, p.Advance())
    else if t.kind == Lambda then LambdaExpr(ts, p.Advance())
    else Thrown(p.Blame(Unexpected(t)))
  }

  function OptionalEntries(ts: seq<Token>, p: Cursor): (r: Result<seq<Entry>>)
    requires Good(ts, p)
    ensures Reaches(ts, p, r.rest)
    decreases |ts| - p.pos, 24
  {
    if KindAt(ts, p) == RightBrace then Ok([], p) else Entries([], ts, p)
  }

  /** What follows the keyword: the parts are parsed, and then the constructor of LambdaExpr always throws. */
  function LambdaExpr(ts: seq<Token>, p: Cursor): (r: Result<Expr>)
    requires Good(ts, p)
    ensures Reaches(ts, p, r.rest) && r.Thrown?
    decreases |ts| - p.pos, 23
  {
    var (_, q) :- LambdaHead(ts, p);
    var (_, q1) :- Expression(ts, q);
    Thrown(q1)
  }

  function LambdaHead(ts: seq<Token>, p: Cursor): (r: Result<()>)
    requires Good(ts, p)
    ensures Reaches(ts, p, r.rest)
  {
    hide ParseType, Parameters;
    var (_, q) := Consume(ts, p, LeftParen);
    var (_, q1) :- Parameters(ts, q);
    var (_, q2) := Consume(ts, q1, RightParen);
    if KindAt(ts, q2) == Arrow then
      var (_, q3) :- ParseType(ts, q2.Advance());
      Ok((), q3)
    else Ok((), q2)
  }

  // One step of each function, by the token at the cursor

  lemma {:induction false} LevelStart(level: nat, ts: seq<Token>, p: Cursor)
    requires Good(ts, p) && level < UNARY
    ensures var r := Level(level + 1, ts, p);
            Level(level, ts, p) == if r.Thrown? then r else LevelLoop(level, r.value, ts, r.rest)
  {
    hide LevelLoop, UnaryExpr;
  }

  lemma {:induction false} LoopTakes(level: nat, left: Expr, ts: seq<Token>, p: Cursor)
    requires Good(ts, p) && level < UNARY && IsOperator(level, KindAt(ts, p))
    ensures KindAt(ts, p) != Eof
    ensures var r := Level(level + 1, ts, p.Advance());
            LevelLoop(level, left, ts, p)
              == if r.Thrown? then r else LevelLoop(level, Binary(left, ts[p.pos], r.value), ts, r.rest)
  {
    hide Level;
  }

  /** The operands of factor are unary expressions. */
  lemma {:induction false} FactorStart(ts: seq<Token>, p: Cursor)
    requires Good(ts, p)
    ensures var r := UnaryExpr(ts, p);
            Level(5, ts, p) == if r.Thrown? then r else LevelLoop(5, r.value, ts, r.rest)
  {
    hide LevelLoop, UnaryExpr;
    LevelStart(5, ts, p);
  }

  lemma {:induction false} FactorTakes(left: Expr, ts: seq<Token>, p: Cursor)
    requires Good(ts, p) && IsOperator(5, KindAt(ts, p))
    ensures KindAt(ts, p) != Eof
    ensures var r := UnaryExpr(ts, p.Advance());
            LevelLoop(5, left, ts, p)
              == if r.Thrown? then r else LevelLoop(5, Binary(left, ts[p.pos], r.value), ts, r.rest)
  {
    hide LevelLoop, UnaryExpr;
    LoopTakes(5, left, ts, p);
    assert Level(UNARY, ts, p.Advance()) == UnaryExpr(ts, p.Advance());
  }

  lemma {:induction false} LoopLeaves(level: nat, left: Expr, ts: seq<Token>, p: Cursor)
    requires Good(ts, p) && level < UNARY && !IsOperator(level, KindAt(ts, p))
    ensures LevelLoop(level, left, ts, p) == Ok(left, p)
  {
    hide Level;
  }

  lemma {:induction false} ExpressionStep(ts: seq<Token>, p: Cursor)
    requires Good(ts, p)
    ensures var r := Level(0, ts, p);
            && (r.Thrown? ==> Expression(ts, p) == r)
            && (r.Ok? && KindAt(ts, r.rest) != Equal ==> Expression(ts, p) == r)
            && (r.Ok? && KindAt(ts, r.rest) == Equal ==>
                  var v := Expression(ts, r.rest.Advance());
                  Expression(ts, p) == if v.Thrown? then v else Assigned(r.value, ts[r.rest.pos], v.value, v.rest))
  {
    hide Level, Assigned;
  }

  lemma {:induction false} UnaryStep(ts: seq<Token>, p: Cursor)
    requires Good(ts, p)
    ensures var k := KindAt(ts, p);
            && (k == Bang || k == Minus ==> UnaryExpr(ts, p) == OperandRest(ts[p.pos], ts, p.Advance()))
            && (k == Await ==> UnaryExpr(ts, p) == AwaitRest(ts, p.Advance()))
            && (k == New ==> UnaryExpr(ts, p) == NewRest(ts[p.pos], ts, p.Advance()))
            && (k == Delete ==> UnaryExpr(ts, p) == DeleteRest(ts[p.pos], ts, p.Advance()))
            && (k == ChannelReceive ==> UnaryExpr(ts, p) == ReceiveRest(ts[p.pos], ts, p.Advance()))
            && (k != Bang && k != Minus && k != Await && k != New && k != Delete && k != ChannelReceive ==>
                  UnaryExpr(ts, p) == CallExpr(ts, p))
  {
    hide CallExpr, OperandRest, AwaitRest, NewRest, DeleteRest, ReceiveRest;
  }

  lemma {:induction false} CallStart(ts: seq<Token>, p: Cursor)
    requires Good(ts, p)
    ensures var r := Primary(ts, p);
            CallExpr(ts, p) == if r.Thrown? then r else CallLoop(r.value, ts, r.rest)
  {
    hide Primary, CallLoop;
  }

  lemma {:induction false} CallStep(e: Expr, ts: seq<Token>, p: Cursor)
    requires Good(ts, p)
    ensures var k := KindAt(ts, p);
            CallLoop(e, ts, p)
              == if !ExtendsCall(k) then Ok(e, p)
                 else
                   var r := Suffix(k, e, ts, p.Advance());
                   if r.Thrown? then r else CallLoop(r.value, ts, r.rest)
  {
    hide Suffix;
  }

  lemma {:induction false} ItemsStep(before: seq<Expr>, ts: seq<Token>, p: Cursor)
    requires Good(ts, p)
    ensures var r := Expression(ts, p);
            Items(before, ts, p)
              == if r.Thrown? then Thrown(r.rest)
                 else if KindAt(ts, r.rest) == Comma then Items(before + [r.value], ts, r.rest.Advance())
                 else Ok(before + [r.value], r.rest)
  {
    hide Expression;
  }

  lemma {:induction false} EntriesStep(before: seq<Entry>, ts: seq<Token>, p: Cursor)
    requires Good(ts, p)
    ensures var r := EntryAt(ts, p);
            Entries(before, ts, p)
              == if r.Thrown? then Thrown(r.rest)
                 else if KindAt(ts, r.rest) == Comma then Entries(before + [r.value], ts, r.rest.Advance())
                 else Ok(before + [r.value], r.rest)
  {
    hide EntryAt;
  }

  lemma {:induction false} PrimaryStep(ts: seq<Token>, p: Cursor)
    requires Good(ts, p)
    ensures var k := KindAt(ts, p);
            && (IsAtom(k) ==> Primary(ts, p) == Ok(Atom(ts[p.pos]), p.Advance()))
            && (k == LeftParen ==> Primary(ts, p) == GroupingRest(ts, p.Advance()))
            && (k == LeftBracket ==> Primary(ts, p) == ListRest(ts, p.Advance()))
            && (k == LeftBrace ==> Primary(ts, p) == DictionaryRest(ts, p.Advance()))
            && (k == Lambda ==> Primary(ts, p) == LambdaExpr(ts, p.Advance()))
            && (!IsAtom(k) && k != LeftParen && k != LeftBracket && k != LeftBrace && k != Lambda ==>
                  Primary(ts, p) == Thrown(p.Blame(Unexpected(ts[p.pos]))))
  {
    hide GroupingRest, ListRest, DictionaryRest, LambdaExpr, Atom;
  }
}
