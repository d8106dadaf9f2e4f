/** Printing an expression tree and parsing it again: wherever the printed form of a well-formed tree stands and nothing
    behind it can be taken for more of it, the expression grammar reads back exactly the tree and reports nothing. */
module RoundTrip {
  import opened Tokens
  import opened Grammar

  const LPAREN := Token(LeftParen, "(")
  const LBRACKET := Token(LeftBracket, "[")
  const RPAREN := Token(RightParen, ")")
  const LBRACE := Token(LeftBrace, "{")
  const COMMA := Token(Comma, ",")
  const COLON := Token(Colon, ":")
  const DOT := Token(Dot, ".")
  const AWAIT := Token(Await, "await")

  /** The tokens of a tree. Constructs outside the theorem (new, delete, channels) have no printed form here. */
  function Print(e: Expr): seq<Token>
    decreases e, 1
  {
    match e
    case Literal(tok, _, _) => [tok]
    case Variable(tok, _) => [tok]
    case Grouping(_, inner) => [LPAREN] + Print(inner) + [RPAREN]
    case ListOf(tok, elements) => [LBRACKET] + PrintItems(elements) + [tok]
    case Dictionary(tok, entries) => [LBRACE] + PrintEntries(entries) + [tok]
    case Unary(op, right) => [op] + Print(right)
    case Awaiting(_, inner) => [AWAIT] + Print(inner)
    case Binary(left, op, right) => Print(left) + [op] + Print(right)
    case Call(tok, callee, args) => Print(callee) + [LPAREN] + PrintItems(args) + [tok]
    case Get(tok, obj, _) => Print(obj) + [DOT] + [tok]
    case Assign(tok, name, value) => [Token(Identifier, name)] + [tok] + Print(value)
    case SetField(tok, obj, name, value) => Print(obj) + [DOT] + [Token(Identifier, name)] + [tok] + Print(value)
    case _ => []
  }

  function PrintItems(es: seq<Expr>): seq<Token>
    decreases es, 0
  {
    if es == [] then []
    else if |es| == 1 then Print(es[0])
    else Print(es[0]) + [COMMA] + PrintItems(es[1..])
  }

  function PrintEntries(es: seq<Entry>): seq<Token>
    decreases es, 0
  {
    if es == [] then []
    else if |es| == 1 then PrintEntry(es[0])
    else PrintEntry(es[0]) + [COMMA] + PrintEntries(es[1..])
  }

  function PrintEntry(x: Entry): seq<Token>
    decreases x, 2
  {
    Print(x.key) + [COLON] + Print(x.value)
  }

  // Precedence

  function OperatorLevel(k: Kind): nat {
    if IsOperator(0, k) then 0
    else if IsOperator(1, k) then 1
    else if IsOperator(2, k) then 2
    else if IsOperator(3, k) then 3
    else if IsOperator(4, k) then 4
    else if IsOperator(5, k) then 5
    else UNARY
  }

  const ASSIGNMENT: nat := 0
  const PREFIX: nat := 7
  const POSTFIX: nat := 8
  const PRIMARY: nat := 9

  /** How tightly the outermost construct binds; the operators of ladder level n have rank n + 1. */
  function Rank(e: Expr): nat {
    match e
    case Assign(_, _, _) => ASSIGNMENT
    case SetField(_, _, _, _) => ASSIGNMENT
    case Binary(_, op, _) => OperatorLevel(op.kind) + 1
    case Unary(_, _) => PREFIX
    case Awaiting(_, _) => PREFIX
    case Call(_, _, _) => POSTFIX
    case Get(_, _, _) => POSTFIX
    case _ => PRIMARY
  }

  /** Every operand binds tightly enough for its place, and the tokens a node carries are those of its text. */
  predicate WellFormed(e: Expr) {
    match e
    case Literal(tok, _, _) => IsAtom(tok.kind) && e == Atom(tok)
    case Variable(tok, _) => IsAtom(tok.kind) && e == Atom(tok)
    case Grouping(tok, inner) => WellFormed(inner) && tok == TokenOf(inner)
    case ListOf(tok, elements) => tok.kind == RightBracket && forall x | x in elements :: WellFormed(x)
    case Dictionary(tok, entries) =>
      tok.kind == RightBrace && forall x | x in entries :: WellFormed(x.key) && WellFormed(x.value)
    case Unary(op, right) => (op.kind == Bang || op.kind == Minus) && WellFormed(right) && Rank(right) >= PREFIX
    case Awaiting(tok, inner) =>
      WellFormed(inner) && Rank(inner) >= PREFIX && Print(inner) != [] && tok == Print(inner)[|Print(inner)| - 1]
    case Binary(left, op, right) =>
      && OperatorLevel(op.kind) < UNARY && WellFormed(left) && WellFormed(right)
      && Rank(left) >= Rank(e) && Rank(right) > Rank(e)
    case Call(tok, callee, args) =>
      tok.kind == RightParen && WellFormed(callee) && Rank(callee) >= POSTFIX && forall x | x in args :: WellFormed(x)
    case Get(tok, obj, name) =>
      tok.kind == Identifier && name == tok.text && WellFormed(obj) && Rank(obj) >= POSTFIX
    case Assign(tok, _, value) => tok.kind == Equal && WellFormed(value)
    case SetField(tok, obj, _, value) =>
      tok.kind == Equal && WellFormed(obj) && Rank(obj) >= POSTFIX && WellFormed(value)
    case _ => false
  }

  /** A token that cannot continue an expression of the given rank. */
  predicate Ends(rank: nat, k: Kind) {
    && (rank <= POSTFIX ==> !ExtendsCall(k))
    && (rank <= OperatorLevel(k) + 1 ==> OperatorLevel(k) == UNARY)
    && (rank == ASSIGNMENT ==> k != Equal)
  }

  // Text at a position

  predicate Has(ts: seq<Token>, pos: nat, text: seq<Token>) {
    pos + |text| <= |ts| && ts[pos..pos + |text|] == text
  }

  function After(p: Cursor, text: seq<Token>): Cursor {
    Cursor(p.pos + |text|, p.reports)
  }

  lemma {:induction false} HasSplit(ts: seq<Token>, pos: nat, a: seq<Token>, b: seq<Token>)
    requires Has(ts, pos, a + b)
    ensures Has(ts, pos, a) && Has(ts, pos + |a|, b)
  {
    assert ts[pos..pos + |a|] == (a + b)[..|a|];
    assert ts[pos + |a|..pos + |a| + |b|] == (a + b)[|a|..];
  }

  lemma {:induction false} HasOne(ts: seq<Token>, pos: nat, t: Token)
    requires Has(ts, pos, [t])
    ensures pos < |ts| && ts[pos] == t
  {
    assert ts[pos..pos + 1][0] == t;
  }

  /** Text, then one token, then the rest. */
  lemma {:induction false} HasAround(ts: seq<Token>, pos: nat, a: seq<Token>, t: Token, b: seq<Token>)
    requires Has(ts, pos, a + [t] + b)
    ensures Has(ts, pos, a) && pos + |a| < |ts| && ts[pos + |a|] == t && Has(ts, pos + |a| + 1, b)
  {
    HasSplit(ts, pos, a + [t], b);
    HasSplit(ts, pos, a, [t]);
    HasOne(ts, pos + |a|, t);
  }

  /** A token that can begin an expression of rank POSTFIX or higher. */
  predicate BeginsPostfix(k: Kind) {
    IsAtom(k) || k == LeftParen || k == LeftBracket || k == LeftBrace
  }

  predicate Begins(k: Kind) {
    BeginsPostfix(k) || k == Bang || k == Minus || k == Await
  }

  lemma {:induction false} FirstToken(e: Expr)
    requires WellFormed(e)
    ensures Print(e) != [] && Begins(Print(e)[0].kind)
    ensures Rank(e) >= POSTFIX ==> BeginsPostfix(Print(e)[0].kind)
  {
    hide OperatorLevel, PrintItems, PrintEntries, Atom, TokenOf;
    match e
    case Binary(left, op, right) => FirstToken(left);
    case Call(tok, callee, args) => FirstToken(callee);
    case Get(tok, obj, name) => FirstToken(obj);
    case SetField(tok, obj, name, value) => FirstToken(obj);
    case _ =>
  }

  // Where the parts of a printed tree stand

  /** e is printed at p, and a further token follows it. */
  ghost predicate Printed(e: Expr, ts: seq<Token>, p: Cursor) {
    WellFormed(e) && Good(ts, p) && Has(ts, p.pos, Print(e)) && p.pos + |Print(e)| < |ts|
  }

  ghost predicate PrintedItems(es: seq<Expr>, ts: seq<Token>, p: Cursor) {
    && (forall x | x in es :: WellFormed(x))
    && Good(ts, p) && Has(ts, p.pos, PrintItems(es)) && p.pos + |PrintItems(es)| < |ts|
  }

  ghost predicate PrintedEntries(es: seq<Entry>, ts: seq<Token>, p: Cursor) {
    && (forall x | x in es :: WellFormed(x.key) && WellFormed(x.value))
    && Good(ts, p) && Has(ts, p.pos, PrintEntries(es)) && p.pos + |PrintEntries(es)| < |ts|
  }

  function Follower(e: Expr, ts: seq<Token>, p: Cursor): Kind
    requires p.pos + |Print(e)| < |ts|
  {
    ts[p.pos + |Print(e)|].kind
  }

  /** `part` is printed at q inside of e, which is printed at p, and ends where e ends. */
  ghost predicate LastPart(part: Expr, q: Cursor, e: Expr, ts: seq<Token>, p: Cursor) {
    && Printed(part, ts, q) && Printed(e, ts, p)
    && |Print(part)| < |Print(e)|
    && After(q, Print(part)) == After(p, Print(e))
  }

  lemma {:induction false} OperatorFacts(k: Kind)
    requires OperatorLevel(k) < UNARY
    ensures IsOperator(OperatorLevel(k), k) && Ends(OperatorLevel(k) + 2, k)
  {
  }

  /** The ranks of the operator levels are taken by binary expressions only. */
  lemma {:induction false} BinaryShape(e: Expr)
    requires WellFormed(e) && 0 < Rank(e) <= UNARY
    ensures e.Binary? && OperatorLevel(e.op.kind) == Rank(e) - 1 && WellFormed(e.left) && WellFormed(e.right)
    ensures Rank(e.left) >= Rank(e) && Rank(e.right) > Rank(e)
    ensures Print(e) == Print(e.left) + [e.op] + Print(e.right)
  {
    hide OperatorLevel, Atom, IsAtom, TokenOf;
  }

  lemma {:induction false} BinaryParts(e: Expr, ts: seq<Token>, p: Cursor)
    requires Printed(e, ts, p) && 0 < Rank(e) <= UNARY
    ensures e.Binary? && IsOperator(Rank(e) - 1, e.op.kind) && Ends(Rank(e) + 1, e.op.kind)
    ensures Rank(e.left) >= Rank(e) && Rank(e.right) > Rank(e)
    ensures Printed(e.left, ts, p) && |Print(e.left)| < |Print(e)| && ts[p.pos + |Print(e.left)|] == e.op
    ensures LastPart(e.right, After(p, Print(e.left)).Advance(), e, ts, p)
  {
    hide IsOperator, Ends, Has, Print, WellFormed, Rank, OperatorLevel;
    BinaryShape(e);
    HasAround(ts, p.pos, Print(e.left), e.op, Print(e.right));
    OperatorFacts(e.op.kind);
  }

  lemma {:induction false} UnaryParts(e: Expr, ts: seq<Token>, p: Cursor)
    requires Printed(e, ts, p) && e.Unary?
    ensures (e.op.kind == Bang || e.op.kind == Minus) && ts[p.pos] == e.op
    ensures Rank(e.right) >= PREFIX && LastPart(e.right, p.Advance(), e, ts, p)
  {
    HasSplit(ts, p.pos, [e.op], Print(e.right));
    HasOne(ts, p.pos, e.op);
  }

  lemma {:induction false} AwaitingParts(e: Expr, ts: seq<Token>, p: Cursor)
    requires Printed(e, ts, p) && e.Awaiting?
    ensures ts[p.pos] == AWAIT && e.tok == ts[p.pos + |Print(e)| - 1]
    ensures Rank(e.inner) >= PREFIX && LastPart(e.inner, p.Advance(), e, ts, p)
  {
    HasSplit(ts, p.pos, [AWAIT], Print(e.inner));
    HasOne(ts, p.pos, AWAIT);
    LastOf(ts, p.pos + 1, Print(e.inner));
  }

  lemma {:induction false} LastOf(ts: seq<Token>, pos: nat, text: seq<Token>)
    requires Has(ts, pos, text) && text != []
    ensures ts[pos + |text| - 1] == text[|text| - 1]
  {
    assert ts[pos..pos + |text|][|text| - 1] == ts[pos + |text| - 1];
  }

  lemma {:induction false} CallParts(e: Expr, ts: seq<Token>, p: Cursor)
    requires Printed(e, ts, p) && e.Call?
    ensures Rank(e.callee) >= POSTFIX && Printed(e.callee, ts, p) && |Print(e.callee)| < |Print(e)|
    ensures ts[p.pos + |Print(e.callee)|] == LPAREN
    ensures var q := After(p, Print(e.callee)).Advance();
            && PrintedItems(e.args, ts, q) && |PrintItems(e.args)| < |Print(e)|
            && ts[q.pos + |PrintItems(e.args)|] == e.tok && e.tok.kind == RightParen
            && After(q, PrintItems(e.args)).Advance() == After(p, Print(e))
  {
    HasSplit(ts, p.pos, Print(e.callee) + [LPAREN] + PrintItems(e.args), [e.tok]);
    HasAround(ts, p.pos, Print(e.callee), LPAREN, PrintItems(e.args));
    HasOne(ts, p.pos + |Print(e)| - 1, e.tok);
  }

  lemma {:induction false} GetParts(e: Expr, ts: seq<Token>, p: Cursor)
    requires Printed(e, ts, p) && e.Get?
    ensures Rank(e.obj) >= POSTFIX && Printed(e.obj, ts, p) && |Print(e.obj)| < |Print(e)|
    ensures ts[p.pos + |Print(e.obj)|] == DOT && ts[p.pos + |Print(e.obj)| + 1] == e.tok
    ensures e.tok.kind == Identifier && e.name == e.tok.text && p.pos + |Print(e.obj)| + 2 == p.pos + |Print(e)|
  {
    HasAround(ts, p.pos, Print(e.obj), DOT, [e.tok]);
    HasOne(ts, p.pos + |Print(e)| - 1, e.tok);
  }

  lemma {:induction false} AtomParts(e: Expr, ts: seq<Token>, p: Cursor)
    requires Printed(e, ts, p) && (e.Literal? || e.Variable?)
    ensures |Print(e)| == 1 && IsAtom(ts[p.pos].kind) && e == Atom(ts[p.pos])
  {
    HasOne(ts, p.pos, e.tok);
  }

  lemma {:induction false} GroupingParts(e: Expr, ts: seq<Token>, p: Cursor)
    requires Printed(e, ts, p) && e.Grouping?
    ensures e.tok == TokenOf(e.inner) && ts[p.pos] == LPAREN
    ensures Printed(e.inner, ts, p.Advance()) && |Print(e.inner)| + 2 == |Print(e)|
    ensures ts[p.pos + 1 + |Print(e.inner)|] == RPAREN
  {
    HasSplit(ts, p.pos, [LPAREN] + Print(e.inner), [RPAREN]);
    HasSplit(ts, p.pos, [LPAREN], Print(e.inner));
    HasOne(ts, p.pos, LPAREN);
    HasOne(ts, p.pos + 1 + |Print(e.inner)|, RPAREN);
  }

  lemma {:induction false} ListParts(e: Expr, ts: seq<Token>, p: Cursor)
    requires Printed(e, ts, p) && e.ListOf?
    ensures e.tok.kind == RightBracket && ts[p.pos] == LBRACKET
    ensures PrintedItems(e.elements, ts, p.Advance()) && |PrintItems(e.elements)| + 2 == |Print(e)|
    ensures ts[p.pos + 1 + |PrintItems(e.elements)|] == e.tok
  {
    HasSplit(ts, p.pos, [LBRACKET] + PrintItems(e.elements), [e.tok]);
    HasSplit(ts, p.pos, [LBRACKET], PrintItems(e.elements));
    HasOne(ts, p.pos, LBRACKET);
    HasOne(ts, p.pos + 1 + |PrintItems(e.elements)|, e.tok);
  }

  lemma {:induction false} DictionaryParts(e: Expr, ts: seq<Token>, p: Cursor)
    requires Printed(e, ts, p) && e.Dictionary?
    ensures e.tok.kind == RightBrace && ts[p.pos] == LBRACE
    ensures PrintedEntries(e.entries, ts, p.Advance()) && |PrintEntries(e.entries)| + 2 == |Print(e)|
    ensures ts[p.pos + 1 + |PrintEntries(e.entries)|] == e.tok
  {
    HasSplit(ts, p.pos, [LBRACE] + PrintEntries(e.entries), [e.tok]);
    HasSplit(ts, p.pos, [LBRACE], PrintEntries(e.entries));
    HasOne(ts, p.pos, LBRACE);
    HasOne(ts, p.pos + 1 + |PrintEntries(e.entries)|, e.tok);
  }

  lemma {:induction false} ItemsParts(es: seq<Expr>, ts: seq<Token>, p: Cursor)
    requires PrintedItems(es, ts, p) && es != []
    ensures Printed(es[0], ts, p) && Begins(ts[p.pos].kind)
    ensures |es| == 1 ==> PrintItems(es) == Print(es[0])
    ensures |es| > 1 ==>
              var q := After(p, Print(es[0])).Advance();
              && |Print(es[0])| < |PrintItems(es)| && ts[p.pos + |Print(es[0])|] == COMMA
              && PrintedItems(es[1..], ts, q) && |PrintItems(es[1..])| < |PrintItems(es)|
              && After(q, PrintItems(es[1..])) == After(p, PrintItems(es))
  {
    hide Print, WellFormed, Begins;
    FirstToken(es[0]);
    if |es| > 1 {
      HasAround(ts, p.pos, Print(es[0]), COMMA, PrintItems(es[1..]));
    }
    FirstOf(ts, p.pos, Print(es[0]));
  }

  lemma {:induction false} FirstOf(ts: seq<Token>, pos: nat, text: seq<Token>)
    requires Has(ts, pos, text) && text != []
    ensures ts[pos] == text[0]
  {
    assert ts[pos..pos + |text|][0] == ts[pos];
  }

  lemma {:induction false} EntryParts(x: Entry, ts: seq<Token>, p: Cursor)
    requires WellFormed(x.key) && WellFormed(x.value) && Good(ts, p)
    requires Has(ts, p.pos, PrintEntry(x)) && p.pos + |PrintEntry(x)| < |ts|
    ensures Printed(x.key, ts, p) && Begins(ts[p.pos].kind) && ts[p.pos + |Print(x.key)|] == COLON
    ensures var q := After(p, Print(x.key)).Advance();
            Printed(x.value, ts, q) && After(q, Print(x.value)) == After(p, PrintEntry(x))
    ensures |Print(x.key)| < |PrintEntry(x)| && |Print(x.value)| < |PrintEntry(x)|
  {
    hide Print, WellFormed, Has, Begins;
    HasAround(ts, p.pos, Print(x.key), COLON, Print(x.value));
    FirstToken(x.key);
    FirstOf(ts, p.pos, Print(x.key));
  }

  lemma {:induction false} EntriesParts(es: seq<Entry>, ts: seq<Token>, p: Cursor)
    requires PrintedEntries(es, ts, p) && es != []
    ensures WellFormed(es[0].key) && WellFormed(es[0].value)
    ensures Has(ts, p.pos, PrintEntry(es[0])) && p.pos + |PrintEntry(es[0])| < |ts|
    ensures |es| == 1 ==> PrintEntries(es) == PrintEntry(es[0])
    ensures |es| > 1 ==>
              var q := After(p, PrintEntry(es[0])).Advance();
              && |PrintEntry(es[0])| < |PrintEntries(es)| && ts[p.pos + |PrintEntry(es[0])|] == COMMA
              && PrintedEntries(es[1..], ts, q) && |PrintEntries(es[1..])| < |PrintEntries(es)|
              && After(q, PrintEntries(es[1..])) == After(p, PrintEntries(es))
  {
    hide Print, WellFormed, PrintEntry;
    if |es| > 1 {
      HasAround(ts, p.pos, PrintEntry(es[0]), COMMA, PrintEntries(es[1..]));
    }
  }

  /** The target of an assignment, as the ladder reads it. */
  function Target(e: Expr): Expr
    requires e.Assign? || e.SetField?
  {
    var t := Token(Identifier, e.name);
    if e.Assign? then Variable(t, e.name) else Get(t, e.obj, e.name)
  }

  lemma {:induction false} AssignmentParts(e: Expr, ts: seq<Token>, p: Cursor)
    requires Printed(e, ts, p) && (e.Assign? || e.SetField?)
    ensures var target := Target(e);
            && Printed(target, ts, p) && Rank(target) >= POSTFIX && |Print(target)| < |Print(e)|
            && ts[p.pos + |Print(target)|] == e.tok && e.tok.kind == Equal
            && LastPart(e.value, After(p, Print(target)).Advance(), e, ts, p)
  {
    hide Print, WellFormed, Rank, Target, Has;
    var target := Target(e);
    TargetPrinted(e);
    HasAround(ts, p.pos, Print(target), e.tok, Print(e.value));
  }

  lemma {:induction false} TargetPrinted(e: Expr)
    requires WellFormed(e) && (e.Assign? || e.SetField?)
    ensures WellFormed(Target(e)) && Rank(Target(e)) >= POSTFIX
    ensures Print(e) == Print(Target(e)) + [e.tok] + Print(e.value)
    ensures Print(Target(e)) != [] && e.tok.kind == Equal && WellFormed(e.value)
  {
    if e.SetField? {
      var t := Token(Identifier, e.name);
      assert Print(Target(e)) == Print(e.obj) + [DOT] + [t];
    }
  }

  // Parsing what was printed: one lemma for each function of the grammar

  /** At a level of the ladder, a printed expression brings the parser to the loop of that level, even when the next
      token is an operator of the level. */
  lemma {:induction false} LevelReads(level: nat, e: Expr, ts: seq<Token>, p: Cursor)
    requires Printed(e, ts, p) && level < UNARY && Rank(e) > level
    requires Ends(level + 2, Follower(e, ts, p))
    ensures Level(level, ts, p) == LevelLoop(level, e, ts, After(p, Print(e)))
    decreases |Print(e)|, 30 - 2 * level
  {
    hide Print, WellFormed, Has, Rank, Ends, IsOperator, UnaryExpr;
    if Rank(e) > level + 1 {
      LevelReturns(level + 1, e, ts, p);
    } else {
      BinaryParts(e, ts, p);
      LevelReads(level, e.left, ts, p);
      LevelReturns(level + 1, e.right, ts, After(p, Print(e.left)).Advance());
    }
  }

  lemma {:induction false} OperatorLevelIs(level: nat, k: Kind)
    requires level < UNARY && IsOperator(level, k)
    ensures OperatorLevel(k) == level
  {
  }

  lemma {:induction false} EndsMono(low: nat, high: nat, k: Kind)
    requires low <= high && Ends(low, k)
    ensures Ends(high, k)
    ensures 0 < low <= UNARY ==> !IsOperator(low - 1, k)
  {
    hide IsOperator, OperatorLevel, ExtendsCall;
    if 0 < low <= UNARY && IsOperator(low - 1, k) {
      OperatorLevelIs(low - 1, k);
    }
  }

  lemma {:induction false} LevelReturns(level: nat, e: Expr, ts: seq<Token>, p: Cursor)
    requires Printed(e, ts, p) && level <= UNARY && Rank(e) > level
    requires Ends(level + 1, Follower(e, ts, p))
    ensures Level(level, ts, p) == Ok(e, After(p, Print(e)))
    decreases |Print(e)|, 31 - 2 * level
  {
    hide Print, WellFormed, Has, Rank, Ends, IsOperator, UnaryExpr;
    EndsMono(level + 1, level + 2, Follower(e, ts, p));
    if level == UNARY {
      UnaryReturns(e, ts, p);
    } else {
      LevelReads(level, e, ts, p);
    }
  }

  // One step of the grammar's functions, for the token that was printed

  lemma {:induction false} UnaryOnOperator(ts: seq<Token>, p: Cursor, right: Expr, q: Cursor)
    requires Good(ts, p) && (KindAt(ts, p) == Bang || KindAt(ts, p) == Minus)
    requires UnaryExpr(ts, p.Advance()) == Ok(right, q)
    ensures UnaryExpr(ts, p) == Ok(Unary(ts[p.pos], right), q)
  {
    hide UnaryExpr;
    UnaryStep(ts, p);
  }

  lemma {:induction false} UnaryOnAwait(ts: seq<Token>, p: Cursor, inner: Expr, q: Cursor)
    requires Good(ts, p) && KindAt(ts, p) == Await
    requires UnaryExpr(ts, p.Advance()) == Ok(inner, q)
    ensures 0 < q.pos <= |ts| && UnaryExpr(ts, p) == Ok(Awaiting(ts[q.pos - 1], inner), q)
  {
    hide UnaryExpr, CallExpr, OperandRest, NewRest, DeleteRest, ReceiveRest;
    UnaryStep(ts, p);
  }

  lemma {:induction false} UnaryOnOther(ts: seq<Token>, p: Cursor)
    requires Good(ts, p) && BeginsPostfix(KindAt(ts, p))
    ensures UnaryExpr(ts, p) == CallExpr(ts, p)
  {
    hide UnaryExpr, CallExpr;
    UnaryStep(ts, p);
  }

  lemma {:induction false} CallLoopOnParen(e: Expr, ts: seq<Token>, p: Cursor, args: seq<Expr>, q: Cursor)
    requires Good(ts, p) && KindAt(ts, p) == LeftParen
    requires OptionalItems(RightParen, ts, p.Advance()) == Ok(args, q)
    requires Inside(ts, q) && KindAt(ts, q) == RightParen
    ensures CallLoop(e, ts, p) == CallLoop(Call(ts[q.pos], e, args), ts, q.Advance())
  {
    hide CallLoop, OptionalItems;
    CallStep(e, ts, p);
  }

  lemma {:induction false} CallLoopOnDot(e: Expr, ts: seq<Token>, p: Cursor)
    requires Good(ts, p) && KindAt(ts, p) == Dot && KindAt(ts, p.Advance()) == Identifier
    ensures CallLoop(e, ts, p)
         == CallLoop(Get(ts[p.pos + 1], e, ts[p.pos + 1].text), ts, p.Advance().Advance())
  {
    hide CallLoop;
    CallStep(e, ts, p);
  }

  lemma {:induction false} PrimaryOnBracket(ts: seq<Token>, p: Cursor, e: Expr, q: Cursor)
    requires Good(ts, p) && Inside(ts, q)
    requires KindAt(ts, p) == LeftParen ==>
               Expression(ts, p.Advance()) == Ok(e, q) && KindAt(ts, q) == RightParen
    requires KindAt(ts, p) == LeftBracket ==>
               e.ListOf? && OptionalItems(RightBracket, ts, p.Advance()) == Ok(e.elements, q) && ts[q.pos] == e.tok
               && e.tok.kind == RightBracket
    requires KindAt(ts, p) == LeftBrace ==>
               e.Dictionary? && OptionalEntries(ts, p.Advance()) == Ok(e.entries, q) && ts[q.pos] == e.tok
               && e.tok.kind == RightBrace
    ensures KindAt(ts, p) == LeftParen ==> Primary(ts, p) == Ok(Grouping(TokenOf(e), e), q.Advance())
    ensures KindAt(ts, p) == LeftBracket || KindAt(ts, p) == LeftBrace ==> Primary(ts, p) == Ok(e, q.Advance())
  {
    hide Primary, Expression, OptionalItems, OptionalEntries, LambdaExpr, IsAtom, Atom;
    PrimaryStep(ts, p);
  }

  lemma {:induction false} PrimaryOnAtom(ts: seq<Token>, p: Cursor)
    requires Good(ts, p) && IsAtom(KindAt(ts, p))
    ensures Primary(ts, p) == Ok(Atom(ts[p.pos]), p.Advance())
  {
    hide Primary, IsAtom, Atom;
    PrimaryStep(ts, p);
  }

  lemma {:induction false} ExpressionOnEqual(ts: seq<Token>, p: Cursor, e: Expr, q: Cursor, q1: Cursor)
    requires Good(ts, p) && (e.Assign? || e.SetField?) && Level(0, ts, p) == Ok(Target(e), q)
    requires KindAt(ts, q) == Equal && ts[q.pos] == e.tok
    requires Expression(ts, q.Advance()) == Ok(e.value, q1)
    ensures Expression(ts, p) == Ok(e, q1)
  {
    hide Level, Expression;
    ExpressionStep(ts, p);
  }

  lemma {:induction false} EntryRead(ts: seq<Token>, p: Cursor, x: Entry, q: Cursor, q': Cursor)
    requires Good(ts, p) && Expression(ts, p) == Ok(x.key, q) && Inside(ts, q) && KindAt(ts, q) == Colon
    requires Expression(ts, q.Advance()) == Ok(x.value, q')
    ensures EntryAt(ts, p) == Ok(x, q')
  {
    hide Expression;
  }

  // The induction

  lemma {:induction false} UnaryReturns(e: Expr, ts: seq<Token>, p: Cursor)
    requires Printed(e, ts, p) && Rank(e) >= PREFIX && Ends(PREFIX, Follower(e, ts, p))
    ensures UnaryExpr(ts, p) == Ok(e, After(p, Print(e)))
    decreases |Print(e)|, 18
  {
    hide Print, WellFormed, Has, Rank, Ends, ExtendsCall, CallExpr, CallLoop, UnaryExpr, BeginsPostfix;
    if e.Unary? {
      UnaryParts(e, ts, p);
      UnaryReturns(e.right, ts, p.Advance());
      UnaryOnOperator(ts, p, e.right, After(p, Print(e)));
    } else if e.Awaiting? {
      AwaitingParts(e, ts, p);
      UnaryReturns(e.inner, ts, p.Advance());
      UnaryOnAwait(ts, p, e.inner, After(p, Print(e)));
    } else {
      RankPostfix(e);
      EndsPostfix(Follower(e, ts, p));
      PostfixReturns(e, ts, p);
    }
  }

  lemma {:induction false} BeginsHere(e: Expr, ts: seq<Token>, p: Cursor)
    requires Printed(e, ts, p) && Rank(e) >= POSTFIX
    ensures BeginsPostfix(KindAt(ts, p))
  {
    hide Print, WellFormed, Has, Rank, Begins, BeginsPostfix;
    FirstToken(e);
    FirstOf(ts, p.pos, Print(e));
  }

  lemma {:induction false} PostfixReturns(e: Expr, ts: seq<Token>, p: Cursor)
    requires Printed(e, ts, p) && Rank(e) >= POSTFIX && !ExtendsCall(Follower(e, ts, p))
    ensures UnaryExpr(ts, p) == Ok(e, After(p, Print(e)))
    decreases |Print(e)|, 17, 1
  {
    hide Print, WellFormed, Has, Rank, ExtendsCall, CallExpr, CallLoop, UnaryExpr, BeginsPostfix;
    BeginsHere(e, ts, p);
    UnaryOnOther(ts, p);
    CallReads(e, ts, p);
    CallStep(e, ts, After(p, Print(e)));
  }

  lemma {:induction false} RankPostfix(e: Expr)
    requires WellFormed(e) && Rank(e) >= PREFIX && !e.Unary? && !e.Awaiting?
    ensures Rank(e) >= POSTFIX
  {
    hide OperatorLevel, Print, Atom;
  }

  lemma {:induction false} EndsPostfix(k: Kind)
    requires Ends(PREFIX, k)
    ensures !ExtendsCall(k)
  {
  }

  lemma {:induction false} OperatorLevelBound(k: Kind)
    ensures OperatorLevel(k) <= UNARY
  {
    hide IsOperator;
  }

  /** Postfix operators, like the levels of the ladder, are read by a loop that continues with what it has. */
  lemma {:induction false} CallReads(e: Expr, ts: seq<Token>, p: Cursor)
    requires Printed(e, ts, p) && Rank(e) >= POSTFIX
    ensures CallExpr(ts, p) == CallLoop(e, ts, After(p, Print(e)))
    decreases |Print(e)|, 17, 0
  {
    hide Print, WellFormed, Has, Rank, OptionalItems, Primary, CallExpr, CallLoop;
    if e.Call? {
      CallParts(e, ts, p);
      CallReads(e.callee, ts, p);
      var q := After(p, Print(e.callee));
      OptionalItemsReturn(RightParen, e.args, ts, q.Advance());
      CallLoopOnParen(e.callee, ts, q, e.args, After(q.Advance(), PrintItems(e.args)));
    } else if e.Get? {
      GetParts(e, ts, p);
      CallReads(e.obj, ts, p);
      CallLoopOnDot(e.obj, ts, After(p, Print(e.obj)));
    } else {
      RankPrimary(e);
      PrimaryReturns(e, ts, p);
      CallStart(ts, p);
    }
  }

  lemma {:induction false} RankPrimary(e: Expr)
    requires Rank(e) >= POSTFIX && !e.Call? && !e.Get?
    ensures Rank(e) == PRIMARY
  {
    if e.Binary? {
      OperatorLevelBound(e.op.kind);
    }
  }

  lemma {:induction false} ClosingEnds(k: Kind)
    requires k in {RightParen, RightBracket, RightBrace, Comma, Colon}
    ensures Ends(ASSIGNMENT, k) && !Begins(k)
  {
  }

  lemma {:induction false} MoveFirst<T>(before: seq<T>, es: seq<T>)
    requires es != []
    ensures before + [es[0]] + es[1..] == before + es
    ensures |es| == 1 ==> before + [es[0]] == before + es
  {
  }

  lemma {:induction false} MoveNothing<T>(es: seq<T>)
    ensures [] + es == es
  {
  }

  lemma {:induction false} NothingPrinted(es: seq<Expr>, xs: seq<Entry>)
    ensures es == [] ==> PrintItems(es) == []
    ensures xs == [] ==> PrintEntries(xs) == []
  {
  }

  lemma {:induction false} OptionalItemsReturn(close: Kind, es: seq<Expr>, ts: seq<Token>, p: Cursor)
    requires PrintedItems(es, ts, p)
    requires ts[p.pos + |PrintItems(es)|].kind == close && (close == RightParen || close == RightBracket)
    ensures OptionalItems(close, ts, p) == Ok(es, After(p, PrintItems(es)))
    decreases |PrintItems(es)|, 41
  {
    hide Items, Print, PrintItems, WellFormed, Has, Begins;
    ClosingEnds(close);
    NothingPrinted(es, []);
    if es != [] {
      ItemsParts(es, ts, p);
      ItemsReturn([], es, ts, p);
      MoveNothing(es);
    }
  }

  lemma {:induction false} ItemsReturn(before: seq<Expr>, es: seq<Expr>, ts: seq<Token>, p: Cursor)
    requires PrintedItems(es, ts, p) && es != []
    requires var k := ts[p.pos + |PrintItems(es)|].kind; k == RightParen || k == RightBracket
    ensures Items(before, ts, p) == Ok(before + es, After(p, PrintItems(es)))
    decreases |PrintItems(es)|, 40
  {
    hide Expression, Items, Print, PrintItems, WellFormed, Has, Begins, Ends;
    ItemsParts(es, ts, p);
    ClosingEnds(ts[p.pos + |PrintItems(es)|].kind);
    ClosingEnds(Comma);
    ExpressionReturns(es[0], ts, p);
    var q := After(p, Print(es[0]));
    ItemsStep(before, ts, p);
    if |es| == 1 {
      MoveFirst(before, es);
    } else {
      ItemsReturn(before + [es[0]], es[1..], ts, q.Advance());
      MoveFirst(before, es);
    }
  }

  lemma {:induction false} EntriesReturn(before: seq<Entry>, es: seq<Entry>, ts: seq<Token>, p: Cursor)
    requires PrintedEntries(es, ts, p) && es != []
    requires ts[p.pos + |PrintEntries(es)|].kind == RightBrace
    ensures Entries(before, ts, p) == Ok(before + es, After(p, PrintEntries(es)))
    decreases |PrintEntries(es)|, 40
  {
    hide Expression, Entries, EntryAt, Print, PrintEntry, PrintEntries, WellFormed, Has, Begins, Ends;
    EntriesParts(es, ts, p);
    var q := After(p, PrintEntry(es[0]));
    EntryReturns(es[0], ts, p);
    EntriesStep(before, ts, p);
    if |es| == 1 {
      MoveFirst(before, es);
    } else {
      EntriesReturn(before + [es[0]], es[1..], ts, q.Advance());
      MoveFirst(before, es);
    }
  }

  lemma {:induction false} EntryReturns(x: Entry, ts: seq<Token>, p: Cursor)
    requires WellFormed(x.key) && WellFormed(x.value) && Good(ts, p)
    requires Has(ts, p.pos, PrintEntry(x)) && p.pos + |PrintEntry(x)| < |ts|
    requires var k := ts[p.pos + |PrintEntry(x)|].kind; k == RightBrace || k == Comma
    ensures EntryAt(ts, p) == Ok(x, After(p, PrintEntry(x)))
    decreases |PrintEntry(x)|, 39
  {
    hide Expression, EntryAt, Print, PrintEntry, WellFormed, Has, Begins, Ends;
    EntryParts(x, ts, p);
    ClosingEnds(ts[p.pos + |PrintEntry(x)|].kind);
    ClosingEnds(Colon);
    ExpressionReturns(x.key, ts, p);
    var q := After(p, Print(x.key));
    ExpressionReturns(x.value, ts, q.Advance());
    EntryRead(ts, p, x, q, After(p, PrintEntry(x)));
  }

  lemma {:induction false} OptionalEntriesReturn(es: seq<Entry>, ts: seq<Token>, p: Cursor)
    requires PrintedEntries(es, ts, p)
    requires ts[p.pos + |PrintEntries(es)|].kind == RightBrace
    ensures OptionalEntries(ts, p) == Ok(es, After(p, PrintEntries(es)))
    decreases |PrintEntries(es)|, 41
  {
    hide Entries, OptionalEntries, Print, PrintEntry, PrintEntries, WellFormed, Has, Begins;
    NothingPrinted([], es);
    if es == [] {
      OptionalEntriesStep(ts, p);
    } else {
      EntriesBegin(es, ts, p);
      OptionalEntriesStep(ts, p);
      EntriesReturn([], es, ts, p);
      MoveNothing(es);
    }
  }

  lemma {:induction false} EntriesBegin(es: seq<Entry>, ts: seq<Token>, p: Cursor)
    requires PrintedEntries(es, ts, p) && es != []
    ensures KindAt(ts, p) != RightBrace
  {
    hide Print, PrintEntry, PrintEntries, WellFormed, Has, Begins;
    EntriesParts(es, ts, p);
    EntryParts(es[0], ts, p);
    ClosingEnds(RightBrace);
  }

  lemma {:induction false} OptionalEntriesStep(ts: seq<Token>, p: Cursor)
    requires Good(ts, p)
    ensures OptionalEntries(ts, p) == if KindAt(ts, p) == RightBrace then Ok([], p) else Entries([], ts, p)
  {
    hide Entries;
  }

  lemma {:induction false} PrimaryReturns(e: Expr, ts: seq<Token>, p: Cursor)
    requires Printed(e, ts, p) && Rank(e) == PRIMARY
    ensures Primary(ts, p) == Ok(e, After(p, Print(e)))
    decreases |Print(e)|, 16
  {
    hide Print, WellFormed, Has, Atom, IsAtom, Ends, Begins, Primary, Expression, OptionalItems, OptionalEntries;
    hide TokenOf;
    if e.Grouping? {
      GroupingParts(e, ts, p);
      ClosingEnds(RightParen);
      ExpressionReturns(e.inner, ts, p.Advance());
      PrimaryOnBracket(ts, p, e.inner, After(p.Advance(), Print(e.inner)));
    } else if e.ListOf? {
      ListParts(e, ts, p);
      OptionalItemsReturn(RightBracket, e.elements, ts, p.Advance());
      PrimaryOnBracket(ts, p, e, After(p.Advance(), PrintItems(e.elements)));
    } else if e.Dictionary? {
      DictionaryParts(e, ts, p);
      OptionalEntriesReturn(e.entries, ts, p.Advance());
      PrimaryOnBracket(ts, p, e, After(p.Advance(), PrintEntries(e.entries)));
    } else {
      PrintableAtom(e);
      AtomParts(e, ts, p);
      PrimaryOnAtom(ts, p);
    }
  }

  lemma {:induction false} PrintableAtom(e: Expr)
    requires WellFormed(e) && Rank(e) == PRIMARY && !e.Grouping? && !e.ListOf? && !e.Dictionary?
    ensures e.Literal? || e.Variable?
  {
  }

  /** The main theorem: wherever a well-formed tree is printed, followed by a token that cannot extend it, parsing an
      expression returns the tree, stops exactly there and reports nothing. */
  lemma {:induction false} ExpressionReturns(e: Expr, ts: seq<Token>, p: Cursor)
    requires Printed(e, ts, p) && Ends(ASSIGNMENT, Follower(e, ts, p))
    ensures Expression(ts, p) == Ok(e, After(p, Print(e)))
    decreases |Print(e)|, 35
  {
    hide Print, WellFormed, Has, Level, Expression, Target, OperatorLevel, ExtendsCall;
    if e.Assign? || e.SetField? {
      AssignmentParts(e, ts, p);
      EqualEnds();
      LevelReturns(0, Target(e), ts, p);
      var q := After(p, Print(Target(e)));
      ExpressionReturns(e.value, ts, q.Advance());
      ExpressionOnEqual(ts, p, e, q, After(p, Print(e)));
    } else {
      EndsMono(0, 1, Follower(e, ts, p));
      RankLevel(e);
      LevelReturns(0, e, ts, p);
      ExpressionStep(ts, p);
    }
  }

  lemma {:induction false} EqualEnds()
    ensures Ends(1, Equal)
  {
  }

  lemma {:induction false} RankLevel(e: Expr)
    requires !e.Assign? && !e.SetField?
    ensures Rank(e) > 0
  {
  }
}
