/** The converse of the round trip: what the parser returns without a report is a well-formed tree whose printed tokens
    are the ones that were consumed. So the expression parser accepts exactly the printed trees. */
module Exactness {
  // The proof follows the grammar: one lemma for each of its functions, which says what an unreported result of that
  // function consists of.

  import opened Tokens
  import opened Grammar
  import opened RoundTrip

  /** The punctuation has its spelling, and none of the constructs without a printed form begins. */
  predicate Allowed(t: Token) {
    && t.kind != New && t.kind != Delete && t.kind != ChannelSend && t.kind != ChannelReceive
    && (t.kind == LeftParen ==> t == LPAREN) && (t.kind == RightParen ==> t == RPAREN)
    && (t.kind == LeftBracket ==> t == LBRACKET) && (t.kind == LeftBrace ==> t == LBRACE)
    && (t.kind == Comma ==> t == COMMA) && (t.kind == Colon ==> t == COLON)
    && (t.kind == Dot ==> t == DOT) && (t.kind == Await ==> t == AWAIT)
  }

  ghost predicate AllowedIn(ts: seq<Token>, from: nat, to: nat) {
    to <= |ts| && forall i :: from <= i < to ==> Allowed(ts[i])
  }

  lemma {:induction false} AllowedPart(ts: seq<Token>, from: nat, to: nat, from': nat, to': nat)
    requires AllowedIn(ts, from, to) && from <= from' && to' <= to
    ensures AllowedIn(ts, from', to')
  {
  }

  /** A result that took no report with it. */
  predicate Clean<T>(p: Cursor, r: Result<T>) {
    r.Ok? && |r.rest.reports| == |p.reports|
  }

  /** Between p and q stands the printed form of a well-formed tree of at least the given rank. */
  ghost predicate Parsed(e: Expr, ts: seq<Token>, p: Cursor, q: Cursor, rank: nat) {
    WellFormed(e) && Rank(e) >= rank && Has(ts, p.pos, Print(e)) && q == After(p, Print(e))
  }

  lemma {:induction false} ConsumedOne(ts: seq<Token>, p: Cursor, k: Kind)
    requires Good(ts, p) && k != Eof && |Consume(ts, p, k).1.reports| == |p.reports|
    ensures KindAt(ts, p) == k && Consume(ts, p, k) == (ts[p.pos], p.Advance())
  {
  }

  // Putting parts together

  lemma {:induction false} HasJoin(ts: seq<Token>, pos: nat, a: seq<Token>, b: seq<Token>)
    requires Has(ts, pos, a) && Has(ts, pos + |a|, b)
    ensures Has(ts, pos, a + b)
  {
    assert ts[pos..pos + |a| + |b|] == ts[pos..pos + |a|] + ts[pos + |a|..pos + |a| + |b|];
  }

  lemma {:induction false} HasToken(ts: seq<Token>, pos: nat)
    requires pos < |ts|
    ensures Has(ts, pos, [ts[pos]])
  {
  }

  lemma {:induction false} JoinAround(ts: seq<Token>, pos: nat, a: seq<Token>, b: seq<Token>)
    requires Has(ts, pos, a) && pos + |a| < |ts| && Has(ts, pos + |a| + 1, b)
    ensures Has(ts, pos, a + [ts[pos + |a|]] + b)
  {
    HasToken(ts, pos + |a|);
    HasJoin(ts, pos, a, [ts[pos + |a|]]);
    HasJoin(ts, pos, a + [ts[pos + |a|]], b);
  }

  lemma {:induction false} BinaryMade(left: Expr, op: Token, right: Expr, level: nat)
    requires level < UNARY && OperatorLevel(op.kind) == level
    requires WellFormed(left) && WellFormed(right) && Rank(left) >= level + 1 && Rank(right) >= level + 2
    ensures var e := Binary(left, op, right);
            WellFormed(e) && Rank(e) == level + 1 && Print(e) == Print(left) + [op] + Print(right)
  {
    hide OperatorLevel, Atom, IsAtom, TokenOf;
  }

  lemma {:induction false} BinaryJoin(
    left: Expr, right: Expr, level: nat, ts: seq<Token>, p0: Cursor, p: Cursor, q: Cursor)
    requires level < UNARY && p.pos < |ts| && IsOperator(level, ts[p.pos].kind)
    requires Parsed(left, ts, p0, p, level + 1) && Parsed(right, ts, p.Advance(), q, level + 2)
    ensures Parsed(Binary(left, ts[p.pos], right), ts, p0, q, level + 1)
  {
    hide Has, IsOperator, OperatorLevel, Print, WellFormed, Rank;
    JoinAround(ts, p0.pos, Print(left), Print(right));
    OperatorLevelIs(level, ts[p.pos].kind);
    BinaryMade(left, ts[p.pos], right, level);
  }

  lemma {:induction false} UnaryJoin(right: Expr, ts: seq<Token>, p: Cursor, q: Cursor)
    requires p.pos < |ts| && (ts[p.pos].kind == Bang || ts[p.pos].kind == Minus)
    requires Parsed(right, ts, p.Advance(), q, PREFIX)
    ensures Parsed(Unary(ts[p.pos], right), ts, p, q, PREFIX)
  {
    hide Has;
    HasToken(ts, p.pos);
    HasJoin(ts, p.pos, [ts[p.pos]], Print(right));
  }

  lemma {:induction false} AwaitMade(tok: Token, inner: Expr)
    requires WellFormed(inner) && Rank(inner) >= PREFIX && Print(inner) != [] && tok == Print(inner)[|Print(inner)| - 1]
    ensures var e := Awaiting(tok, inner);
            WellFormed(e) && Rank(e) == PREFIX && Print(e) == [AWAIT] + Print(inner)
  {
    hide OperatorLevel, Atom, IsAtom, TokenOf;
  }

  lemma {:induction false} AwaitJoin(inner: Expr, ts: seq<Token>, p: Cursor, q: Cursor)
    requires p.pos < |ts| && ts[p.pos] == AWAIT && 0 < q.pos <= |ts|
    requires Parsed(inner, ts, p.Advance(), q, PREFIX)
    ensures Parsed(Awaiting(ts[q.pos - 1], inner), ts, p, q, PREFIX)
  {
    hide Has, Print, WellFormed, Rank, Begins, BeginsPostfix;
    FirstToken(inner);
    LastOf(ts, p.pos + 1, Print(inner));
    HasToken(ts, p.pos);
    HasJoin(ts, p.pos, [AWAIT], Print(inner));
    AwaitMade(ts[q.pos - 1], inner);
  }

  lemma {:induction false} GetJoin(obj: Expr, ts: seq<Token>, p0: Cursor, p: Cursor)
    requires p.pos + 1 < |ts| && ts[p.pos] == DOT && ts[p.pos + 1].kind == Identifier
    requires Parsed(obj, ts, p0, p, POSTFIX)
    ensures Parsed(Get(ts[p.pos + 1], obj, ts[p.pos + 1].text), ts, p0, p.Advance().Advance(), POSTFIX)
  {
    hide Has;
    HasToken(ts, p.pos + 1);
    JoinAround(ts, p0.pos, Print(obj), [ts[p.pos + 1]]);
  }

  lemma {:induction false} CallMade(tok: Token, callee: Expr, args: seq<Expr>)
    requires tok.kind == RightParen && WellFormed(callee) && Rank(callee) >= POSTFIX
    requires forall x | x in args :: WellFormed(x)
    ensures var e := Call(tok, callee, args);
            WellFormed(e) && Rank(e) == POSTFIX && Print(e) == Print(callee) + [LPAREN] + PrintItems(args) + [tok]
  {
    hide OperatorLevel, Atom, IsAtom, TokenOf;
  }

  lemma {:induction false} CallJoin(callee: Expr, args: seq<Expr>, ts: seq<Token>, p0: Cursor, p: Cursor, q: Cursor)
    requires p.pos < |ts| && ts[p.pos] == LPAREN && q.pos < |ts| && ts[q.pos].kind == RightParen
    requires Parsed(callee, ts, p0, p, POSTFIX) && ParsedItems(args, ts, p.Advance(), q)
    ensures Parsed(Call(ts[q.pos], callee, args), ts, p0, q.Advance(), POSTFIX)
  {
    hide Has, Print, WellFormed, Rank;
    CallMade(ts[q.pos], callee, args);
    JoinAround(ts, p0.pos, Print(callee), PrintItems(args));
    HasToken(ts, q.pos);
    HasJoin(ts, p0.pos, Print(callee) + [LPAREN] + PrintItems(args), [ts[q.pos]]);
  }

  ghost predicate ParsedItems(es: seq<Expr>, ts: seq<Token>, p: Cursor, q: Cursor) {
    (forall x | x in es :: WellFormed(x)) && Has(ts, p.pos, PrintItems(es)) && q == After(p, PrintItems(es))
  }

  ghost predicate ParsedEntry(x: Entry, ts: seq<Token>, p: Cursor, q: Cursor) {
    WellFormed(x.key) && WellFormed(x.value) && Has(ts, p.pos, PrintEntry(x)) && q == After(p, PrintEntry(x))
  }

  ghost predicate ParsedEntries(es: seq<Entry>, ts: seq<Token>, p: Cursor, q: Cursor) {
    && (forall x | x in es :: WellFormed(x.key) && WellFormed(x.value))
    && Has(ts, p.pos, PrintEntries(es)) && q == After(p, PrintEntries(es))
  }

  lemma {:induction false} ItemsJoin(first: Expr, rest: seq<Expr>, ts: seq<Token>, p: Cursor, q: Cursor, end: Cursor)
    requires q.pos < |ts| && Parsed(first, ts, p, q, 0)
    requires rest == [] ==> end == q
    requires rest != [] ==> ts[q.pos] == COMMA && ParsedItems(rest, ts, q.Advance(), end)
    ensures ParsedItems([first] + rest, ts, p, end)
  {
    hide Has, Print, WellFormed;
    var es := [first] + rest;
    assert es[1..] == rest;
    if rest != [] {
      JoinAround(ts, p.pos, Print(first), PrintItems(rest));
    }
  }

  lemma {:induction false} EntriesJoin(
    first: Entry, rest: seq<Entry>, ts: seq<Token>, p: Cursor, q: Cursor, end: Cursor)
    requires q.pos < |ts| && ParsedEntry(first, ts, p, q)
    requires rest == [] ==> end == q
    requires rest != [] ==> ts[q.pos] == COMMA && ParsedEntries(rest, ts, q.Advance(), end)
    ensures ParsedEntries([first] + rest, ts, p, end)
  {
    hide Has, Print, PrintEntry, WellFormed;
    var es := [first] + rest;
    assert es[1..] == rest;
    if rest != [] {
      JoinAround(ts, p.pos, PrintEntry(first), PrintEntries(rest));
    }
  }

  lemma {:induction false} EntryJoin(key: Expr, value: Expr, ts: seq<Token>, p: Cursor, q: Cursor, end: Cursor)
    requires q.pos < |ts| && ts[q.pos] == COLON && Parsed(key, ts, p, q, 0) && Parsed(value, ts, q.Advance(), end, 0)
    ensures ParsedEntry(Entry(key, value), ts, p, end)
  {
    hide Has, Print, WellFormed;
    JoinAround(ts, p.pos, Print(key), Print(value));
  }

  lemma {:induction false} BracketJoin(ts: seq<Token>, pos: nat, text: seq<Token>)
    requires pos < |ts| && Has(ts, pos + 1, text) && pos + 1 + |text| < |ts|
    ensures Has(ts, pos, [ts[pos]] + text + [ts[pos + 1 + |text|]])
  {
    HasToken(ts, pos);
    HasJoin(ts, pos, [ts[pos]], text);
    HasToken(ts, pos + 1 + |text|);
    HasJoin(ts, pos, [ts[pos]] + text, [ts[pos + 1 + |text|]]);
  }

  lemma {:induction false} GroupingMade(inner: Expr)
    requires WellFormed(inner)
    ensures var e := Grouping(TokenOf(inner), inner);
            WellFormed(e) && Rank(e) == PRIMARY && Print(e) == [LPAREN] + Print(inner) + [RPAREN]
  {
    hide OperatorLevel, Atom, IsAtom, TokenOf;
  }

  lemma {:induction false} GroupingJoin(inner: Expr, ts: seq<Token>, p: Cursor, q: Cursor)
    requires p.pos < |ts| && ts[p.pos] == LPAREN && q.pos < |ts| && ts[q.pos] == RPAREN
    requires Parsed(inner, ts, p.Advance(), q, 0)
    ensures Parsed(Grouping(TokenOf(inner), inner), ts, p, q.Advance(), PRIMARY)
  {
    hide Has, Print, WellFormed, Rank, TokenOf;
    GroupingMade(inner);
    BracketJoin(ts, p.pos, Print(inner));
  }

  lemma {:induction false} ListJoin(es: seq<Expr>, ts: seq<Token>, p: Cursor, q: Cursor)
    requires p.pos < |ts| && ts[p.pos] == LBRACKET && q.pos < |ts| && ts[q.pos].kind == RightBracket
    requires ParsedItems(es, ts, p.Advance(), q)
    ensures Parsed(ListOf(ts[q.pos], es), ts, p, q.Advance(), PRIMARY)
  {
    hide Has;
    BracketJoin(ts, p.pos, PrintItems(es));
  }

  lemma {:induction false} DictionaryJoin(es: seq<Entry>, ts: seq<Token>, p: Cursor, q: Cursor)
    requires p.pos < |ts| && ts[p.pos] == LBRACE && q.pos < |ts| && ts[q.pos].kind == RightBrace
    requires ParsedEntries(es, ts, p.Advance(), q)
    ensures Parsed(Dictionary(ts[q.pos], es), ts, p, q.Advance(), PRIMARY)
  {
    hide Has;
    BracketJoin(ts, p.pos, PrintEntries(es));
  }

  lemma {:induction false} AtomJoin(ts: seq<Token>, p: Cursor)
    requires p.pos < |ts| && IsAtom(ts[p.pos].kind)
    ensures Parsed(Atom(ts[p.pos]), ts, p, p.Advance(), PRIMARY)
  {
    HasToken(ts, p.pos);
  }

  lemma {:induction false} AssignmentJoin(target: Expr, value: Expr, ts: seq<Token>, p: Cursor, q: Cursor, end: Cursor)
    requires q.pos < |ts| && ts[q.pos].kind == Equal && (target.Variable? || target.Get?)
    requires Parsed(target, ts, p, q, 0) && Parsed(value, ts, q.Advance(), end, 0)
    ensures var r := Assigned(target, ts[q.pos], value, end); r.Ok? && r.rest == end && Parsed(r.value, ts, p, end, 0)
  {
    hide Has;
    JoinAround(ts, p.pos, Print(target), Print(value));
    if target.Get? {
      assert target.tok == Token(Identifier, target.name);
      var e := SetField(ts[q.pos], target.obj, target.name, value);
      assert Print(e) == Print(target) + [ts[q.pos]] + Print(value);
    } else {
      AtomIsIdentifier(target);
    }
  }

  lemma {:induction false} AtomIsIdentifier(e: Expr)
    requires WellFormed(e) && e.Variable?
    ensures e.tok == Token(Identifier, e.name)
  {
  }

  // Where parsing stops

  lemma {:induction false} EndsDown(level: nat, k: Kind)
    requires level < UNARY && Ends(level + 2, k) && !IsOperator(level, k)
    ensures Ends(level + 1, k)
  {
    if OperatorLevel(k) == level {
      OperatorFacts(k);
    }
  }

  lemma {:induction false} EndsUnary(k: Kind)
    requires !ExtendsCall(k)
    ensures Ends(PREFIX, k)
  {
    hide IsOperator;
    OperatorLevelBound(k);
  }

  lemma {:induction false} EndsAll(k: Kind)
    requires Ends(1, k) && k != Equal
    ensures Ends(ASSIGNMENT, k)
  {
  }

  // The induction, one lemma for each function of the grammar

  lemma {:induction false} LevelSound(level: nat, ts: seq<Token>, p: Cursor)
    requires Good(ts, p) && level <= UNARY && Clean(p, Level(level, ts, p))
    requires AllowedIn(ts, p.pos, Level(level, ts, p).rest.pos)
    ensures var r := Level(level, ts, p);
            Parsed(r.value, ts, p, r.rest, level + 1) && Ends(level + 1, KindAt(ts, r.rest))
    decreases |ts| - p.pos, 40 - level
  {
    hide Parsed, LevelLoop, Level, UnaryExpr, Ends, AllowedIn;
    if level == UNARY {
      LastLevel(ts, p);
      UnarySound(ts, p);
    } else {
      LevelStart(level, ts, p);
      var r, end := Level(level + 1, ts, p), Level(level, ts, p).rest.pos;
      AllowedPart(ts, p.pos, end, p.pos, r.rest.pos);
      AllowedPart(ts, p.pos, end, r.rest.pos, end);
      LevelSound(level + 1, ts, p);
      Weaker(r.value, ts, p, r.rest, level + 1, level + 2);
      LoopSound(level, r.value, ts, p, r.rest);
    }
  }

  lemma {:induction false} LastLevel(ts: seq<Token>, p: Cursor)
    requires Good(ts, p)
    ensures Level(UNARY, ts, p) == UnaryExpr(ts, p)
  {
    hide UnaryExpr;
  }

  lemma {:induction false} Weaker(e: Expr, ts: seq<Token>, p: Cursor, q: Cursor, low: nat, high: nat)
    requires Parsed(e, ts, p, q, high) && low <= high
    ensures Parsed(e, ts, p, q, low)
  {
    hide Print, WellFormed, Has, Rank;
  }

  lemma {:induction false} LoopSound(level: nat, left: Expr, ts: seq<Token>, p0: Cursor, p: Cursor)
    requires Good(ts, p) && level < UNARY && Parsed(left, ts, p0, p, level + 1) && Ends(level + 2, KindAt(ts, p))
    requires Clean(p, LevelLoop(level, left, ts, p))
    requires AllowedIn(ts, p.pos, LevelLoop(level, left, ts, p).rest.pos)
    ensures var r := LevelLoop(level, left, ts, p);
            Parsed(r.value, ts, p0, r.rest, level + 1) && Ends(level + 1, KindAt(ts, r.rest))
    decreases |ts| - p.pos, 0
  {
    hide Parsed, LevelLoop, Level, Ends, IsOperator, AllowedIn;
    if IsOperator(level, KindAt(ts, p)) {
      LoopTakes(level, left, ts, p);
      var right, end := Level(level + 1, ts, p.Advance()), LevelLoop(level, left, ts, p).rest.pos;
      AllowedPart(ts, p.pos, end, p.pos + 1, right.rest.pos);
      AllowedPart(ts, p.pos, end, right.rest.pos, end);
      LevelSound(level + 1, ts, p.Advance());
      BinaryJoin(left, right.value, level, ts, p0, p, right.rest);
      LoopSound(level, Binary(left, ts[p.pos], right.value), ts, p0, right.rest);
    } else {
      LoopLeaves(level, left, ts, p);
      EndsDown(level, KindAt(ts, p));
    }
  }

  lemma {:induction false} UnarySound(ts: seq<Token>, p: Cursor)
    requires Good(ts, p) && Clean(p, UnaryExpr(ts, p)) && AllowedIn(ts, p.pos, UnaryExpr(ts, p).rest.pos)
    ensures var r := UnaryExpr(ts, p);
            Parsed(r.value, ts, p, r.rest, PREFIX) && Ends(PREFIX, KindAt(ts, r.rest))
    decreases |ts| - p.pos, 30
  {
    hide Parsed, UnaryExpr, CallExpr, NewRest, DeleteRest, ReceiveRest, Ends;
    UnaryStep(ts, p);
    var k := KindAt(ts, p);
    assert Allowed(ts[p.pos]);
    if k == Bang || k == Minus {
      var right := UnaryExpr(ts, p.Advance());
      UnarySound(ts, p.Advance());
      UnaryJoin(right.value, ts, p, right.rest);
    } else if k == Await {
      var inner := UnaryExpr(ts, p.Advance());
      UnarySound(ts, p.Advance());
      AwaitJoin(inner.value, ts, p, inner.rest);
    } else {
      CallSound(ts, p);
      var r := CallExpr(ts, p);
      Weaker(r.value, ts, p, r.rest, PREFIX, POSTFIX);
      EndsUnary(KindAt(ts, r.rest));
    }
  }

  lemma {:induction false} CallSound(ts: seq<Token>, p: Cursor)
    requires Good(ts, p) && Clean(p, CallExpr(ts, p)) && AllowedIn(ts, p.pos, CallExpr(ts, p).rest.pos)
    ensures var r := CallExpr(ts, p);
            Parsed(r.value, ts, p, r.rest, POSTFIX) && !ExtendsCall(KindAt(ts, r.rest))
    decreases |ts| - p.pos, 29
  {
    hide Parsed, CallExpr, CallLoop, Primary, ExtendsCall;
    CallStart(ts, p);
    PrimarySound(ts, p);
    var r := Primary(ts, p);
    Weaker(r.value, ts, p, r.rest, POSTFIX, PRIMARY);
    CallLoopSound(r.value, ts, p, r.rest);
  }

  lemma {:induction false} CallLoopSound(e: Expr, ts: seq<Token>, p0: Cursor, p: Cursor)
    requires Good(ts, p) && Parsed(e, ts, p0, p, POSTFIX)
    requires Clean(p, CallLoop(e, ts, p)) && AllowedIn(ts, p.pos, CallLoop(e, ts, p).rest.pos)
    ensures var r := CallLoop(e, ts, p);
            Parsed(r.value, ts, p0, r.rest, POSTFIX) && !ExtendsCall(KindAt(ts, r.rest))
    decreases |ts| - p.pos, 0
  {
    hide Parsed, CallLoop, Suffix;
    CallStep(e, ts, p);
    var k := KindAt(ts, p);
    if ExtendsCall(k) {
      var longer := Suffix(k, e, ts, p.Advance());
      SuffixSound(e, ts, p0, p);
      CallLoopSound(longer.value, ts, p0, longer.rest);
    }
  }

  lemma {:induction false} SuffixSound(e: Expr, ts: seq<Token>, p0: Cursor, p: Cursor)
    requires Good(ts, p) && Parsed(e, ts, p0, p, POSTFIX) && ExtendsCall(KindAt(ts, p))
    requires var r := Suffix(KindAt(ts, p), e, ts, p.Advance());
             Clean(p, r) && AllowedIn(ts, p.pos, r.rest.pos)
    ensures var r := Suffix(KindAt(ts, p), e, ts, p.Advance()); Parsed(r.value, ts, p0, r.rest, POSTFIX)
    decreases |ts| - p.pos, 0, 0
  {
    hide Parsed, ParsedItems, OptionalItems, Expression, Consume;
    assert Allowed(ts[p.pos]);
    if KindAt(ts, p) == LeftParen {
      var items := OptionalItems(RightParen, ts, p.Advance());
      ConsumedOne(ts, items.rest, RightParen);
      OptionalItemsSound(RightParen, ts, p.Advance());
      CallJoin(e, items.value, ts, p0, p, items.rest);
    } else {
      ConsumedOne(ts, p.Advance(), Identifier);
      GetJoin(e, ts, p0, p);
    }
  }

  lemma {:induction false} NothingParsed(ts: seq<Token>, p: Cursor)
    requires Good(ts, p)
    ensures ParsedItems([], ts, p, p) && ParsedEntries([], ts, p, p)
  {
    NothingPrinted([], []);
  }

  lemma {:induction false} OptionalItemsSound(close: Kind, ts: seq<Token>, p: Cursor)
    requires Good(ts, p) && Clean(p, OptionalItems(close, ts, p))
    requires AllowedIn(ts, p.pos, OptionalItems(close, ts, p).rest.pos)
    ensures var r := OptionalItems(close, ts, p); ParsedItems(r.value, ts, p, r.rest)
    decreases |ts| - p.pos, 62
  {
    hide Items, ParsedItems, AllowedIn;
    NothingParsed(ts, p);
    if KindAt(ts, p) != close {
      var es := ItemsSound([], ts, p);
      MoveNothing(es);
    }
  }

  lemma {:induction false} CommaAllowed(ts: seq<Token>, p: Cursor, end: Cursor)
    requires Good(ts, p) && KindAt(ts, p) == Comma && p.pos < end.pos && AllowedIn(ts, p.pos, end.pos)
    ensures ts[p.pos] == COMMA && AllowedIn(ts, p.pos + 1, end.pos)
  {
  }

  lemma {:induction false} MoveOne<T>(before: seq<T>, x: T, rest: seq<T>)
    ensures before + [x] + rest == before + ([x] + rest)
  {
  }

  lemma {:induction false} ItemsSound(before: seq<Expr>, ts: seq<Token>, p: Cursor) returns (es: seq<Expr>)
    requires Good(ts, p) && Clean(p, Items(before, ts, p)) && AllowedIn(ts, p.pos, Items(before, ts, p).rest.pos)
    ensures var r := Items(before, ts, p);
            es != [] && r.value == before + es && ParsedItems(es, ts, p, r.rest)
    decreases |ts| - p.pos, 61
  {
    hide Parsed, ParsedItems, Items, Expression, AllowedIn, Ends;
    ItemsStep(before, ts, p);
    var first, end := Expression(ts, p), Items(before, ts, p).rest;
    AllowedPart(ts, p.pos, end.pos, p.pos, first.rest.pos);
    ExpressionSound(ts, p);
    if KindAt(ts, first.rest) == Comma {
      AllowedPart(ts, p.pos, end.pos, first.rest.pos, end.pos);
      CommaAllowed(ts, first.rest, end);
      var rest := ItemsSound(before + [first.value], ts, first.rest.Advance());
      es := [first.value] + rest;
      MoveOne(before, first.value, rest);
      ItemsJoin(first.value, rest, ts, p, first.rest, end);
    } else {
      es := [first.value];
      ItemsJoin(first.value, [], ts, p, first.rest, first.rest);
      assert [first.value] + [] == es;
    }
  }

  lemma {:induction false} EntrySound(ts: seq<Token>, p: Cursor)
    requires Good(ts, p) && Clean(p, EntryAt(ts, p)) && AllowedIn(ts, p.pos, EntryAt(ts, p).rest.pos)
    ensures var r := EntryAt(ts, p); ParsedEntry(r.value, ts, p, r.rest) && r.rest.pos > p.pos
    decreases |ts| - p.pos, 60
  {
    hide Parsed, ParsedEntry, Expression, Consume;
    var key := Expression(ts, p);
    ConsumedOne(ts, key.rest, Colon);
    ExpressionSound(ts, p);
    var value := Expression(ts, key.rest.Advance());
    ExpressionSound(ts, key.rest.Advance());
    assert Allowed(ts[key.rest.pos]);
    EntryJoin(key.value, value.value, ts, p, key.rest, value.rest);
  }

  lemma {:induction false} EntriesSound(before: seq<Entry>, ts: seq<Token>, p: Cursor) returns (es: seq<Entry>)
    requires Good(ts, p) && Clean(p, Entries(before, ts, p)) && AllowedIn(ts, p.pos, Entries(before, ts, p).rest.pos)
    ensures var r := Entries(before, ts, p);
            es != [] && r.value == before + es && ParsedEntries(es, ts, p, r.rest)
    decreases |ts| - p.pos, 61
  {
    hide ParsedEntry, ParsedEntries, Entries, EntryAt, AllowedIn;
    EntriesStep(before, ts, p);
    var first, end := EntryAt(ts, p), Entries(before, ts, p).rest;
    AllowedPart(ts, p.pos, end.pos, p.pos, first.rest.pos);
    EntrySound(ts, p);
    if KindAt(ts, first.rest) == Comma {
      AllowedPart(ts, p.pos, end.pos, first.rest.pos, end.pos);
      CommaAllowed(ts, first.rest, end);
      var rest := EntriesSound(before + [first.value], ts, first.rest.Advance());
      es := [first.value] + rest;
      MoveOne(before, first.value, rest);
      EntriesJoin(first.value, rest, ts, p, first.rest, end);
    } else {
      es := [first.value];
      EntriesJoin(first.value, [], ts, p, first.rest, first.rest);
      assert [first.value] + [] == es;
    }
  }

  lemma {:induction false} OptionalEntriesSound(ts: seq<Token>, p: Cursor)
    requires Good(ts, p) && Clean(p, OptionalEntries(ts, p))
    requires AllowedIn(ts, p.pos, OptionalEntries(ts, p).rest.pos)
    ensures var r := OptionalEntries(ts, p); ParsedEntries(r.value, ts, p, r.rest)
    decreases |ts| - p.pos, 62
  {
    hide Entries, ParsedEntries, AllowedIn;
    NothingParsed(ts, p);
    if KindAt(ts, p) != RightBrace {
      var es := EntriesSound([], ts, p);
      MoveNothing(es);
    }
  }

  lemma {:induction false} PrimarySound(ts: seq<Token>, p: Cursor)
    requires Good(ts, p) && Clean(p, Primary(ts, p)) && AllowedIn(ts, p.pos, Primary(ts, p).rest.pos)
    ensures var r := Primary(ts, p); Parsed(r.value, ts, p, r.rest, PRIMARY)
    decreases |ts| - p.pos, 28
  {
    hide Parsed, Primary, GroupingRest, ListRest, DictionaryRest, LambdaExpr, IsAtom, Atom, AllowedIn;
    PrimaryStep(ts, p);
    var k := KindAt(ts, p);
    if IsAtom(k) {
      AtomJoin(ts, p);
    } else if k == LeftParen {
      GroupingSound(ts, p);
    } else if k == LeftBracket {
      ListSound(ts, p);
    } else if k == LeftBrace {
      DictionarySound(ts, p);
    }
  }

  lemma {:induction false} GroupingSound(ts: seq<Token>, p: Cursor)
    requires Good(ts, p) && KindAt(ts, p) == LeftParen
    requires Clean(p, GroupingRest(ts, p.Advance())) && AllowedIn(ts, p.pos, GroupingRest(ts, p.Advance()).rest.pos)
    ensures var r := GroupingRest(ts, p.Advance()); Parsed(r.value, ts, p, r.rest, PRIMARY)
    decreases |ts| - p.pos, 27
  {
    hide Parsed, Expression, Consume, TokenOf, Ends;
    var inner := Expression(ts, p.Advance());
    ConsumedOne(ts, inner.rest, RightParen);
    ExpressionSound(ts, p.Advance());
    assert Allowed(ts[p.pos]) && Allowed(ts[inner.rest.pos]);
    GroupingJoin(inner.value, ts, p, inner.rest);
  }

  lemma {:induction false} ListSound(ts: seq<Token>, p: Cursor)
    requires Good(ts, p) && KindAt(ts, p) == LeftBracket
    requires Clean(p, ListRest(ts, p.Advance())) && AllowedIn(ts, p.pos, ListRest(ts, p.Advance()).rest.pos)
    ensures var r := ListRest(ts, p.Advance()); Parsed(r.value, ts, p, r.rest, PRIMARY)
    decreases |ts| - p.pos, 27
  {
    hide Parsed, ParsedItems, OptionalItems, Consume;
    var items := OptionalItems(RightBracket, ts, p.Advance());
    ConsumedOne(ts, items.rest, RightBracket);
    OptionalItemsSound(RightBracket, ts, p.Advance());
    assert Allowed(ts[p.pos]);
    ListJoin(items.value, ts, p, items.rest);
  }

  lemma {:induction false} DictionarySound(ts: seq<Token>, p: Cursor)
    requires Good(ts, p) && KindAt(ts, p) == LeftBrace
    requires Clean(p, DictionaryRest(ts, p.Advance()))
    requires AllowedIn(ts, p.pos, DictionaryRest(ts, p.Advance()).rest.pos)
    ensures var r := DictionaryRest(ts, p.Advance()); Parsed(r.value, ts, p, r.rest, PRIMARY)
    decreases |ts| - p.pos, 27
  {
    hide Parsed, ParsedEntries, OptionalEntries, Consume;
    var entries := OptionalEntries(ts, p.Advance());
    ConsumedOne(ts, entries.rest, RightBrace);
    OptionalEntriesSound(ts, p.Advance());
    assert Allowed(ts[p.pos]);
    DictionaryJoin(entries.value, ts, p, entries.rest);
  }

  lemma {:induction false} ExpressionSound(ts: seq<Token>, p: Cursor)
    requires Good(ts, p) && Clean(p, Expression(ts, p)) && AllowedIn(ts, p.pos, Expression(ts, p).rest.pos)
    ensures var r := Expression(ts, p);
            Parsed(r.value, ts, p, r.rest, 0) && Ends(ASSIGNMENT, KindAt(ts, r.rest))
    decreases |ts| - p.pos, 50
  {
    hide Parsed, Level, Expression, Ends;
    ExpressionStep(ts, p);
    var target := Level(0, ts, p);
    LevelSound(0, ts, p);
    Weaker(target.value, ts, p, target.rest, 0, 1);
    if KindAt(ts, target.rest) == Equal {
      var value := Expression(ts, target.rest.Advance());
      ExpressionSound(ts, target.rest.Advance());
      AssignmentJoin(target.value, value.value, ts, p, target.rest, value.rest);
    } else {
      EndsAll(KindAt(ts, target.rest));
    }
  }

  /** The expression parser accepts exactly the printed trees: over tokens with their usual spelling it returns e
      without a report and stops at q if and only if the printed tokens of the well-formed tree e stand between p and q
      and the token at q cannot extend e. */
  lemma {:induction false} ExactlyPrinted(e: Expr, ts: seq<Token>, p: Cursor, q: Cursor)
    requires Good(ts, p) && p.pos <= q.pos < |ts| && AllowedIn(ts, p.pos, q.pos)
    ensures Expression(ts, p) == Ok(e, q) && q.reports == p.reports
       <==> Printed(e, ts, p) && q == After(p, Print(e)) && Ends(ASSIGNMENT, KindAt(ts, q))
  {
    hide Expression, Print, WellFormed, Has, Ends;
    if Expression(ts, p) == Ok(e, q) && q.reports == p.reports {
      ExpressionSound(ts, p);
    }
    if Printed(e, ts, p) && q == After(p, Print(e)) && Ends(ASSIGNMENT, KindAt(ts, q)) {
      ExpressionReturns(e, ts, p);
    }
  }
}
