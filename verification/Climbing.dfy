/** The second expression parser of src/parser/parser.cpp, which climbs by operator precedence. */
module Climbing {
  // parseBinaryExpression, and its agreement with the ladder of one method per precedence.

  import opened Tokens
  import opened Grammar

  /** getOperatorPrecedence; the shift operators go by the names the token enumeration gives them. */
  function Precedence(k: Kind): nat {
    match k
    case Equal => 1
    case Or => 2
    case And => 3
    case EqualEqual => 4
    case BangEqual => 4
    case Less => 5
    case LessEqual => 5
    case Greater => 5
    case GreaterEqual => 5
    case BitwiseOr => 6
    case BitwiseXor => 7
    case BitwiseAnd => 8
    case LeftShift => 9
    case RightShift => 9
    case Plus => 10
    case Minus => 10
    case Star => 11
    case Slash => 11
    case Percent => 11
    case Power => 12
    case _ => 0
  }

  predicate RightAssociative(k: Kind) {
    k == Equal || k == Power
  }

  function Climb(min: nat, ts: seq<Token>, p: Cursor): (r: Result<Expr>)
    requires Good(ts, p)
    ensures Reaches(ts, p, r.rest) && (r.Ok? ==> r.rest.pos > p.pos)
    decreases |ts| - p.pos, 1
  {
    var (left, q) :- UnaryExpr(ts, p);
    ClimbLoop(min, left, ts, q)
  }

  function ClimbLoop(min: nat, left: Expr, ts: seq<Token>, p: Cursor): (r: Result<Expr>)
    requires Good(ts, p)
    ensures Reaches(ts, p, r.rest)
    decreases |ts| - p.pos, 0
  {
    var k := KindAt(ts, p);
    if k == Eof || Precedence(k) < min then Ok(left, p)
    else
      var next := if RightAssociative(k) then Precedence(k) else Precedence(k) + 1;
      var (right, q) :- Climb(next, ts, p.Advance());
      ClimbLoop(min, Binary(left, ts[p.pos], right), ts, q)
  }

  /** The precedence at which climbing corresponds to a level of the ladder. */
  function MinPrecedence(level: nat): nat
    requires level <= UNARY
  {
    match level
    case 0 => 2
    case 1 => 3
    case 2 => 4
    case 3 => 5
    case 4 => 10
    case 5 => 11
    case _ => 13
  }

  function Bind(r: Result<Expr>, min: nat, ts: seq<Token>): Result<Expr>
    requires Good(ts, r.rest)
  {
    if r.Ok? then ClimbLoop(min, r.value, ts, r.rest) else r
  }

  /** Climbing at a low precedence is climbing at a higher one first and going on from there. */
  lemma {:induction false} ClimbInTwo(min: nat, higher: nat, left: Expr, ts: seq<Token>, p: Cursor)
    requires Good(ts, p) && min <= higher
    ensures ClimbLoop(min, left, ts, p) == Bind(ClimbLoop(higher, left, ts, p), min, ts)
    decreases |ts| - p.pos
  {
    hide Climb;
    var k := KindAt(ts, p);
    if k != Eof && Precedence(k) >= higher {
      var next := if RightAssociative(k) then Precedence(k) else Precedence(k) + 1;
      var right := Climb(next, ts, p.Advance());
      if right.Ok? {
        ClimbInTwo(min, higher, Binary(left, ts[p.pos], right.value), ts, right.rest);
      }
    }
  }

  /** Climbing stops only at a token that binds less. */
  lemma {:induction false} ClimbStops(min: nat, left: Expr, ts: seq<Token>, p: Cursor)
    requires Good(ts, p) && min > 0
    ensures var r := ClimbLoop(min, left, ts, p); r.Ok? ==> Precedence(KindAt(ts, r.rest)) < min
    decreases |ts| - p.pos
  {
    hide Climb;
    var k := KindAt(ts, p);
    if k != Eof && Precedence(k) >= min {
      var next := if RightAssociative(k) then Precedence(k) else Precedence(k) + 1;
      var right := Climb(next, ts, p.Advance());
      if right.Ok? {
        ClimbStops(min, Binary(left, ts[p.pos], right.value), ts, right.rest);
      }
    }
  }

  /** The two parsers throw alike, and return alike when the ladder ends at a token that binds less than `min`. */
  ghost predicate Agree(ladder: Result<Expr>, climbing: Result<Expr>, min: nat, ts: seq<Token>)
    requires Good(ts, ladder.rest)
  {
    ladder.Thrown? || Precedence(KindAt(ts, ladder.rest)) < min ==> climbing == ladder
  }

  lemma {:induction false} OperatorPrecedence(level: nat, k: Kind)
    requires level < UNARY && IsOperator(level, k)
    ensures Precedence(k) == MinPrecedence(level) && !RightAssociative(k) && k != Eof
  {
  }

  lemma {:induction false} ClimbUnfold(min: nat, ts: seq<Token>, p: Cursor)
    requires Good(ts, p)
    ensures Climb(min, ts, p) == Bind(UnaryExpr(ts, p), min, ts)
  {
    hide UnaryExpr, ClimbLoop;
  }

  lemma {:induction false} LevelAgrees(level: nat, min: nat, ts: seq<Token>, p: Cursor)
    requires Good(ts, p) && 0 < min && level <= UNARY
    requires (if level == 0 then 1 else MinPrecedence(level - 1)) < min <= MinPrecedence(level)
    ensures Agree(Level(level, ts, p), Climb(min, ts, p), min, ts)
    decreases |ts| - p.pos, 20 - level
  {
    hide UnaryExpr, Precedence, IsOperator, RightAssociative, Climb;
    ClimbUnfold(min, ts, p);
    if level < UNARY {
      var higher := MinPrecedence(level) + 1;
      ClimbUnfold(higher, ts, p);
      LevelAgrees(level + 1, higher, ts, p);
      var operand := Level(level + 1, ts, p);
      var first := UnaryExpr(ts, p);
      if first.Ok? {
        ClimbInTwo(min, higher, first.value, ts, first.rest);
      }
      if operand.Ok? {
        var k := KindAt(ts, operand.rest);
        if IsOperator(level, k) {
          OperatorPrecedence(level, k);
        }
        LoopAgrees(level, min, operand.value, ts, operand.rest);
      }
    }
  }

  lemma {:induction false} LoopAgrees(level: nat, min: nat, left: Expr, ts: seq<Token>, p: Cursor)
    requires Good(ts, p) && level < UNARY && 0 < min <= MinPrecedence(level)
    requires (if level == 0 then 1 else MinPrecedence(level - 1)) < min
    ensures Agree(LevelLoop(level, left, ts, p), ClimbLoop(min, left, ts, p), min, ts)
    decreases |ts| - p.pos, 0
  {
    hide Climb, Level, Precedence, IsOperator, RightAssociative;
    var k := KindAt(ts, p);
    if IsOperator(level, k) {
      OperatorPrecedence(level, k);
      var higher := MinPrecedence(level) + 1;
      LevelAgrees(level + 1, higher, ts, p.Advance());
      var right := Level(level + 1, ts, p.Advance());
      if right.Ok? {
        if IsOperator(level, KindAt(ts, right.rest)) {
          OperatorPrecedence(level, KindAt(ts, right.rest));
        }
        LoopAgrees(level, min, Binary(left, ts[p.pos], right.value), ts, right.rest);
      }
    }
  }

  /** On every token list and at every position, climbing at 2, 3, 4, 5, 10 and 11 does exactly what orExpr, andExpr,
      equality, comparison, term and factor do -- same tree, same end, same reports, same exception -- if and only if
      the ladder method throws or ends at a token that does not bind at least as tightly. */
  lemma {:induction false} ClimbingEqualsLadder(level: nat, ts: seq<Token>, p: Cursor)
    requires Good(ts, p) && level < UNARY
    ensures var ladder := Level(level, ts, p);
            Climb(MinPrecedence(level), ts, p) == ladder <==>
              ladder.Thrown? || Precedence(KindAt(ts, ladder.rest)) < MinPrecedence(level)
  {
    LevelAgrees(level, MinPrecedence(level), ts, p);
    var first := UnaryExpr(ts, p);
    if first.Ok? {
      ClimbStops(MinPrecedence(level), first.value, ts, first.rest);
    }
  }

  /** The operators that climbing knows and the ladder does not. */
  predicate OnlyClimbed(k: Kind) {
    k == BitwiseOr || k == BitwiseXor || k == BitwiseAnd || k == LeftShift || k == RightShift || k == Power
  }

  /** The ladder ends at a token that is no operator of its level or of a deeper one. */
  lemma {:induction false} LadderStops(level: nat, deeper: nat, ts: seq<Token>, p: Cursor)
    requires Good(ts, p) && level <= deeper < UNARY
    ensures var r := Level(level, ts, p); r.Ok? ==> !IsOperator(deeper, KindAt(ts, r.rest))
    decreases |ts| - p.pos, 20 - level
  {
    var operand := Level(level + 1, ts, p);
    if operand.Ok? {
      if level < deeper {
        LadderStops(level + 1, deeper, ts, p);
      }
      LoopStops(level, deeper, operand.value, ts, operand.rest);
    }
  }

  lemma {:induction false} LoopStops(level: nat, deeper: nat, left: Expr, ts: seq<Token>, p: Cursor)
    requires Good(ts, p) && level <= deeper < UNARY
    requires level < deeper ==> !IsOperator(deeper, KindAt(ts, p))
    ensures var r := LevelLoop(level, left, ts, p); r.Ok? ==> !IsOperator(deeper, KindAt(ts, r.rest))
    decreases |ts| - p.pos, 0
  {
    if IsOperator(level, KindAt(ts, p)) {
      var right := Level(level + 1, ts, p.Advance());
      if right.Ok? {
        if level < deeper {
          LadderStops(level + 1, deeper, ts, p.Advance());
        }
        LoopStops(level, deeper, Binary(left, ts[p.pos], right.value), ts, right.rest);
      }
    }
  }

  /** So on token lists whose operators are ladder operators the two parsers are the same parser. */
  lemma {:induction false} SameOnLadderTokens(level: nat, ts: seq<Token>, p: Cursor)
    requires Good(ts, p) && level < UNARY
    requires forall i | 0 <= i < |ts| :: !OnlyClimbed(ts[i].kind)
    ensures Climb(MinPrecedence(level), ts, p) == Level(level, ts, p)
  {
    ClimbingEqualsLadder(level, ts, p);
    var r := Level(level, ts, p);
    forall deeper | level <= deeper < UNARY
      ensures r.Ok? ==> !IsOperator(deeper, KindAt(ts, r.rest))
    {
      LadderStops(level, deeper, ts, p);
    }
    if r.Ok? {
      BindsLess(level, KindAt(ts, r.rest));
    }
  }

  function LevelOf(k: Kind): nat {
    match Precedence(k)
    case 2 => 0
    case 3 => 1
    case 4 => 2
    case 5 => 3
    case 10 => 4
    case _ => 5
  }

  lemma {:induction false} LevelOfOperator(k: Kind)
    requires Precedence(k) >= 2 && !OnlyClimbed(k)
    ensures IsOperator(LevelOf(k), k) && MinPrecedence(LevelOf(k)) == Precedence(k)
  {
  }

  lemma {:induction false} BindsLess(level: nat, k: Kind)
    requires level < UNARY && !OnlyClimbed(k)
    requires forall deeper | level <= deeper < UNARY :: !IsOperator(deeper, k)
    ensures Precedence(k) < MinPrecedence(level)
  {
    if Precedence(k) >= 2 {
      LevelOfOperator(k);
      hide Precedence, IsOperator, OnlyClimbed;
      assert LevelOf(k) < level;
    }
  }
}
