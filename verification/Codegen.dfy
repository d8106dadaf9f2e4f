/** The expression visitors of src/codegen/ir_generator.cpp for 64-bit integers and booleans. */
module Codegen {
  // Each visitor leaves its value in one shared field, lastValue; the code it emits is proved to compute what the
  // expression means. A name is a slot in memory, an operand a constant or an earlier instruction. The builder folds an
  // instruction whose operands are all constants, or never, as a switch says; the theorems hold for both. Where C++ or
  // LLVM leaves the result undefined, an expression has no meaning, and the block gets stuck.

  import opened Tokens
  import opened Grammar
  import opened Ir
  import opened Characters
  import opened Wrappers

  // What an expression means

  datatype Value = IntV(n: int) | BoolV(b: bool)

  type Env = map<string, Value>

  const WORD: nat := 63

  function Word(n: int): Value {
    IntV(Wrap(n, WORD))
  }

  predicate IsTrue(v: Value) {
    match v
    case IntV(n) => n != 0
    case BoolV(b) => b
  }

  /** std::stoll on a text that begins with a digit: the leading digits count, and a number out of range throws. */
  function Stoll(text: string): Option<int> {
    if text == [] || !IsDigit(text[0]) then None
    else
      var n := DigitsValue(text, 0);
      if InRange(n, WORD) then Some(n) else None
  }

  function DigitsValue(text: string, acc: nat): nat {
    if text == [] || !IsDigit(text[0]) then acc
    else DigitsValue(text[1..], 10 * acc + (text[0] - '0') as int)
  }

  function UnaryMeaning(k: Kind, v: Value): Option<Value> {
    if k == Bang then Some(BoolV(!IsTrue(v)))
    else if k == Minus && v.IntV? then Some(Word(-v.n))
    else if IsComplement(k) then Some(if v.IntV? then IntV(-v.n - 1) else BoolV(!v.b))
    else None
  }

  /** None for operands of the wrong types, and where the operation is undefined in the target language. */
  function BinaryMeaning(k: Kind, a: Value, b: Value): Option<Value> {
    if k == And then Some(BoolV(IsTrue(a) && IsTrue(b)))
    else if k == Or then Some(BoolV(IsTrue(a) || IsTrue(b)))
    else if a.IntV? && b.IntV? then IntMeaning(k, a.n, b.n)
    else if a.BoolV? && b.BoolV? then BoolMeaning(k, a.b, b.b)
    else None
  }

  function IntMeaning(k: Kind, a: int, b: int): Option<Value> {
    if k == Plus then Some(Word(a + b))
    else if k == Minus then Some(Word(a - b))
    else if k == Star then Some(Word(a * b))
    else if k == Slash then if Divides(a, b, WORD) then Some(Word(TruncDiv(a, b))) else None
    else if k == Percent then if Divides(a, b, WORD) then Some(Word(a - b * TruncDiv(a, b))) else None
    else if k == EqualEqual then Some(BoolV(a == b))
    else if k == BangEqual then Some(BoolV(a != b))
    else if k == Less then Some(BoolV(a < b))
    else if k == LessEqual then Some(BoolV(a <= b))
    else if k == Greater then Some(BoolV(a > b))
    else if k == GreaterEqual then Some(BoolV(a >= b))
    else if k == BitwiseAnd then Some(Word(Bitwise(AndGate, a, b, WORD)))
    else if k == BitwiseOr then Some(Word(Bitwise(OrGate, a, b, WORD)))
    else if k == BitwiseXor then Some(Word(Bitwise(XorGate, a, b, WORD)))
    else if k == LeftShift then if 0 <= b <= WORD then Some(Word(a * Pow2(b))) else None
    else if k == RightShift then if 0 <= b <= WORD then Some(Word(a / Pow2(b))) else None
    else None
  }

  function BoolMeaning(k: Kind, a: bool, b: bool): Option<Value> {
    if k == EqualEqual then Some(BoolV(a == b))
    else if k == BangEqual then Some(BoolV(a != b))
    else if k == BitwiseAnd then Some(BoolV(a && b))
    else if k == BitwiseOr then Some(BoolV(a || b))
    else if k == BitwiseXor then Some(BoolV(a != b))
    else None
  }

  predicate IsComplement(k: Kind) {
    k == Other("~")
  }

  predicate Steps(k: Kind) {
    k == Other("++") || k == Other("--")
  }

  function Stepped(k: Kind, n: int): Value {
    Word(if k == Other("++") then n + 1 else n - 1)
  }

  /** The value and the variables afterwards. Operands are evaluated from left to right, both operands of `and` and `or`
      always, and `++` and `--` give the new value. */
  function Meaning(e: Expr, env: Env): Option<(Value, Env)> {
    match e
    case Literal(_, text, Integer) =>
      if Stoll(text).Some? then Some((IntV(Stoll(text).value), env)) else None
    case Literal(_, text, Boolean) => Some((BoolV(text == "true"), env))
    case Variable(_, name) => if name in env then Some((env[name], env)) else None
    case Grouping(_, inner) => Meaning(inner, env)
    case Unary(op, right) =>
      if Steps(op.kind) then
        if right.Variable? && right.name in env && env[right.name].IntV? then
          var v := Stepped(op.kind, env[right.name].n);
          Some((v, env[right.name := v]))
        else None
      else
        var r := Meaning(right, env);
        if r.Some? && UnaryMeaning(op.kind, r.value.0).Some? then
          Some((UnaryMeaning(op.kind, r.value.0).value, r.value.1))
        else None
    case Binary(left, op, right) =>
      var l := Meaning(left, env);
      if l.None? then None
      else
        var r := Meaning(right, l.value.1);
        if r.Some? && BinaryMeaning(op.kind, l.value.0, r.value.0).Some? then
          Some((BinaryMeaning(op.kind, l.value.0, r.value.0).value, r.value.1))
        else None
    case _ => None
  }

  // What is emitted

  type Slots = map<string, Type>

  datatype Emitted = Emitted(code: seq<Instr>, value: Option<Operand>)

  /** IRBuilder's Create functions. When it folds, an instruction on constants is computed instead of emitted. */
  function Create(fold: bool, code: seq<Instr>, op: Opcode, a: Operand, b: Operand): Emitted {
    if fold && !a.Reg? && !b.Reg? then Emitted(code, Some(Folded(op, a, b)))
    else Emitted(code + [Op(op, a, b)], Some(Reg(|code|, ResultType(op, a))))
  }

  function Folded(op: Opcode, a: Operand, b: Operand): Operand {
    if a.Constant? && b.Constant? && Compute(op, a.v, b.v).Some? then Constant(Compute(op, a.v, b.v).value)
    else Poison(ResultType(op, a))
  }

  function ConstantInt(ty: Type, n: int): Operand {
    Constant(Val(ty, Wrap(n, Bits(ty))))
  }

  function CreateNot(fold: bool, code: seq<Instr>, x: Operand): Emitted {
    Create(fold, code, OpXor, x, ConstantInt(TypeOf(x), -1))
  }

  function CreateNeg(fold: bool, code: seq<Instr>, x: Operand): Emitted {
    Create(fold, code, OpSub, ConstantInt(TypeOf(x), 0), x)
  }

  function ToBool(fold: bool, code: seq<Instr>, x: Operand): (r: Emitted)
    ensures r.value.Some?
  {
    Create(fold, code, CmpNe, x, ConstantInt(TypeOf(x), 0))
  }

  function GenUnary(k: Kind, right: Expr, x: Operand, slots: Slots, fold: bool, code: seq<Instr>): Emitted {
    if k == Minus then CreateNeg(fold, code, x)
    else if k == Bang then GenNot(x, fold, code)
    else if IsComplement(k) then CreateNot(fold, code, x)
    else if Steps(k) && right.Variable? && right.name in slots then GenStep(k, right.name, TypeOf(x), fold, code)
    else Emitted(code, None)
  }

  function GenNot(x: Operand, fold: bool, code: seq<Instr>): Emitted {
    if TypeOf(x) == I1 then CreateNot(fold, code, x)
    else var b := ToBool(fold, code, x); CreateNot(fold, b.code, b.value.value)
  }

  /** `++` and `--` on a variable. */
  function GenStep(k: Kind, name: string, ty: Type, fold: bool, code: seq<Instr>): Emitted {
    var current := Reg(|code|, ty);
    var op := if k == Other("++") then OpAdd else OpSub;
    var next := Create(fold, code + [Load(name, ty)], op, current, ConstantInt(ty, 1));
    if next.value.Some? then Emitted(next.code + [Store(name, next.value.value)], next.value) else next
  }

  function OpcodeOf(k: Kind): Option<Opcode> {
    if k == Plus then Some(OpAdd)
    else if k == Minus then Some(OpSub)
    else if k == Star then Some(OpMul)
    else if k == Slash then Some(OpSDiv)
    else if k == Percent then Some(OpSRem)
    else if k == EqualEqual then Some(CmpEq)
    else if k == BangEqual then Some(CmpNe)
    else if k == Less then Some(CmpSlt)
    else if k == LessEqual then Some(CmpSle)
    else if k == Greater then Some(CmpSgt)
    else if k == GreaterEqual then Some(CmpSge)
    else if k == BitwiseAnd then Some(OpAnd)
    else if k == BitwiseOr then Some(OpOr)
    else if k == BitwiseXor then Some(OpXor)
    else if k == LeftShift then Some(OpShl)
    else if k == RightShift then Some(OpAShr)
    else None
  }

  function GenBinary(k: Kind, a: Operand, b: Operand, fold: bool, code: seq<Instr>): Emitted {
    if k == And || k == Or then GenLogic(if k == And then OpAnd else OpOr, a, b, fold, code)
    else if OpcodeOf(k).Some? then Create(fold, code, OpcodeOf(k).value, a, b)
    else Emitted(code, None)
  }

  function GenLogic(op: Opcode, a: Operand, b: Operand, fold: bool, code: seq<Instr>): Emitted {
    if TypeOf(a) == I1 && TypeOf(b) == I1 then Create(fold, code, op, a, b)
    else
      var l := ToBool(fold, code, a);
      var r := ToBool(fold, l.code, b);
      Create(fold, r.code, op, l.value.value, r.value.value)
  }

  /** The code after visiting e, and lastValue; None is the null pointer. An undeclared variable is an i32 zero. */
  function Gen(e: Expr, slots: Slots, fold: bool, code: seq<Instr>): Emitted {
    match e
    case Literal(_, text, Integer) =>
      Emitted(code, if Stoll(text).Some? then Some(Constant(Val(I64, Stoll(text).value))) else None)
    case Literal(_, text, Boolean) => Emitted(code, Some(Constant(Truth(text == "true"))))
    case Variable(_, name) =>
      if name in slots then Emitted(code + [Load(name, slots[name])], Some(Reg(|code|, slots[name])))
      else Emitted(code, Some(Constant(Val(I32, 0))))
    case Grouping(_, inner) => Gen(inner, slots, fold, code)
    case Unary(op, right) =>
      var x := Gen(right, slots, fold, code);
      if x.value.None? then x else GenUnary(op.kind, right, x.value.value, slots, fold, x.code)
    case Binary(left, op, right) =>
      var l := Gen(left, slots, fold, code);
      if l.value.None? then l
      else
        var r := Gen(right, slots, fold, l.code);
        if r.value.None? then r else GenBinary(op.kind, l.value.value, r.value.value, fold, r.code)
    case _ => Emitted(code, None)
  }

  // The shape of the code

  /** The list has only grown, and every operand is a constant or an earlier instruction. */
  ghost predicate Extends(r: Emitted, code: seq<Instr>) {
    code <= r.code && WellFormed(r.code) && (r.value.Some? ==> Earlier(r.value.value, |r.code|))
  }

  lemma {:induction false} CreateShape(fold: bool, code: seq<Instr>, op: Opcode, a: Operand, b: Operand)
    requires WellFormed(code) && Earlier(a, |code|) && Earlier(b, |code|)
    ensures Extends(Create(fold, code, op, a, b), code)
  {
  }

  lemma {:induction false} LogicShape(op: Opcode, a: Operand, b: Operand, fold: bool, code: seq<Instr>)
    requires WellFormed(code) && Earlier(a, |code|) && Earlier(b, |code|)
    ensures Extends(GenLogic(op, a, b, fold, code), code)
  {
    hide Create, WellFormed, ConstantInt;
    if TypeOf(a) == I1 && TypeOf(b) == I1 {
      CreateShape(fold, code, op, a, b);
    } else {
      var l := ToBool(fold, code, a);
      ToBoolShape(fold, code, a);
      var r := ToBool(fold, l.code, b);
      ToBoolShape(fold, l.code, b);
      CreateShape(fold, r.code, op, l.value.value, r.value.value);
    }
  }

  lemma {:induction false} ToBoolShape(fold: bool, code: seq<Instr>, x: Operand)
    requires WellFormed(code) && Earlier(x, |code|)
    ensures Extends(ToBool(fold, code, x), code)
  {
    CreateShape(fold, code, CmpNe, x, ConstantInt(TypeOf(x), 0));
  }

  lemma {:induction false} StepShape(k: Kind, name: string, ty: Type, fold: bool, code: seq<Instr>)
    requires WellFormed(code)
    ensures Extends(GenStep(k, name, ty, fold, code), code)
  {
    hide Create;
    var code1 := code + [Load(name, ty)];
    var op := if k == Other("++") then OpAdd else OpSub;
    CreateShape(fold, code1, op, Reg(|code|, ty), ConstantInt(ty, 1));
  }

  lemma {:induction false} UnaryShape(k: Kind, right: Expr, x: Operand, slots: Slots, fold: bool, code: seq<Instr>)
    requires WellFormed(code) && Earlier(x, |code|)
    ensures Extends(GenUnary(k, right, x, slots, fold, code), code)
  {
    hide Create, WellFormed, GenStep, ConstantInt;
    if k == Minus {
      ConstantEarlier(TypeOf(x), 0, |code|);
      CreateShape(fold, code, OpSub, ConstantInt(TypeOf(x), 0), x);
    } else if k == Bang && TypeOf(x) != I1 {
      var b := ToBool(fold, code, x);
      ToBoolShape(fold, code, x);
      NotShape(fold, b.code, b.value.value);
    } else {
      NotShape(fold, code, x);
      if right.Variable? {
        StepShape(k, right.name, TypeOf(x), fold, code);
      }
    }
  }

  lemma {:induction false} ConstantEarlier(ty: Type, c: int, n: nat)
    ensures Earlier(ConstantInt(ty, c), n)
  {
  }

  lemma {:induction false} NotShape(fold: bool, code: seq<Instr>, x: Operand)
    requires WellFormed(code) && Earlier(x, |code|)
    ensures Extends(CreateNot(fold, code, x), code)
  {
    CreateShape(fold, code, OpXor, x, ConstantInt(TypeOf(x), -1));
  }

  /** Visiting any expression, well typed or not, only appends, and never refers to an instruction yet to come. */
  lemma {:induction false} GenShape(e: Expr, slots: Slots, fold: bool, code: seq<Instr>)
    requires WellFormed(code)
    ensures Extends(Gen(e, slots, fold, code), code)
  {
    hide WellFormed, GenUnary, GenLogic, Create, Stoll;
    match e
    case Variable(_, name) =>
      if name in slots {
        LoadShape(slots, name, code);
      }
    case Grouping(_, inner) =>
      GenShape(inner, slots, fold, code);
    case Unary(op, right) =>
      var x := Gen(right, slots, fold, code);
      GenShape(right, slots, fold, code);
      if x.value.Some? {
        UnaryShape(op.kind, right, x.value.value, slots, fold, x.code);
      }
    case Binary(left, op, right) =>
      var l := Gen(left, slots, fold, code);
      GenShape(left, slots, fold, code);
      if l.value.Some? {
        var r := Gen(right, slots, fold, l.code);
        GenShape(right, slots, fold, l.code);
        if r.value.Some? {
          BinaryShape(op.kind, l.value.value, r.value.value, fold, r.code);
        }
      }
    case _ =>
  }

  lemma {:induction false} LoadShape(slots: Slots, name: string, code: seq<Instr>)
    requires WellFormed(code) && name in slots
    ensures WellFormed(code + [Load(name, slots[name])])
  {
  }

  lemma {:induction false} BinaryShape(k: Kind, a: Operand, b: Operand, fold: bool, code: seq<Instr>)
    requires WellFormed(code) && Earlier(a, |code|) && Earlier(b, |code|)
    ensures Extends(GenBinary(k, a, b, fold, code), code)
  {
    hide Create, WellFormed, GenLogic, OpcodeOf;
    LogicShape(if k == And then OpAnd else OpOr, a, b, fold, code);
    if OpcodeOf(k).Some? {
      CreateShape(fold, code, OpcodeOf(k).value, a, b);
    }
  }

  // Types

  function UnaryType(k: Kind, right: Expr, t: Type): Option<Type> {
    if k == Bang then Some(I1)
    else if IsComplement(k) then Some(t)
    else if (k == Minus || (Steps(k) && right.Variable?)) && t == I64 then Some(I64)
    else None
  }

  function BinaryType(k: Kind, a: Type, b: Type): Option<Type> {
    if k == And || k == Or then Some(I1)
    else if a != b || OpcodeOf(k).None? then None
    else if k == EqualEqual || k == BangEqual then Some(I1)
    else if k == BitwiseAnd || k == BitwiseOr || k == BitwiseXor then Some(a)
    else if a == I1 then None
    else if IsCompare(OpcodeOf(k).value) then Some(I1)
    else Some(I64)
  }

  /** The type of an expression over declared variables: 64-bit integers and booleans. */
  function StaticType(e: Expr, slots: Slots): (t: Option<Type>)
    ensures t != Some(I32)
  {
    match e
    case Literal(_, text, Integer) => if Stoll(text).Some? then Some(I64) else None
    case Literal(_, _, Boolean) => Some(I1)
    case Variable(_, name) => if name in slots && slots[name] != I32 then Some(slots[name]) else None
    case Grouping(_, inner) => StaticType(inner, slots)
    case Unary(op, right) =>
      var t := StaticType(right, slots);
      if t.Some? then UnaryType(op.kind, right, t.value) else None
    case Binary(left, op, right) =>
      var a, b := StaticType(left, slots), StaticType(right, slots);
      if a.Some? && b.Some? then BinaryType(op.kind, a.value, b.value) else None
    case _ => None
  }

  /** Visiting a well-typed expression leaves a value of its type in lastValue, even where its meaning is undefined. */
  lemma {:induction false} GenTyped(e: Expr, slots: Slots, fold: bool, code: seq<Instr>)
    requires StaticType(e, slots).Some?
    ensures var r := Gen(e, slots, fold, code);
            r.value.Some? && TypeOf(r.value.value) == StaticType(e, slots).value
  {
    hide Create, Stoll, GenUnary, GenBinary, BinaryType;
    match e
    case Grouping(_, inner) =>
      GenTyped(inner, slots, fold, code);
    case Unary(op, right) =>
      GenTyped(right, slots, fold, code);
      var x := Gen(right, slots, fold, code);
      UnaryTyped(op.kind, right, x.value.value, slots, fold, x.code);
    case Binary(left, op, right) =>
      GenTyped(left, slots, fold, code);
      var l := Gen(left, slots, fold, code);
      GenTyped(right, slots, fold, l.code);
      var r := Gen(right, slots, fold, l.code);
      BinaryTyped(op.kind, l.value.value, r.value.value, fold, r.code);
    case _ =>
  }

  lemma {:induction false} CreateTyped(fold: bool, code: seq<Instr>, op: Opcode, a: Operand, b: Operand)
    ensures var r := Create(fold, code, op, a, b);
            r.value.Some? && TypeOf(r.value.value) == ResultType(op, a)
  {
    hide Compare, Total, Divides, Pow2, Wrap;
  }

  lemma {:induction false} UnaryTyped(k: Kind, right: Expr, x: Operand, slots: Slots, fold: bool, code: seq<Instr>)
    requires UnaryType(k, right, TypeOf(x)).Some?
    requires Steps(k) ==> right.Variable? && right.name in slots
    ensures var r := GenUnary(k, right, x, slots, fold, code);
            r.value.Some? && TypeOf(r.value.value) == UnaryType(k, right, TypeOf(x)).value
  {
    hide Create, Wrap, GenStep, ToBool, ConstantInt;
    var t := TypeOf(x);
    if k == Minus {
      ConstantTyped(t, 0);
      CreateTyped(fold, code, OpSub, ConstantInt(t, 0), x);
    } else if k == Bang && t != I1 {
      var b := ToBool(fold, code, x);
      ToBoolTyped(fold, code, x);
      CreateTyped(fold, b.code, OpXor, b.value.value, ConstantInt(I1, -1));
    } else if k == Bang || IsComplement(k) {
      CreateTyped(fold, code, OpXor, x, ConstantInt(t, -1));
    } else {
      StepTyped(k, right.name, t, fold, code);
    }
  }

  lemma {:induction false} ConstantTyped(t: Type, n: int)
    ensures TypeOf(ConstantInt(t, n)) == t
  {
  }

  lemma {:induction false} ToBoolTyped(fold: bool, code: seq<Instr>, x: Operand)
    ensures TypeOf(ToBool(fold, code, x).value.value) == I1
  {
    hide Create;
    CreateTyped(fold, code, CmpNe, x, ConstantInt(TypeOf(x), 0));
  }

  lemma {:induction false} StepTyped(k: Kind, name: string, t: Type, fold: bool, code: seq<Instr>)
    ensures var r := GenStep(k, name, t, fold, code);
            r.value.Some? && TypeOf(r.value.value) == t
  {
    hide Create;
    var op := if k == Other("++") then OpAdd else OpSub;
    CreateTyped(fold, code + [Load(name, t)], op, Reg(|code|, t), ConstantInt(t, 1));
  }

  lemma {:induction false} BinaryTyped(k: Kind, a: Operand, b: Operand, fold: bool, code: seq<Instr>)
    requires BinaryType(k, TypeOf(a), TypeOf(b)).Some? && TypeOf(a) != I32
    ensures var r := GenBinary(k, a, b, fold, code);
            r.value.Some? && TypeOf(r.value.value) == BinaryType(k, TypeOf(a), TypeOf(b)).value
  {
    hide Create, ToBool;
    if k == And || k == Or {
      var op := if k == And then OpAnd else OpOr;
      CreateTyped(fold, code, op, a, b);
      var l := ToBool(fold, code, a);
      var r := ToBool(fold, l.code, b);
      ToBoolTyped(fold, code, a);
      CreateTyped(fold, r.code, op, l.value.value, r.value.value);
    } else {
      CreateTyped(fold, code, OpcodeOf(k).value, a, b);
    }
  }

  // Meaning preserved

  function Rep(v: Value): Val {
    match v
    case IntV(n) => Val(I64, n)
    case BoolV(b) => Truth(b)
  }

  predicate Fits(v: Value) {
    v.IntV? ==> InRange(v.n, WORD)
  }

  /** The slots hold what the variables hold. */
  ghost predicate Holds(slots: Slots, memory: Memory, env: Env) {
    && slots.Keys == memory.Keys == env.Keys
    && forall x :: x in env ==> memory[x] == Rep(env[x]) && slots[x] == memory[x].ty && Fits(env[x])
  }

  /** r continues code, which leads to machine m, by code that leads to a machine where the operand reads as v, the
      slots hold env, and the instructions of code have the results they had. */
  ghost predicate Leads(r: Emitted, v: Value, env: Env, slots: Slots, m: Machine, memory: Memory) {
    && r.value.Some? && Run(r.code, memory).Some? && Fits(v)
    && var m' := Run(r.code, memory).value;
       m.regs <= m'.regs && Holds(slots, m'.memory, env) && Read(r.value.value, m'.regs) == Some(Rep(v))
  }

  lemma {:induction false} RunLength(code: seq<Instr>, memory: Memory)
    requires Run(code, memory).Some?
    ensures |Run(code, memory).value.regs| == |code|
    decreases |code|
  {
    hide Compute, Read;
    if code != [] {
      RunLength(code[..|code| - 1], memory);
    }
  }

  lemma {:induction false} ReadsOn(x: Operand, regs: seq<Val>, regs': seq<Val>)
    requires Read(x, regs).Some? && regs <= regs'
    ensures Read(x, regs') == Read(x, regs)
  {
  }

  lemma {:induction false} ReadType(x: Operand, regs: seq<Val>)
    requires Read(x, regs).Some?
    ensures TypeOf(x) == Read(x, regs).value.ty
  {
  }

  lemma {:induction false} ComputeType(op: Opcode, x: Val, y: Val)
    requires Compute(op, x, y).Some?
    ensures Compute(op, x, y).value.ty == if IsCompare(op) then I1 else x.ty
  {
    hide Compare, Total, Divides, Pow2, Wrap;
  }

  /** An instruction, folded or not, yields what its operation computes, and changes no slot. */
  lemma {:induction false} CreateComputes(
    fold: bool, code: seq<Instr>, op: Opcode, a: Operand, b: Operand, memory: Memory, m: Machine, x: Val, y: Val)
    requires Run(code, memory) == Some(m) && Read(a, m.regs) == Some(x) && Read(b, m.regs) == Some(y)
    requires Compute(op, x, y).Some?
    ensures var r := Create(fold, code, op, a, b);
            && r.value.Some? && Run(r.code, memory).Some?
            && var m' := Run(r.code, memory).value;
               && m.regs <= m'.regs && m'.memory == m.memory
               && Read(r.value.value, m'.regs) == Compute(op, x, y)
  {
    hide Compute, Run;
    ReadType(a, m.regs);
    ComputeType(op, x, y);
    if !(fold && !a.Reg? && !b.Reg?) {
      RunMore(code, Op(op, a, b), memory);
      RunLength(code, memory);
    }
  }

  // The operations compute what they mean

  lemma {:induction false} WrapBit(n: int)
    requires n == 0 || n == -1
    ensures Wrap(n, 0) == n
  {
    hide Wrap;
    assert InRange(n, 0);
    WrapInRange(n, 0);
  }

  /** On truth values the bitwise operations are the logical ones. */
  lemma {:induction false} GateOnBits(g: Gate, a: bool, b: bool)
    ensures Wrap(Bitwise(g, Truth(a).n, Truth(b).n, 0), 0) == Truth(ApplyGate(g, a, b)).n
  {
    hide Wrap;
    assert Bitwise(g, Truth(a).n, Truth(b).n, 0) == Truth(ApplyGate(g, a, b)).n;
    WrapBit(Truth(ApplyGate(g, a, b)).n);
  }

  lemma {:induction false} LogicComputes(k: Kind, a: bool, b: bool)
    requires k == And || k == Or
    ensures Compute(if k == And then OpAnd else OpOr, Truth(a), Truth(b))
         == Some(Truth(if k == And then a && b else a || b))
  {
    hide Wrap;
    GateOnBits(AndGate, a, b);
    GateOnBits(OrGate, a, b);
  }

  lemma {:induction false} NotComputes(b: bool)
    ensures Compute(OpXor, Truth(b), Val(I1, -1)) == Some(Truth(!b))
  {
    hide Wrap;
    GateOnBits(XorGate, b, true);
  }

  lemma {:induction false} ComplementComputes(n: int)
    requires InRange(n, WORD)
    ensures Compute(OpXor, Val(I64, n), Val(I64, -1)) == Some(Val(I64, -n - 1)) && InRange(-n - 1, WORD)
  {
    hide Wrap, Bitwise, Pow2;
    XorOnes(n, WORD);
    WrapInRange(-n - 1, WORD);
  }

  lemma {:induction false} ArithmeticComputes(k: Kind, a: int, b: int)
    requires IntMeaning(k, a, b).Some? && (k == Plus || k == Minus || k == Star)
    ensures OpcodeOf(k).Some?
    ensures Compute(OpcodeOf(k).value, Val(I64, a), Val(I64, b)) == Some(Rep(IntMeaning(k, a, b).value))
    ensures Fits(IntMeaning(k, a, b).value)
  {
    hide Bitwise, Pow2, TruncDiv, Divides, InRange, Wrap, Compare;
  }

  lemma {:induction false} DivisionComputes(k: Kind, a: int, b: int)
    requires IntMeaning(k, a, b).Some? && k == Slash
    ensures OpcodeOf(k).Some?
    ensures Compute(OpcodeOf(k).value, Val(I64, a), Val(I64, b)) == Some(Rep(IntMeaning(k, a, b).value))
    ensures Fits(IntMeaning(k, a, b).value)
  {
    hide Bitwise, Pow2, TruncDiv, Divides, InRange, Wrap, Compare, Total;
  }

  lemma {:induction false} RemainderComputes(k: Kind, a: int, b: int)
    requires IntMeaning(k, a, b).Some? && k == Percent
    ensures OpcodeOf(k).Some?
    ensures Compute(OpcodeOf(k).value, Val(I64, a), Val(I64, b)) == Some(Rep(IntMeaning(k, a, b).value))
    ensures Fits(IntMeaning(k, a, b).value)
  {
    hide Bitwise, Pow2, TruncDiv, Divides, InRange, Wrap, Compare, Total;
  }

  lemma {:induction false} EqualityComputes(k: Kind, a: int, b: int)
    requires IntMeaning(k, a, b).Some? && (k == EqualEqual || k == BangEqual)
    ensures OpcodeOf(k).Some?
    ensures Compute(OpcodeOf(k).value, Val(I64, a), Val(I64, b)) == Some(Rep(IntMeaning(k, a, b).value))
    ensures Fits(IntMeaning(k, a, b).value)
  {
    hide Bitwise, Pow2, TruncDiv, Divides, InRange, Wrap, Total;
  }

  lemma {:induction false} OrderComputes(k: Kind, a: int, b: int)
    requires IntMeaning(k, a, b).Some? && (k == Less || k == LessEqual || k == Greater || k == GreaterEqual)
    ensures OpcodeOf(k).Some?
    ensures Compute(OpcodeOf(k).value, Val(I64, a), Val(I64, b)) == Some(Rep(IntMeaning(k, a, b).value))
    ensures Fits(IntMeaning(k, a, b).value)
  {
    hide Bitwise, Pow2, TruncDiv, Divides, InRange, Wrap, Total;
  }

  lemma {:induction false} BitsCompute(k: Kind, a: int, b: int)
    requires IntMeaning(k, a, b).Some?
    requires k == BitwiseAnd || k == BitwiseOr || k == BitwiseXor || k == LeftShift || k == RightShift
    ensures OpcodeOf(k).Some?
    ensures Compute(OpcodeOf(k).value, Val(I64, a), Val(I64, b)) == Some(Rep(IntMeaning(k, a, b).value))
    ensures Fits(IntMeaning(k, a, b).value)
  {
    hide Bitwise, Pow2, TruncDiv, Divides, InRange, Wrap, Compare;
  }

  lemma {:induction false} IntComputes(k: Kind, a: int, b: int)
    requires IntMeaning(k, a, b).Some?
    ensures OpcodeOf(k).Some?
    ensures Compute(OpcodeOf(k).value, Val(I64, a), Val(I64, b)) == Some(Rep(IntMeaning(k, a, b).value))
    ensures Fits(IntMeaning(k, a, b).value)
  {
    hide Compute, Rep, Fits, Bitwise, Pow2, TruncDiv, Divides, Wrap;
    if k == Plus || k == Minus || k == Star {
      ArithmeticComputes(k, a, b);
    } else if k == Slash {
      DivisionComputes(k, a, b);
    } else if k == Percent {
      RemainderComputes(k, a, b);
    } else if k == BitwiseAnd || k == BitwiseOr || k == BitwiseXor || k == LeftShift || k == RightShift {
      BitsCompute(k, a, b);
    } else if k == EqualEqual || k == BangEqual {
      EqualityComputes(k, a, b);
    } else {
      OrderComputes(k, a, b);
    }
  }

  lemma {:induction false} BoolGateComputes(k: Kind, a: bool, b: bool)
    requires k == BitwiseAnd || k == BitwiseOr || k == BitwiseXor
    ensures OpcodeOf(k).Some? && BoolMeaning(k, a, b).Some?
    ensures Compute(OpcodeOf(k).value, Truth(a), Truth(b)) == Some(Rep(BoolMeaning(k, a, b).value))
  {
    hide Wrap, Bitwise, Compare, Divides, Truth;
    TruthType(a);
    TruthType(b);
    if k == BitwiseAnd {
      GateOnBits(AndGate, a, b);
    } else if k == BitwiseOr {
      GateOnBits(OrGate, a, b);
    } else {
      GateOnBits(XorGate, a, b);
    }
  }

  lemma {:induction false} TruthType(b: bool)
    ensures Truth(b).ty == I1 && Bits(I1) == 0
    ensures forall c :: Truth(c).ty == I1 && (Truth(c).n == Truth(b).n <==> Truth(c) == Truth(b))
  {
  }

  lemma {:induction false} BoolComputes(k: Kind, a: bool, b: bool)
    requires BoolMeaning(k, a, b).Some?
    ensures OpcodeOf(k).Some?
    ensures Compute(OpcodeOf(k).value, Truth(a), Truth(b)) == Some(Rep(BoolMeaning(k, a, b).value))
  {
    hide Total;
    if k == BitwiseAnd || k == BitwiseOr || k == BitwiseXor {
      hide Compute;
      BoolGateComputes(k, a, b);
    }
  }

  lemma {:induction false} TestComputes(v: Value)
    ensures var x := Rep(v); Compute(CmpNe, x, Val(x.ty, 0)) == Some(Truth(IsTrue(v)))
  {
  }

  lemma {:induction false} ZeroAndOnes(ty: Type)
    ensures ConstantInt(ty, 0) == Constant(Val(ty, 0)) && ConstantInt(ty, -1) == Constant(Val(ty, -1))
  {
    hide Pow2, Wrap;
    assert Pow2(Bits(ty)) > 0;
    WrapInRange(0, Bits(ty));
    WrapInRange(-1, Bits(ty));
  }

  // Each piece of code leads to what it means

  lemma {:induction false} CreateLeads(
    fold: bool, code: seq<Instr>, op: Opcode, a: Operand, b: Operand, x: Val, y: Val, v: Value,
    env: Env, slots: Slots, m: Machine, memory: Memory)
    requires Run(code, memory) == Some(m) && Holds(slots, m.memory, env)
    requires Read(a, m.regs) == Some(x) && Read(b, m.regs) == Some(y)
    requires Compute(op, x, y) == Some(Rep(v)) && Fits(v)
    ensures Leads(Create(fold, code, op, a, b), v, env, slots, m, memory)
  {
    hide Create, Compute, Run, Read, Rep, Fits, Holds;
    CreateComputes(fold, code, op, a, b, memory, m, x, y);
  }

  lemma {:induction false} LeadsOn(
    r: Emitted, v: Value, env: Env, slots: Slots, m: Machine, mid: Machine, memory: Memory)
    requires Leads(r, v, env, slots, mid, memory) && m.regs <= mid.regs
    ensures Leads(r, v, env, slots, m, memory)
  {
    hide Run, Read, Rep, Fits, Holds;
  }

  lemma {:induction false} ToBoolLeads(
    fold: bool, code: seq<Instr>, x: Operand, v: Value, env: Env, slots: Slots, m: Machine, memory: Memory)
    requires Run(code, memory) == Some(m) && Holds(slots, m.memory, env) && Read(x, m.regs) == Some(Rep(v))
    ensures Leads(ToBool(fold, code, x), BoolV(IsTrue(v)), env, slots, m, memory)
  {
    hide Create, Compute, Run, Holds, Leads, ConstantInt;
    ReadType(x, m.regs);
    ZeroAndOnes(TypeOf(x));
    TestComputes(v);
    CreateLeads(fold, code, CmpNe, x, ConstantInt(TypeOf(x), 0), Rep(v), Val(TypeOf(x), 0), BoolV(IsTrue(v)),
                env, slots, m, memory);
  }

  lemma {:induction false} NotLeads(
    fold: bool, code: seq<Instr>, x: Operand, b: bool, env: Env, slots: Slots, m: Machine, memory: Memory)
    requires Run(code, memory) == Some(m) && Holds(slots, m.memory, env) && Read(x, m.regs) == Some(Truth(b))
    ensures Leads(CreateNot(fold, code, x), BoolV(!b), env, slots, m, memory)
  {
    hide Create, Compute, Run, Holds, Leads, ConstantInt;
    ReadType(x, m.regs);
    ZeroAndOnes(I1);
    NotComputes(b);
    CreateLeads(fold, code, OpXor, x, ConstantInt(I1, -1), Truth(b), Val(I1, -1), BoolV(!b), env, slots, m, memory);
  }

  lemma {:induction false} NegLeads(
    fold: bool, code: seq<Instr>, x: Operand, n: int, env: Env, slots: Slots, m: Machine, memory: Memory)
    requires Run(code, memory) == Some(m) && Holds(slots, m.memory, env) && Read(x, m.regs) == Some(Val(I64, n))
    ensures Leads(CreateNeg(fold, code, x), Word(-n), env, slots, m, memory)
  {
    hide Create, Run, Holds, Leads, ConstantInt, Wrap, Pow2;
    ReadType(x, m.regs);
    ZeroAndOnes(I64);
    CreateLeads(fold, code, OpSub, ConstantInt(I64, 0), x, Val(I64, 0), Val(I64, n), Word(-n), env, slots, m, memory);
  }

  lemma {:induction false} ComplementLeads(
    fold: bool, code: seq<Instr>, x: Operand, n: int, env: Env, slots: Slots, m: Machine, memory: Memory)
    requires Run(code, memory) == Some(m) && Holds(slots, m.memory, env)
    requires Read(x, m.regs) == Some(Val(I64, n)) && InRange(n, WORD)
    ensures Leads(CreateNot(fold, code, x), IntV(-n - 1), env, slots, m, memory)
  {
    hide Create, Compute, Run, Holds, Leads, ConstantInt, Pow2;
    ReadType(x, m.regs);
    ZeroAndOnes(I64);
    ComplementComputes(n);
    CreateLeads(fold, code, OpXor, x, ConstantInt(I64, -1), Val(I64, n), Val(I64, -1), IntV(-n - 1),
                env, slots, m, memory);
  }

  lemma {:induction false} UnaryLeads(
    k: Kind, right: Expr, x: Operand, v: Value, fold: bool, code: seq<Instr>,
    env: Env, slots: Slots, m: Machine, memory: Memory)
    requires Run(code, memory) == Some(m) && Holds(slots, m.memory, env)
    requires Read(x, m.regs) == Some(Rep(v)) && Fits(v) && UnaryMeaning(k, v).Some?
    ensures Leads(GenUnary(k, right, x, slots, fold, code), UnaryMeaning(k, v).value, env, slots, m, memory)
  {
    hide CreateNeg, CreateNot, ToBool, Run, Holds, Wrap, Pow2, Read, Leads;
    ReadType(x, m.regs);
    if k == Minus {
      NegLeads(fold, code, x, v.n, env, slots, m, memory);
    } else if k == Bang && v.IntV? {
      var b := ToBool(fold, code, x);
      ToBoolLeads(fold, code, x, v, env, slots, m, memory);
      var mid := LeadsTo(b, BoolV(IsTrue(v)), env, slots, m, memory);
      NotLeads(fold, b.code, b.value.value, IsTrue(v), env, slots, mid, memory);
      LeadsOn(CreateNot(fold, b.code, b.value.value), BoolV(!IsTrue(v)), env, slots, m, mid, memory);
    } else if v.BoolV? {
      NotLeads(fold, code, x, v.b, env, slots, m, memory);
    } else {
      ComplementLeads(fold, code, x, v.n, env, slots, m, memory);
    }
  }

  /** The machine that a piece of code leads to. */
  ghost function LeadsTo(r: Emitted, v: Value, env: Env, slots: Slots, m: Machine, memory: Memory): (mid: Machine)
    requires Leads(r, v, env, slots, m, memory)
    ensures Run(r.code, memory) == Some(mid) && m.regs <= mid.regs && Holds(slots, mid.memory, env)
    ensures r.value.Some? && Read(r.value.value, mid.regs) == Some(Rep(v)) && Fits(v)
  {
    Run(r.code, memory).value
  }

  lemma {:induction false} LogicLeads(
    k: Kind, a: Operand, b: Operand, x: Value, y: Value, fold: bool, code: seq<Instr>,
    env: Env, slots: Slots, m: Machine, memory: Memory)
    requires k == And || k == Or
    requires Run(code, memory) == Some(m) && Holds(slots, m.memory, env)
    requires Read(a, m.regs) == Some(Rep(x)) && Read(b, m.regs) == Some(Rep(y))
    ensures Leads(GenLogic(if k == And then OpAnd else OpOr, a, b, fold, code),
                  BoolV(if k == And then IsTrue(x) && IsTrue(y) else IsTrue(x) || IsTrue(y)), env, slots, m, memory)
  {
    hide Create, Compute, ToBool, Run, Holds, Read, Leads, IsTrue;
    var op := if k == And then OpAnd else OpOr;
    var v := BoolV(if k == And then IsTrue(x) && IsTrue(y) else IsTrue(x) || IsTrue(y));
    ReadType(a, m.regs);
    ReadType(b, m.regs);
    LogicComputes(k, IsTrue(x), IsTrue(y));
    if TypeOf(a) == I1 && TypeOf(b) == I1 {
      TruthIsTrue(x);
      TruthIsTrue(y);
      CreateLeads(fold, code, op, a, b, Rep(x), Rep(y), v, env, slots, m, memory);
    } else {
      var l := ToBool(fold, code, a);
      ToBoolLeads(fold, code, a, x, env, slots, m, memory);
      var m1 := LeadsTo(l, BoolV(IsTrue(x)), env, slots, m, memory);
      ReadsOn(b, m.regs, m1.regs);
      var r := ToBool(fold, l.code, b);
      ToBoolLeads(fold, l.code, b, y, env, slots, m1, memory);
      var m2 := LeadsTo(r, BoolV(IsTrue(y)), env, slots, m1, memory);
      ReadsOn(l.value.value, m1.regs, m2.regs);
      CreateLeads(fold, r.code, op, l.value.value, r.value.value, Truth(IsTrue(x)), Truth(IsTrue(y)), v,
                  env, slots, m2, memory);
      LeadsOn(Create(fold, r.code, op, l.value.value, r.value.value), v, env, slots, m, m2, memory);
    }
  }

  lemma {:induction false} TruthIsTrue(v: Value)
    requires Rep(v).ty == I1
    ensures Rep(v) == Truth(IsTrue(v))
  {
  }

  lemma {:induction false} BinaryLeads(
    k: Kind, a: Operand, b: Operand, x: Value, y: Value, fold: bool, code: seq<Instr>,
    env: Env, slots: Slots, m: Machine, memory: Memory)
    requires Run(code, memory) == Some(m) && Holds(slots, m.memory, env)
    requires Read(a, m.regs) == Some(Rep(x)) && Read(b, m.regs) == Some(Rep(y)) && BinaryMeaning(k, x, y).Some?
    ensures Leads(GenBinary(k, a, b, fold, code), BinaryMeaning(k, x, y).value, env, slots, m, memory)
  {
    hide Create, Compute, GenLogic, Run, Holds, Read, Leads, IsTrue, IntMeaning, BoolMeaning, OpcodeOf;
    if k == And || k == Or {
      LogicLeads(k, a, b, x, y, fold, code, env, slots, m, memory);
    } else {
      if x.IntV? {
        IntComputes(k, x.n, y.n);
      } else {
        BoolComputes(k, x.b, y.b);
        BoolFits(k, x.b, y.b);
      }
      CreateLeads(fold, code, OpcodeOf(k).value, a, b, Rep(x), Rep(y), BinaryMeaning(k, x, y).value,
                  env, slots, m, memory);
    }
  }

  lemma {:induction false} BoolFits(k: Kind, a: bool, b: bool)
    requires BoolMeaning(k, a, b).Some?
    ensures Fits(BoolMeaning(k, a, b).value)
  {
  }

  lemma {:induction false} LoadLeads(
    name: string, code: seq<Instr>, env: Env, slots: Slots, m: Machine, memory: Memory)
    requires Run(code, memory) == Some(m) && Holds(slots, m.memory, env) && name in env
    ensures name in slots
    ensures Leads(Emitted(code + [Load(name, slots[name])], Some(Reg(|code|, slots[name]))), env[name], env, slots, m,
                  memory)
  {
    hide Run, Compute;
    RunMore(code, Load(name, slots[name]), memory);
    RunLength(code, memory);
  }

  lemma {:induction false} StepComputes(k: Kind, n: int)
    requires Steps(k)
    ensures Compute(if k == Other("++") then OpAdd else OpSub, Val(I64, n), Val(I64, 1)) == Some(Rep(Stepped(k, n)))
    ensures ConstantInt(I64, 1) == Constant(Val(I64, 1))
  {
    hide Wrap, Pow2;
    OneFits();
    WrapInRange(1, WORD);
  }

  lemma {:induction false} OneFits()
    ensures InRange(1, WORD)
  {
    assert Pow2(1) == 2;
    PowGrows(1, WORD);
  }

  lemma {:induction false} PowGrows(a: nat, b: nat)
    requires a <= b
    ensures Pow2(a) <= Pow2(b)
    decreases b
  {
    if a < b {
      PowGrows(a, b - 1);
    }
  }

  lemma {:induction false} StepLeads(
    k: Kind, name: string, fold: bool, code: seq<Instr>, env: Env, slots: Slots, m: Machine, memory: Memory)
    requires Run(code, memory) == Some(m) && Holds(slots, m.memory, env)
    requires Steps(k) && name in env && env[name].IntV?
    ensures var v := Stepped(k, env[name].n);
            Leads(GenStep(k, name, I64, fold, code), v, env[name := v], slots, m, memory)
  {
    hide Create, Compute, Run, Wrap, Pow2, ConstantInt;
    var n := env[name].n;
    var v := Stepped(k, n);
    LoadLeads(name, code, env, slots, m, memory);
    var loaded := Emitted(code + [Load(name, I64)], Some(Reg(|code|, I64)));
    var m1 := LeadsTo(loaded, env[name], env, slots, m, memory);
    StepComputes(k, n);
    var op := if k == Other("++") then OpAdd else OpSub;
    var r := Create(fold, loaded.code, op, Reg(|code|, I64), ConstantInt(I64, 1));
    CreateLeads(fold, loaded.code, op, Reg(|code|, I64), ConstantInt(I64, 1), Val(I64, n), Val(I64, 1), v,
                env, slots, m1, memory);
    var m2 := LeadsTo(r, v, env, slots, m1, memory);
    StoreLeads(name, r, v, env, slots, m2, memory);
    LeadsOn(Emitted(r.code + [Store(name, r.value.value)], r.value), v, env[name := v], slots, m, m2, memory);
  }

  lemma {:induction false} StoreLeads(
    name: string, r: Emitted, v: Value, env: Env, slots: Slots, m: Machine, memory: Memory)
    requires Run(r.code, memory) == Some(m) && Holds(slots, m.memory, env) && name in env && env[name].IntV?
    requires r.value.Some? && Read(r.value.value, m.regs) == Some(Rep(v)) && v.IntV? && Fits(v)
    ensures Leads(Emitted(r.code + [Store(name, r.value.value)], r.value), v, env[name := v], slots, m, memory)
  {
    hide Run, Compute, Pow2, InRange;
    RunMore(r.code, Store(name, r.value.value), memory);
    var m' := Run(r.code + [Store(name, r.value.value)], memory).value;
    ReadsOn(r.value.value, m.regs, m'.regs);
  }

  /** The main theorem: if an expression has a meaning, which excludes what the target language leaves undefined, then
      running the emitted code gives lastValue that meaning and leaves the variables as the meaning says, whether or
      not the builder folds constants. */
  lemma {:induction false} GenMeans(
    e: Expr, slots: Slots, fold: bool, code: seq<Instr>, env: Env, m: Machine, memory: Memory)
    requires Run(code, memory) == Some(m) && Holds(slots, m.memory, env) && Meaning(e, env).Some?
    ensures var (v, env') := Meaning(e, env).value;
            Leads(Gen(e, slots, fold, code), v, env', slots, m, memory)
    decreases e
  {
    hide Run, Read, Holds, Leads, GenUnary, GenBinary, UnaryMeaning, BinaryMeaning, Stoll, Stepped;
    match e
    case Literal(_, text, t) =>
      LiteralLeads(e, slots, fold, code, env, m, memory);
    case Variable(_, name) =>
      LoadLeads(name, code, env, slots, m, memory);
    case Grouping(_, inner) =>
      GenMeans(inner, slots, fold, code, env, m, memory);
    case Unary(op, right) =>
      if Steps(op.kind) {
        StepMeans(op, right, slots, fold, code, env, m, memory);
      } else {
        GenMeans(right, slots, fold, code, env, m, memory);
        var x, v := Gen(right, slots, fold, code), Meaning(right, env).value;
        var m1 := LeadsTo(x, v.0, v.1, slots, m, memory);
        UnaryLeads(op.kind, right, x.value.value, v.0, fold, x.code, v.1, slots, m1, memory);
        LeadsOn(GenUnary(op.kind, right, x.value.value, slots, fold, x.code), UnaryMeaning(op.kind, v.0).value, v.1,
                slots, m, m1, memory);
      }
    case Binary(left, op, right) =>
      GenMeans(left, slots, fold, code, env, m, memory);
      var l, v := Gen(left, slots, fold, code), Meaning(left, env).value;
      var m1 := LeadsTo(l, v.0, v.1, slots, m, memory);
      GenMeans(right, slots, fold, l.code, v.1, m1, memory);
      var r, w := Gen(right, slots, fold, l.code), Meaning(right, v.1).value;
      var m2 := LeadsTo(r, w.0, w.1, slots, m1, memory);
      ReadsOn(l.value.value, m1.regs, m2.regs);
      BinaryLeads(op.kind, l.value.value, r.value.value, v.0, w.0, fold, r.code, w.1, slots, m2, memory);
      LeadsOn(GenBinary(op.kind, l.value.value, r.value.value, fold, r.code), BinaryMeaning(op.kind, v.0, w.0).value,
              w.1, slots, m, m2, memory);
  }

  lemma {:induction false} LiteralLeads(
    e: Expr, slots: Slots, fold: bool, code: seq<Instr>, env: Env, m: Machine, memory: Memory)
    requires Run(code, memory) == Some(m) && Holds(slots, m.memory, env) && e.Literal? && Meaning(e, env).Some?
    ensures Leads(Gen(e, slots, fold, code), Meaning(e, env).value.0, env, slots, m, memory)
    ensures Meaning(e, env).value.1 == env
  {
    hide Run, Holds, DigitsValue;
  }

  lemma {:induction false} SlotIsWord(name: string, slots: Slots, m: Machine, env: Env)
    requires Holds(slots, m.memory, env) && name in env && env[name].IntV?
    ensures name in slots && slots[name] == I64
  {
  }

  lemma {:induction false} StepMeans(
    op: Token, right: Expr, slots: Slots, fold: bool, code: seq<Instr>, env: Env, m: Machine, memory: Memory)
    requires Run(code, memory) == Some(m) && Holds(slots, m.memory, env)
    requires Steps(op.kind) && Meaning(Unary(op, right), env).Some?
    ensures var (v, env') := Meaning(Unary(op, right), env).value;
            Leads(Gen(Unary(op, right), slots, fold, code), v, env', slots, m, memory)
  {
    hide Run, Read, Leads, Stepped, GenStep, Holds;
    var name := right.name;
    LoadLeads(name, code, env, slots, m, memory);
    SlotIsWord(name, slots, m, env);
    var x := Gen(right, slots, fold, code);
    var m1 := LeadsTo(x, env[name], env, slots, m, memory);
    StepLeads(op.kind, name, fold, x.code, env, slots, m1, memory);
    var v := Stepped(op.kind, env[name].n);
    LeadsOn(GenStep(op.kind, name, I64, fold, x.code), v, env[name := v], slots, m, m1, memory);
  }

  // Where there is no meaning

  /** What the operands must satisfy for an operation to be defined: a divisor that divides, a shift within the word. */
  predicate Safe(k: Kind, x: Value, y: Value) {
    x.IntV? && y.IntV? ==>
      && (k == Slash || k == Percent ==> Divides(x.n, y.n, WORD))
      && (k == LeftShift || k == RightShift ==> 0 <= y.n <= WORD)
  }

  lemma {:induction false} IntDefined(k: Kind, a: int, b: int)
    requires BinaryType(k, I64, I64).Some? && k != And && k != Or
    ensures IntMeaning(k, a, b).Some? <==> Safe(k, IntV(a), IntV(b))
    ensures !Safe(k, IntV(a), IntV(b)) ==> Compute(OpcodeOf(k).value, Val(I64, a), Val(I64, b)) == None
  {
    hide Wrap, Bitwise, Pow2, TruncDiv, Divides, Total, Compare;
  }

  lemma {:induction false} BoolDefined(k: Kind, a: bool, b: bool)
    requires BinaryType(k, I1, I1).Some? && k != And && k != Or
    ensures BoolMeaning(k, a, b).Some?
  {
  }

  /** A well-typed operation has a value exactly on safe operands; on others its instruction is undefined. */
  lemma {:induction false} BinaryDefined(k: Kind, x: Value, y: Value)
    requires BinaryType(k, Rep(x).ty, Rep(y).ty).Some?
    ensures BinaryMeaning(k, x, y).Some? <==> Safe(k, x, y)
    ensures !Safe(k, x, y) ==> Compute(OpcodeOf(k).value, Rep(x), Rep(y)) == None
  {
    hide Compute, IntMeaning, BoolMeaning, OpcodeOf, Divides;
    if k != And && k != Or {
      SameTypes(k, x, y);
      if x.IntV? {
        IntDefined(k, x.n, y.n);
      } else {
        BoolDefined(k, x.b, y.b);
      }
    }
  }

  lemma {:induction false} SameTypes(k: Kind, x: Value, y: Value)
    requires BinaryType(k, Rep(x).ty, Rep(y).ty).Some? && k != And && k != Or
    ensures OpcodeOf(k).Some? && Rep(x).ty == Rep(y).ty && (x.IntV? <==> y.IntV?)
  {
    hide OpcodeOf;
  }

  /** A well-typed unary operation always has one. */
  lemma {:induction false} UnaryDefined(k: Kind, right: Expr, v: Value)
    requires UnaryType(k, right, Rep(v).ty).Some? && !Steps(k)
    ensures UnaryMeaning(k, v).Some?
  {
  }

  /** The block gets stuck on something undefined, or the value it leaves is the result of something undefined. */
  predicate Fails(r: Emitted, memory: Memory) {
    r.value.Some? && (Run(r.code, memory).None? || r.value.value.Poison?)
  }

  lemma {:induction false} StuckStays(code: seq<Instr>, more: seq<Instr>, memory: Memory)
    requires Run(code, memory).None? && code <= more
    ensures Run(more, memory).None?
    decreases |more|
  {
    if |more| > |code| {
      StuckStays(code, more[..|more| - 1], memory);
    } else {
      assert more == code;
    }
  }

  lemma {:induction false} CreateFails(fold: bool, code: seq<Instr>, op: Opcode, a: Operand, b: Operand, memory: Memory)
    requires Run(code, memory).None? || a.Poison? || b.Poison?
    ensures Fails(Create(fold, code, op, a, b), memory)
  {
    hide Run, Compute;
    RunMore(code, Op(op, a, b), memory);
  }

  lemma {:induction false} UndefinedFails(
    fold: bool, code: seq<Instr>, op: Opcode, a: Operand, b: Operand, x: Val, y: Val, memory: Memory, m: Machine)
    requires Run(code, memory) == Some(m) && Read(a, m.regs) == Some(x) && Read(b, m.regs) == Some(y)
    requires Compute(op, x, y).None?
    ensures Fails(Create(fold, code, op, a, b), memory)
  {
    hide Run, Compute;
    RunMore(code, Op(op, a, b), memory);
  }

  lemma {:induction false} UnaryFails(
    k: Kind, right: Expr, x: Operand, slots: Slots, fold: bool, code: seq<Instr>, memory: Memory)
    requires Run(code, memory).None? || x.Poison?
    requires UnaryType(k, right, TypeOf(x)).Some? && !Steps(k)
    ensures Fails(GenUnary(k, right, x, slots, fold, code), memory)
  {
    hide Create, Run, ConstantInt;
    var t := TypeOf(x);
    if k == Minus {
      CreateFails(fold, code, OpSub, ConstantInt(t, 0), x, memory);
    } else if k == Bang && t != I1 {
      var b := ToBool(fold, code, x);
      CreateFails(fold, code, CmpNe, x, ConstantInt(t, 0), memory);
      CreateFails(fold, b.code, OpXor, b.value.value, ConstantInt(TypeOf(b.value.value), -1), memory);
    } else {
      CreateFails(fold, code, OpXor, x, ConstantInt(t, -1), memory);
    }
  }

  lemma {:induction false} BinaryFails(k: Kind, a: Operand, b: Operand, fold: bool, code: seq<Instr>, memory: Memory)
    requires Run(code, memory).None? || a.Poison? || b.Poison?
    requires BinaryType(k, TypeOf(a), TypeOf(b)).Some?
    ensures Fails(GenBinary(k, a, b, fold, code), memory)
  {
    hide Create, Run, ConstantInt, OpcodeOf, ToBool;
    if k == And || k == Or {
      LogicFails(if k == And then OpAnd else OpOr, a, b, fold, code, memory);
    } else {
      CreateFails(fold, code, OpcodeOf(k).value, a, b, memory);
    }
  }

  lemma {:induction false} LogicFails(op: Opcode, a: Operand, b: Operand, fold: bool, code: seq<Instr>, memory: Memory)
    requires Run(code, memory).None? || a.Poison? || b.Poison?
    ensures Fails(GenLogic(op, a, b, fold, code), memory)
  {
    hide Create, Run, ConstantInt;
    if TypeOf(a) == I1 && TypeOf(b) == I1 {
      CreateFails(fold, code, op, a, b, memory);
    } else {
      var l := ToBool(fold, code, a);
      var r := ToBool(fold, l.code, b);
      if Run(code, memory).None? || a.Poison? {
        CreateFails(fold, code, CmpNe, a, ConstantInt(TypeOf(a), 0), memory);
      }
      if Run(l.code, memory).None? || b.Poison? {
        CreateFails(fold, l.code, CmpNe, b, ConstantInt(TypeOf(b), 0), memory);
      }
      CreateFails(fold, r.code, op, l.value.value, r.value.value, memory);
    }
  }

  /** The value that a well-typed expression means has its type. */
  lemma {:induction false} MeaningTyped(
    e: Expr, slots: Slots, fold: bool, code: seq<Instr>, env: Env, m: Machine, memory: Memory)
    requires Run(code, memory) == Some(m) && Holds(slots, m.memory, env)
    requires Meaning(e, env).Some? && StaticType(e, slots).Some?
    ensures Rep(Meaning(e, env).value.0).ty == StaticType(e, slots).value
  {
    hide Run, Holds, Meaning, Gen, StaticType;
    GenMeans(e, slots, fold, code, env, m, memory);
    GenTyped(e, slots, fold, code);
    var r := Gen(e, slots, fold, code);
    ReadType(r.value.value, Run(r.code, memory).value.regs);
  }

  /** A well-typed expression without a meaning gets stuck, or leaves poison. */
  lemma {:induction false} GenFails(
    e: Expr, slots: Slots, fold: bool, code: seq<Instr>, env: Env, m: Machine, memory: Memory)
    requires Run(code, memory) == Some(m) && Holds(slots, m.memory, env) && WellFormed(code)
    requires StaticType(e, slots).Some? && Meaning(e, env).None?
    ensures Fails(Gen(e, slots, fold, code), memory)
    decreases e
  {
    hide Run, Holds, WellFormed, GenUnary, GenBinary, UnaryMeaning, BinaryMeaning, Stoll, Leads, UnaryType, BinaryType;
    match e
    case Variable(_, name) =>
      SlotsAreVariables(slots, m, env);
    case Grouping(_, inner) =>
      GenFails(inner, slots, fold, code, env, m, memory);
    case Unary(op, right) =>
      UnaryGenFails(op, right, slots, fold, code, env, m, memory);
    case Binary(left, op, right) =>
      BinaryGenFails(left, op, right, slots, fold, code, env, m, memory);
    case _ =>
  }

  lemma {:induction false} SlotsAreVariables(slots: Slots, m: Machine, env: Env)
    requires Holds(slots, m.memory, env)
    ensures slots.Keys == env.Keys
    ensures forall x :: x in env && slots[x] == I64 ==> env[x].IntV?
  {
  }

  lemma {:induction false} UnaryGenFails(
    op: Token, right: Expr, slots: Slots, fold: bool, code: seq<Instr>, env: Env, m: Machine, memory: Memory)
    requires Run(code, memory) == Some(m) && Holds(slots, m.memory, env) && WellFormed(code)
    requires StaticType(Unary(op, right), slots).Some? && Meaning(Unary(op, right), env).None?
    ensures Fails(Gen(Unary(op, right), slots, fold, code), memory)
    decreases Unary(op, right), 0
  {
    hide Run, Holds, WellFormed, GenUnary, UnaryMeaning, Leads, Fails, UnaryType, StaticType, Meaning, Gen;
    UnaryUnfolds(op, right, slots, fold, code, env, m);
    GenTyped(right, slots, fold, code);
    if Meaning(right, env).Some? {
      MeaningTyped(right, slots, fold, code, env, m, memory);
      UnaryDefined(op.kind, right, Meaning(right, env).value.0);
    } else {
      GenFails(right, slots, fold, code, env, m, memory);
      var x := Gen(right, slots, fold, code);
      FailsAs(x, memory);
      UnaryFails(op.kind, right, x.value.value, slots, fold, x.code, memory);
    }
  }

  /** Unary expressions unfolded; on a variable of the right type, ++ and -- always have a meaning. */
  lemma {:induction false} UnaryUnfolds(
    op: Token, right: Expr, slots: Slots, fold: bool, code: seq<Instr>, env: Env, m: Machine)
    requires StaticType(Unary(op, right), slots).Some? && Meaning(Unary(op, right), env).None?
    requires Holds(slots, m.memory, env)
    ensures !Steps(op.kind) && StaticType(right, slots).Some?
    ensures UnaryType(op.kind, right, StaticType(right, slots).value).Some?
    ensures Meaning(right, env).Some? ==> UnaryMeaning(op.kind, Meaning(right, env).value.0).None?
    ensures var x := Gen(right, slots, fold, code);
            x.value.Some? ==>
              Gen(Unary(op, right), slots, fold, code)
              == GenUnary(op.kind, right, x.value.value, slots, fold, x.code)
  {
    hide UnaryMeaning, GenUnary, Holds, Stoll, Stepped;
    SlotsAreVariables(slots, m, env);
  }

  lemma {:induction false} FailsAs(r: Emitted, memory: Memory)
    requires Fails(r, memory)
    ensures r.value.Some? && (Run(r.code, memory).None? || r.value.value.Poison?)
  {
  }

  lemma {:induction false} BinaryGenFails(
    left: Expr, op: Token, right: Expr, slots: Slots, fold: bool, code: seq<Instr>, env: Env, m: Machine,
    memory: Memory)
    requires Run(code, memory) == Some(m) && Holds(slots, m.memory, env) && WellFormed(code)
    requires StaticType(Binary(left, op, right), slots).Some? && Meaning(Binary(left, op, right), env).None?
    ensures Fails(Gen(Binary(left, op, right), slots, fold, code), memory)
    decreases Binary(left, op, right), 0
  {
    hide Run, Holds, WellFormed, GenBinary, BinaryMeaning, Stoll, Fails, BinaryType, StaticType, Meaning, Gen;
    BinaryUnfolds(left, op, right, slots, fold, code, env);
    var l := Gen(left, slots, fold, code);
    GenTyped(left, slots, fold, code);
    GenTyped(right, slots, fold, l.code);
    GenShape(left, slots, fold, code);
    GenShape(right, slots, fold, l.code);
    var r := Gen(right, slots, fold, l.code);
    if Meaning(left, env).None? {
      GenFails(left, slots, fold, code, env, m, memory);
      FailsAs(l, memory);
      if Run(l.code, memory).None? {
        StuckStays(l.code, r.code, memory);
      }
      BinaryFails(op.kind, l.value.value, r.value.value, fold, r.code, memory);
    } else {
      GenMeans(left, slots, fold, code, env, m, memory);
      var v := Meaning(left, env).value;
      var m1 := LeadsTo(l, v.0, v.1, slots, m, memory);
      if Meaning(right, v.1).None? {
        GenFails(right, slots, fold, l.code, v.1, m1, memory);
        FailsAs(r, memory);
        BinaryFails(op.kind, l.value.value, r.value.value, fold, r.code, memory);
      } else {
        GenMeans(right, slots, fold, l.code, v.1, m1, memory);
        var w := Meaning(right, v.1).value;
        var m2 := LeadsTo(r, w.0, w.1, slots, m1, memory);
        ReadsOn(l.value.value, m1.regs, m2.regs);
        OperationFails(op.kind, l.value.value, r.value.value, v.0, w.0, fold, r.code, memory, m2);
      }
    }
  }

  /** Binary expressions unfolded. */
  lemma {:induction false} BinaryUnfolds(
    left: Expr, op: Token, right: Expr, slots: Slots, fold: bool, code: seq<Instr>, env: Env)
    requires StaticType(Binary(left, op, right), slots).Some? && Meaning(Binary(left, op, right), env).None?
    ensures StaticType(left, slots).Some? && StaticType(right, slots).Some?
    ensures BinaryType(op.kind, StaticType(left, slots).value, StaticType(right, slots).value).Some?
    ensures Meaning(left, env).Some? ==>
              var (v, env') := Meaning(left, env).value;
              Meaning(right, env').Some? ==> BinaryMeaning(op.kind, v, Meaning(right, env').value.0).None?
    ensures var l := Gen(left, slots, fold, code);
            l.value.Some? ==>
              var r := Gen(right, slots, fold, l.code);
              r.value.Some? ==>
                Gen(Binary(left, op, right), slots, fold, code)
                == GenBinary(op.kind, l.value.value, r.value.value, fold, r.code)
  {
    hide BinaryType, BinaryMeaning, GenBinary;
  }

  lemma {:induction false} OperationFails(
    k: Kind, a: Operand, b: Operand, x: Value, y: Value, fold: bool, code: seq<Instr>, memory: Memory, m: Machine)
    requires Run(code, memory) == Some(m) && Read(a, m.regs) == Some(Rep(x)) && Read(b, m.regs) == Some(Rep(y))
    requires BinaryType(k, TypeOf(a), TypeOf(b)).Some? && BinaryMeaning(k, x, y).None?
    ensures Fails(GenBinary(k, a, b, fold, code), memory)
  {
    hide Run, Fails, Create, Compute, Read, IntMeaning, BoolMeaning, Safe, Rep, OpcodeOf;
    ReadType(a, m.regs);
    ReadType(b, m.regs);
    BinaryDefined(k, x, y);
    UndefinedFails(fold, code, OpcodeOf(k).value, a, b, Rep(x), Rep(y), memory, m);
  }

  /** For every well-typed expression in a block of its own: the block is well formed and leaves a value of the right
      type, and it runs to a value that can be read if and only if the expression has a meaning; then the value is that
      meaning, and the variables are as the meaning says. */
  lemma {:induction false} ExpressionCompiled(e: Expr, slots: Slots, fold: bool, env: Env, memory: Memory)
    requires StaticType(e, slots).Some? && Holds(slots, memory, env)
    ensures var r := Gen(e, slots, fold, []);
            && WellFormed(r.code) && r.value.Some? && TypeOf(r.value.value) == StaticType(e, slots).value
            && (Meaning(e, env).Some? <==> Yields(r, memory).Some?)
            && (Meaning(e, env).Some? ==>
                  var (v, env') := Meaning(e, env).value;
                  && Yields(r, memory) == Some(Rep(v)) && Rep(v).ty == StaticType(e, slots).value
                  && Holds(slots, Run(r.code, memory).value.memory, env'))
  {
    hide Gen, Meaning, StaticType, Holds, WellFormed;
    NothingIsWellFormed();
    GenShape(e, slots, fold, []);
    GenTyped(e, slots, fold, []);
    var r, m := Gen(e, slots, fold, []), Machine([], memory);
    if Meaning(e, env).Some? {
      GenMeans(e, slots, fold, [], env, m, memory);
      ReadType(r.value.value, Run(r.code, memory).value.regs);
    } else {
      GenFails(e, slots, fold, [], env, m, memory);
    }
  }

  lemma {:induction false} NothingIsWellFormed()
    ensures WellFormed([])
  {
  }

  /** The value that running a block leaves. */
  function Yields(r: Emitted, memory: Memory): Option<Val> {
    if r.value.Some? && Run(r.code, memory).Some? then Read(r.value.value, Run(r.code, memory).value.regs) else None
  }

  /** The visitors: `code` is the block that the builder appends to. */
  class IRGenerator {
    const folds: bool
    const namedValues: Slots
    var code: seq<Instr>
    var lastValue: Option<Operand>

    constructor (foldConstants: bool, variables: Slots)
      ensures folds == foldConstants && namedValues == variables && code == [] && lastValue == None
    {
      folds, namedValues, code, lastValue := foldConstants, variables, [], None;
    }

    method Insert(ins: Instr) returns (x: Operand)
      modifies this`code
      ensures code == old(code) + [ins]
      ensures x == Reg(|old(code)|, if ins.Load? then ins.lty else if ins.Op? then ResultType(ins.op, ins.a) else I1)
    {
      x := Reg(|code|, if ins.Load? then ins.lty else if ins.Op? then ResultType(ins.op, ins.a) else I1);
      code := code + [ins];
    }

    method CreateOp(op: Opcode, a: Operand, b: Operand) returns (x: Operand)
      modifies this`code
      ensures var r := Create(folds, old(code), op, a, b); code == r.code && Some(x) == r.value
    {
      if folds && !a.Reg? && !b.Reg? {
        x := Folded(op, a, b);
      } else {
        x := Insert(Op(op, a, b));
      }
    }

    method AsBool(a: Operand) returns (x: Operand)
      modifies this`code
      ensures var r := ToBool(folds, old(code), a); code == r.code && Some(x) == r.value
    {
      x := CreateOp(CmpNe, a, ConstantInt(TypeOf(a), 0));
    }

    method Negation(a: Operand) returns (x: Operand)
      modifies this`code
      ensures var r := CreateNot(folds, old(code), a); code == r.code && Some(x) == r.value
    {
      x := CreateOp(OpXor, a, ConstantInt(TypeOf(a), -1));
    }

    /** accept. The visitors of the other expressions are not part of this model. */
    method Visit(e: Expr)
      modifies this
      ensures var r := Gen(e, namedValues, folds, old(code)); code == r.code && lastValue == r.value
      decreases e, 1
    {
      match e
      case Literal(_, _, _) => VisitLiteralExpr(e);
      case Variable(_, _) => VisitVariableExpr(e);
      case Grouping(_, inner) => Visit(inner);
      case Unary(_, _) => VisitUnaryExpr(e);
      case Binary(_, _, _) => VisitBinaryExpr(e);
      case _ => lastValue := None;
    }

    method VisitLiteralExpr(e: Expr)
      requires e.Literal?
      modifies this
      ensures var r := Gen(e, namedValues, folds, old(code)); code == r.code && lastValue == r.value
    {
      match e.literalType
      case Integer =>
        var value := Stoll(e.text);
        lastValue := if value.Some? then Some(Constant(Val(I64, value.value))) else None;
      case Boolean =>
        lastValue := Some(Constant(Truth(e.text == "true")));
      case _ =>
        lastValue := None;
    }

    method VisitVariableExpr(e: Expr)
      requires e.Variable?
      modifies this
      ensures var r := Gen(e, namedValues, folds, old(code)); code == r.code && lastValue == r.value
    {
      if e.name in namedValues {
        var x := Insert(Load(e.name, namedValues[e.name]));
        lastValue := Some(x);
      } else {
        lastValue := Some(Constant(Val(I32, 0)));
      }
    }

    method VisitUnaryExpr(e: Expr)
      requires e.Unary?
      modifies this
      ensures var r := Gen(e, namedValues, folds, old(code)); code == r.code && lastValue == r.value
      decreases e, 0
    {
      hide Create, ToBool, ConstantInt, Steps;
      Visit(e.right);
      if lastValue == None {
        return;
      }
      var operand := lastValue.value;
      EmitUnary(e.op.kind, e.right, operand);
    }

    method EmitUnary(k: Kind, right: Expr, operand: Operand)
      modifies this
      ensures var r := GenUnary(k, right, operand, namedValues, folds, old(code));
              code == r.code && lastValue == r.value
    {
      hide CreateNeg, CreateNot, GenNot, GenStep, IsComplement, Steps;
      if k == Minus {
        EmitNeg(operand);
      } else if k == Bang {
        EmitNot(operand);
      } else if IsComplement(k) {
        EmitComplement(operand);
      } else if Steps(k) && right.Variable? && right.name in namedValues {
        EmitStep(k, right.name, TypeOf(operand));
      } else {
        lastValue := None;
      }
    }

    method EmitNeg(operand: Operand)
      modifies this
      ensures var r := CreateNeg(folds, old(code), operand); code == r.code && lastValue == r.value
    {
      hide Create, ConstantInt;
      var x := CreateOp(OpSub, ConstantInt(TypeOf(operand), 0), operand);
      lastValue := Some(x);
    }

    method EmitComplement(operand: Operand)
      modifies this
      ensures var r := CreateNot(folds, old(code), operand); code == r.code && lastValue == r.value
    {
      hide CreateNot;
      var x := Negation(operand);
      lastValue := Some(x);
    }

    method EmitNot(operand: Operand)
      modifies this
      ensures var r := GenNot(operand, folds, old(code)); code == r.code && lastValue == r.value
    {
      hide CreateNot, ToBool;
      var b := operand;
      if TypeOf(operand) != I1 {
        b := AsBool(operand);
      }
      var x := Negation(b);
      lastValue := Some(x);
    }

    method EmitStep(k: Kind, name: string, ty: Type)
      modifies this
      ensures var r := GenStep(k, name, ty, folds, old(code)); code == r.code && lastValue == r.value
    {
      hide Create, ConstantInt;
      var currentValue := Insert(Load(name, ty));
      var newValue := CreateOp(if k == Other("++") then OpAdd else OpSub, currentValue, ConstantInt(ty, 1));
      var _ := Insert(Store(name, newValue));
      lastValue := Some(newValue);
    }

    method VisitBinaryExpr(e: Expr)
      requires e.Binary?
      modifies this
      ensures var r := Gen(e, namedValues, folds, old(code)); code == r.code && lastValue == r.value
      decreases e, 0
    {
      hide GenBinary;
      Visit(e.left);
      if lastValue == None {
        return;
      }
      var left := lastValue.value;
      Visit(e.right);
      if lastValue == None {
        return;
      }
      var right := lastValue.value;
      EmitBinary(e.op.kind, left, right);
    }

    method EmitBinary(k: Kind, left: Operand, right: Operand)
      modifies this
      ensures var r := GenBinary(k, left, right, folds, old(code)); code == r.code && lastValue == r.value
    {
      hide Create, ToBool, OpcodeOf;
      if k == And || k == Or {
        var l, r := left, right;
        if !(TypeOf(left) == I1 && TypeOf(right) == I1) {
          l := AsBool(left);
          r := AsBool(right);
        }
        var x := CreateOp(if k == And then OpAnd else OpOr, l, r);
        lastValue := Some(x);
      } else if OpcodeOf(k).Some? {
        var x := CreateOp(OpcodeOf(k).value, left, right);
        lastValue := Some(x);
      } else {
        lastValue := None;
      }
    }
  }
}
