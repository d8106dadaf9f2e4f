/** A basic block of the intermediate representation that the code generator emits. */
module Ir {
  // Integer types, loads, stores and two-operand instructions in static single assignment, where an instruction is
  // named by its position.

  import opened Wrappers

  datatype Type = I64 | I32 | I1

  /** An integer of some width, as a signed number: the i1 true is -1. */
  datatype Val = Val(ty: Type, n: int)

  datatype Opcode =
    | OpAdd | OpSub | OpMul | OpSDiv | OpSRem | OpAnd | OpOr | OpXor | OpShl | OpAShr
    | CmpEq | CmpNe | CmpSlt | CmpSle | CmpSgt | CmpSge

  /** Poison is what folding an undefined operation on constants gives. */
  datatype Operand = Constant(v: Val) | Poison(pty: Type) | Reg(i: nat, rty: Type)

  datatype Instr =
    | Load(slot: string, lty: Type)
    | Store(slot: string, x: Operand)
    | Op(op: Opcode, a: Operand, b: Operand)

  function TypeOf(x: Operand): Type {
    match x
    case Constant(v) => v.ty
    case Poison(ty) => ty
    case Reg(_, ty) => ty
  }

  predicate IsCompare(op: Opcode) {
    op == CmpEq || op == CmpNe || op == CmpSlt || op == CmpSle || op == CmpSgt || op == CmpSge
  }

  function ResultType(op: Opcode, a: Operand): Type {
    if IsCompare(op) then I1 else TypeOf(a)
  }

  // Arithmetic

  function Pow2(k: nat): (r: int)
    ensures r > 0
  {
    if k == 0 then 1 else 2 * Pow2(k - 1)
  }

  /** The number of bits besides the sign. */
  function Bits(ty: Type): nat {
    match ty
    case I64 => 63
    case I32 => 31
    case I1 => 0
  }

  predicate InRange(n: int, k: nat) {
    -Pow2(k) <= n < Pow2(k)
  }

  /** The signed number that has the same low bits. */
  function Wrap(n: int, k: nat): (r: int)
    ensures InRange(r, k)
  {
    (n + Pow2(k)) % (2 * Pow2(k)) - Pow2(k)
  }

  lemma {:induction false} SmallMod(x: int, m: int)
    requires 0 <= x < m
    ensures x % m == x
  {
  }

  lemma {:induction false} WrapInRange(n: int, k: nat)
    requires InRange(n, k)
    ensures Wrap(n, k) == n
  {
    hide Pow2;
    SmallMod(n + Pow2(k), 2 * Pow2(k));
  }

  datatype Gate = AndGate | OrGate | XorGate

  function ApplyGate(g: Gate, a: bool, b: bool): bool {
    match g
    case AndGate => a && b
    case OrGate => a || b
    case XorGate => a != b
  }

  /** A gate applied bit by bit to the k low bits and the sign. */
  function Bitwise(g: Gate, a: int, b: int, k: nat): int
    decreases k
  {
    if k == 0 then if ApplyGate(g, a < 0, b < 0) then -1 else 0
    else 2 * Bitwise(g, a / 2, b / 2, k - 1) + if ApplyGate(g, a % 2 == 1, b % 2 == 1) then 1 else 0
  }

  /** Exclusive or with all ones is the complement. */
  lemma {:induction false} XorOnes(n: int, k: nat)
    requires InRange(n, k)
    ensures Bitwise(XorGate, n, -1, k) == -n - 1
    decreases k
  {
    if k > 0 {
      XorOnes(n / 2, k - 1);
    }
  }

  function TruncDiv(a: int, b: int): int
    requires b != 0
  {
    if (a >= 0) == (b > 0) then Abs(a) / Abs(b) else -(Abs(a) / Abs(b))
  }

  function Abs(a: int): nat {
    if a < 0 then -a else a
  }

  /** Division by zero and overflow of the quotient are undefined. */
  predicate Divides(a: int, b: int, k: nat) {
    b != 0 && !(a == -Pow2(k) && b == -1)
  }

  function Truth(b: bool): Val {
    Val(I1, if b then -1 else 0)
  }

  /** None for operands of different types and for undefined operations. */
  function Compute(op: Opcode, x: Val, y: Val): Option<Val> {
    var (a, b, k) := (x.n, y.n, Bits(x.ty));
    if x.ty != y.ty then None
    else if IsCompare(op) then Some(Truth(Compare(op, a, b)))
    else if op == OpSDiv then if Divides(a, b, k) then Some(Val(x.ty, Wrap(TruncDiv(a, b), k))) else None
    else if op == OpSRem then if Divides(a, b, k) then Some(Val(x.ty, Wrap(a - b * TruncDiv(a, b), k))) else None
    else if op == OpShl then if 0 <= b <= k then Some(Val(x.ty, Wrap(a * Pow2(b), k))) else None
    else if op == OpAShr then if 0 <= b <= k then Some(Val(x.ty, Wrap(a / Pow2(b), k))) else None
    else Some(Val(x.ty, Wrap(Total(op, a, b, k), k)))
  }

  predicate Compare(op: Opcode, a: int, b: int)
    requires IsCompare(op)
  {
    match op
    case CmpEq => a == b
    case CmpNe => a != b
    case CmpSlt => a < b
    case CmpSle => a <= b
    case CmpSgt => a > b
    case CmpSge => a >= b
  }

  /** The operations that are defined on all operands, before wrapping. */
  function Total(op: Opcode, a: int, b: int, k: nat): int {
    match op
    case OpAdd => a + b
    case OpSub => a - b
    case OpMul => a * b
    case OpAnd => Bitwise(AndGate, a, b, k)
    case OpOr => Bitwise(OrGate, a, b, k)
    case OpXor => Bitwise(XorGate, a, b, k)
    case _ => 0
  }

  // Running a block

  type Memory = map<string, Val>

  /** What each instruction so far has produced, and the slots. */
  datatype Machine = Machine(regs: seq<Val>, memory: Memory)

  function Read(x: Operand, regs: seq<Val>): Option<Val> {
    match x
    case Constant(v) => Some(v)
    case Poison(_) => None
    case Reg(i, ty) => if i < |regs| && regs[i].ty == ty then Some(regs[i]) else None
  }

  function Execute(ins: Instr, m: Machine): Option<Machine> {
    match ins
    case Load(slot, ty) =>
      if slot in m.memory && m.memory[slot].ty == ty then Some(Machine(m.regs + [m.memory[slot]], m.memory)) else None
    case Store(slot, x) =>
      var v := Read(x, m.regs);
      if v.Some? && slot in m.memory && v.value.ty == m.memory[slot].ty then
        Some(Machine(m.regs + [v.value], m.memory[slot := v.value]))
      else None
    case Op(op, a, b) =>
      var x, y := Read(a, m.regs), Read(b, m.regs);
      if x.Some? && y.Some? && Compute(op, x.value, y.value).Some? then
        Some(Machine(m.regs + [Compute(op, x.value, y.value).value], m.memory))
      else None
  }

  /** The machine after a block, if nothing undefined happens on the way. */
  function Run(code: seq<Instr>, memory: Memory): Option<Machine> {
    if code == [] then Some(Machine([], memory))
    else
      var before := Run(code[..|code| - 1], memory);
      if before.Some? then Execute(code[|code| - 1], before.value) else None
  }

  lemma {:induction false} RunMore(code: seq<Instr>, ins: Instr, memory: Memory)
    ensures Run(code + [ins], memory)
         == if Run(code, memory).Some? then Execute(ins, Run(code, memory).value) else None
  {
    assert (code + [ins])[..|code|] == code;
  }

  /** Operands are constants or earlier instructions. */
  predicate Earlier(x: Operand, n: nat) {
    x.Reg? ==> x.i < n
  }

  predicate InstrFits(ins: Instr, n: nat) {
    match ins
    case Load(_, _) => true
    case Store(_, x) => Earlier(x, n)
    case Op(_, a, b) => Earlier(a, n) && Earlier(b, n)
  }

  ghost predicate WellFormed(code: seq<Instr>) {
    forall i :: 0 <= i < |code| ==> InstrFits(code[i], i)
  }
}
