/**
  Expressions of the intermediate representation: meaning, and the folding
  constructors that build them.
 */
module Ir {
  import opened Bits

  datatype Xlen = Rv32 | Rv64

  datatype UnaryOp =
    | Not | Neg | Sext8 | Sext16 | Sext32 | Zext8 | Zext16 | Zext32
    | Clz | Ctz | Cpop | Clz32 | Ctz32 | Cpop32 | Orc8 | Rev8 | Brev8 | Zip | Unzip

  datatype BinaryOp =
    | Add | Sub | Mul | MulH | MulHSU | MulHU | Div | DivU | Rem | RemU
    | And | Or | Xor | Sll | Srl | Sra | Eq | Ne | Lt | Ge | Ltu | Geu
    | AddW | SubW | MulW | DivW | DivUW | RemW | RemUW | SllW | SrlW | SraW
    | Pack | Pack8 | Pack16

  datatype Width = W1 | W2 | W4 | W8

  datatype Expr =
    | Imm(value: nat)
    | Reg(index: nat)
    | Temp(index: nat)
    | ResAddr
    | ResValid
    | Mem(base: Expr, offset: int, width: Width, signed: bool)
    | MemAddr(addr: Expr, width: Width, signed: bool)
    | Other(id: nat)
    | Unary(op1: UnaryOp, arg: Expr)
    | Binary(op2: BinaryOp, left: Expr, right: Expr)
    | Select(cond: Expr, yes: Expr, no: Expr)
    | Call(name: string, args: seq<Expr>)

  /** What the model leaves open: multiplication, division, bit counting, shifts by too
      much, system registers and calls. */
  datatype Env = Env(unary: (UnaryOp, nat) -> nat, binary: (BinaryOp, nat, nat) -> nat,
                     other: nat -> nat, call: (string, seq<nat>) -> nat)

  /** The state expressions read and statements write. */
  datatype State = State(regs: seq<nat>, temps: map<nat, nat>, mem: nat -> Byte, resAddr: nat, resValid: nat)

  // ----- words -----

  /** Arithmetic wraps around at the register width. */
  function Wrap(x: Xlen, v: int): nat {
    match x
    case Rv32 => v % 0x1_0000_0000
    case Rv64 => v % 0x1_0000_0000_0000_0000
  }

  predicate Fits(x: Xlen, v: nat) {
    match x
    case Rv32 => v < 0x1_0000_0000
    case Rv64 => v < 0x1_0000_0000_0000_0000
  }

  function BitsOf(x: Xlen): nat {
    match x
    case Rv32 => 32
    case Rv64 => 64
  }

  /** The low bits as a signed number. */
  function Signed8(v: nat): int {
    if v % 0x100 < 0x80 then v % 0x100 else v % 0x100 - 0x100
  }

  function Signed16(v: nat): int {
    if v % 0x1_0000 < 0x8000 then v % 0x1_0000 else v % 0x1_0000 - 0x1_0000
  }

  function Signed32(v: nat): int {
    if v % 0x1_0000_0000 < 0x8000_0000 then v % 0x1_0000_0000 else v % 0x1_0000_0000 - 0x1_0000_0000
  }

  /** A register value as a signed number. */
  function Signed(x: Xlen, v: nat): int {
    match x
    case Rv32 => Signed32(v)
    case Rv64 => if v < 0x8000_0000_0000_0000 then v else v - 0x1_0000_0000_0000_0000
  }

  // ----- memory -----

  function ByteAt(x: Xlen, mem: nat -> Byte, addr: nat, i: nat): Byte {
    mem(Wrap(x, addr + i))
  }

  function Load4(x: Xlen, mem: nat -> Byte, addr: nat): (v: nat)
    ensures v < 0x1_0000_0000
  {
    ByteAt(x, mem, addr, 0) + 0x100 * ByteAt(x, mem, addr, 1)
    + 0x1_0000 * ByteAt(x, mem, addr, 2) + 0x100_0000 * ByteAt(x, mem, addr, 3)
  }

  /** Little-endian. */
  function Load(x: Xlen, mem: nat -> Byte, addr: nat, width: Width): nat {
    match width
    case W1 => ByteAt(x, mem, addr, 0)
    case W2 => ByteAt(x, mem, addr, 0) + 0x100 * ByteAt(x, mem, addr, 1)
    case W4 => Load4(x, mem, addr)
    case W8 => Load4(x, mem, addr) + 0x1_0000_0000 * Load4(x, mem, addr + 4)
  }

  function LoadExtended(x: Xlen, mem: nat -> Byte, addr: nat, width: Width, signed: bool): nat {
    var raw := Load(x, mem, addr, width);
    if !signed || width.W8? then Wrap(x, raw)
    else Wrap(x, match width
                 case W1 => Signed8(raw)
                 case W2 => Signed16(raw)
                 case _ => Signed32(raw))
  }

  // ----- meaning -----

  function Truth(b: bool): nat {
    if b then 1 else 0
  }

  function EvalUnary(x: Xlen, env: Env, op: UnaryOp, v: nat): nat {
    match op
    case Not => Wrap(x, -1 - v as int)
    case Neg => Wrap(x, 0 - v as int)
    case Sext8 => Wrap(x, Signed8(v))
    case Sext16 => Wrap(x, Signed16(v))
    case Sext32 => Wrap(x, Signed32(v))
    case Zext8 => v % 0x100
    case Zext16 => v % 0x1_0000
    case Zext32 => v % 0x1_0000_0000
    case _ => Wrap(x, env.unary(op, v))
  }

  /** Shifts by less than the width; beyond, the result is open. */
  function EvalShift(x: Xlen, env: Env, op: BinaryOp, l: nat, r: nat): nat
    requires op.Sll? || op.Srl? || op.Sra? || op.SllW? || op.SrlW? || op.SraW?
  {
    var word := op.SllW? || op.SrlW? || op.SraW?;
    if r >= (if word then 32 else BitsOf(x)) then Wrap(x, env.binary(op, l, r))
    else match op
      case Sll => Wrap(x, ShiftLeft(l, r))
      case Srl => Wrap(x, ShiftRight(l, r))
      case Sra => Wrap(x, ShiftRight(Signed(x, l), r))
      case SllW => Wrap(x, Signed32(ShiftLeft(l % 0x1_0000_0000, r)))
      case SrlW => Wrap(x, Signed32(ShiftRight(l % 0x1_0000_0000, r)))
      case SraW => Wrap(x, ShiftRight(Signed32(l), r))
  }

  function EvalBinary(x: Xlen, env: Env, op: BinaryOp, l: nat, r: nat): nat {
    match op
    case Add => Wrap(x, l + r)
    case Sub => Wrap(x, l as int - r)
    case And => Wrap(x, Bitwise(AndBits, l, r))
    case Or => Wrap(x, Bitwise(OrBits, l, r))
    case Xor => Wrap(x, Bitwise(XorBits, l, r))
    case Eq => Truth(l == r)
    case Ne => Truth(l != r)
    case Lt => Truth(Signed(x, l) < Signed(x, r))
    case Ge => Truth(Signed(x, l) >= Signed(x, r))
    case Ltu => Truth(l < r)
    case Geu => Truth(l >= r)
    case AddW => Wrap(x, Signed32(l + r))
    case SubW => Wrap(x, Signed32(Wrap(Rv64, l as int - r)))
    case Sll => EvalShift(x, env, op, l, r)
    case Srl => EvalShift(x, env, op, l, r)
    case Sra => EvalShift(x, env, op, l, r)
    case SllW => EvalShift(x, env, op, l, r)
    case SrlW => EvalShift(x, env, op, l, r)
    case SraW => EvalShift(x, env, op, l, r)
    case _ => Wrap(x, env.binary(op, l, r))
  }

  function ReadReg(s: State, r: nat): nat {
    if r == 0 || r >= |s.regs| then 0 else s.regs[r]
  }

  function LoadAt(x: Xlen, mem: nat -> Byte, base: nat, offset: int, width: Width, signed: bool): nat {
    LoadExtended(x, mem, Wrap(x, base + offset), width, signed)
  }

  function Eval(x: Xlen, env: Env, s: State, e: Expr): nat
    decreases e
  {
    match e
    case Imm(v) => Wrap(x, v)
    case Reg(r) => Wrap(x, ReadReg(s, r))
    case Temp(i) => Wrap(x, if i in s.temps then s.temps[i] else 0)
    case ResAddr => Wrap(x, s.resAddr)
    case ResValid => Wrap(x, s.resValid)
    case Mem(base, offset, width, signed) => LoadAt(x, s.mem, Eval(x, env, s, base), offset, width, signed)
    case MemAddr(addr, width, signed) => LoadExtended(x, s.mem, Eval(x, env, s, addr), width, signed)
    case Other(id) => Wrap(x, env.other(id))
    case Unary(op, arg) => EvalUnary(x, env, op, Eval(x, env, s, arg))
    case Binary(op, left, right) => EvalBinary(x, env, op, Eval(x, env, s, left), Eval(x, env, s, right))
    case Select(cond, yes, no) => if Eval(x, env, s, cond) != 0 then Eval(x, env, s, yes) else Eval(x, env, s, no)
    case Call(name, args) => Wrap(x, env.call(name, EvalAll(x, env, s, args)))
  }

  function EvalAll(x: Xlen, env: Env, s: State, es: seq<Expr>): seq<nat>
    decreases es
  {
    if es == [] then [] else [Eval(x, env, s, es[0])] + EvalAll(x, env, s, es[1..])
  }

  lemma UnaryFits(x: Xlen, env: Env, op: UnaryOp, v: nat)
    ensures Fits(x, EvalUnary(x, env, op, v))
  {
  }

  lemma BinaryFits(x: Xlen, env: Env, op: BinaryOp, l: nat, r: nat)
    ensures Fits(x, EvalBinary(x, env, op, l, r))
  {
  }

  /** Values fit the register width. */
  lemma {:induction false} EvalFits(x: Xlen, env: Env, s: State, e: Expr)
    ensures Fits(x, Eval(x, env, s, e))
    decreases e
  {
    match e
    case Unary(op, arg) => UnaryFits(x, env, op, Eval(x, env, s, arg));
    case Binary(op, left, right) => BinaryFits(x, env, op, Eval(x, env, s, left), Eval(x, env, s, right));
    case Select(cond, yes, no) =>
      EvalFits(x, env, s, yes);
      EvalFits(x, env, s, no);
    case _ =>
  }

  // ----- folding constructors -----

  predicate IsZero(x: Xlen, e: Expr) {
    match e
    case Imm(v) => Wrap(x, v) == 0
    case Reg(r) => r == 0
    case _ => false
  }

  /** Constants are folded in 64 bits and then cut to the register width. */
  function Folded(x: Xlen, v: int): Expr {
    Imm(Wrap(x, Wrap(Rv64, v)))
  }

  function MakeAdd(x: Xlen, l: Expr, r: Expr): Expr {
    if l.Imm? && r.Imm? then Folded(x, Wrap(x, l.value) + Wrap(x, r.value))
    else if IsZero(x, r) then l
    else if IsZero(x, l) then r
    else Binary(Add, l, r)
  }

  function MakeSub(x: Xlen, l: Expr, r: Expr): Expr {
    if l.Imm? && r.Imm? then Folded(x, Wrap(x, l.value) as int - Wrap(x, r.value))
    else if IsZero(x, r) then l
    else if IsZero(x, l) then Unary(Neg, r)
    else Binary(Sub, l, r)
  }

  function MakeAnd(x: Xlen, l: Expr, r: Expr): Expr {
    if l.Imm? && r.Imm? then Folded(x, Bitwise(AndBits, Wrap(x, l.value), Wrap(x, r.value)))
    else Binary(And, l, r)
  }

  /** Or and exclusive or. */
  function MakeOrXor(x: Xlen, op: BinaryOp, bits: BitOp, l: Expr, r: Expr): Expr {
    if l.Imm? && r.Imm? then Folded(x, Bitwise(bits, Wrap(x, l.value), Wrap(x, r.value)))
    else if IsZero(x, r) then l
    else if IsZero(x, l) then r
    else Binary(op, l, r)
  }

  function MakeShift(x: Xlen, op: BinaryOp, l: Expr, r: Expr): Expr {
    if IsZero(x, r) then l else Binary(op, l, r)
  }

  function MakeLtu(x: Xlen, l: Expr, r: Expr): Expr {
    if IsZero(x, l) then Binary(Ne, r, Imm(0)) else Binary(Ltu, l, r)
  }

  function MakeSext32(x: Xlen, e: Expr): Expr {
    if e.Imm? then Folded(x, Signed32(Wrap(x, e.value))) else Unary(Sext32, e)
  }

  function MakeUnary(x: Xlen, op: UnaryOp, e: Expr): Expr {
    match op
    case Sext32 => MakeSext32(x, e)
    case Sext16 => if e.Imm? then Folded(x, Signed16(Wrap(x, e.value))) else Unary(op, e)
    case Sext8 => if e.Imm? then Folded(x, Signed8(Wrap(x, e.value))) else Unary(op, e)
    case Zext8 => if e.Imm? then Folded(x, Wrap(x, e.value) % 0x100) else Unary(op, e)
    case Zext16 => if e.Imm? then Folded(x, Wrap(x, e.value) % 0x1_0000) else Unary(op, e)
    case Zext32 => if e.Imm? then Folded(x, Wrap(x, e.value) % 0x1_0000_0000) else Unary(op, e)
    case _ => Unary(op, e)
  }

  function MakeAddW(x: Xlen, l: Expr, r: Expr): Expr {
    if IsZero(x, r) then MakeSext32(x, l)
    else if IsZero(x, l) then MakeSext32(x, r)
    else Binary(AddW, l, r)
  }

  function MakeSubW(x: Xlen, l: Expr, r: Expr): Expr {
    if IsZero(x, r) then MakeSext32(x, l)
    else if IsZero(x, l) then MakeSext32(x, Unary(Neg, r))
    else Binary(SubW, l, r)
  }

  function MakeShiftW(x: Xlen, op: BinaryOp, l: Expr, r: Expr): Expr {
    if IsZero(x, r) then MakeSext32(x, l) else Binary(op, l, r)
  }

  function MakeBinary(x: Xlen, op: BinaryOp, l: Expr, r: Expr): Expr {
    match op
    case Add => MakeAdd(x, l, r)
    case Sub => MakeSub(x, l, r)
    case And => MakeAnd(x, l, r)
    case Or => MakeOrXor(x, op, OrBits, l, r)
    case Xor => MakeOrXor(x, op, XorBits, l, r)
    case Sll => MakeShift(x, op, l, r)
    case Srl => MakeShift(x, op, l, r)
    case Sra => MakeShift(x, op, l, r)
    case Ltu => MakeLtu(x, l, r)
    case AddW => MakeAddW(x, l, r)
    case SubW => MakeSubW(x, l, r)
    case SllW => MakeShiftW(x, op, l, r)
    case SrlW => MakeShiftW(x, op, l, r)
    case SraW => MakeShiftW(x, op, l, r)
    case _ => Binary(op, l, r)
  }

  // ----- the constructors keep the meaning -----

  lemma FoldedMeans(x: Xlen, env: Env, s: State, v: int)
    ensures Eval(x, env, s, Folded(x, v)) == Wrap(x, v)
  {
    WrapTwice(x, v);
    WrapTwice(x, Wrap(Rv64, v));
    WrapFits(x, Wrap(x, Wrap(Rv64, v)));
  }

  lemma WrapTwice(x: Xlen, v: int)
    ensures Wrap(x, Wrap(Rv64, v)) == Wrap(x, v)
  {
    if x.Rv32? {
      var q := v / 0x1_0000_0000_0000_0000;
      assert v == 0x1_0000_0000 * (0x1_0000_0000 * q) + v % 0x1_0000_0000_0000_0000;
    }
  }

  lemma Sext32Sound(x: Xlen, env: Env, s: State, e: Expr)
    ensures Eval(x, env, s, MakeSext32(x, e)) == Wrap(x, Signed32(Eval(x, env, s, e)))
  {
    if e.Imm? {
      FoldedMeans(x, env, s, Signed32(Wrap(x, e.value)));
    }
  }

  /** The value a unary constructor folds a constant to. */
  function FoldOf(op: UnaryOp, v: nat): int
    requires op.Sext16? || op.Sext8? || op.Zext8? || op.Zext16? || op.Zext32?
  {
    match op
    case Sext16 => Signed16(v)
    case Sext8 => Signed8(v)
    case Zext8 => v % 0x100
    case Zext16 => v % 0x1_0000
    case Zext32 => v % 0x1_0000_0000
  }

  lemma FoldFits(x: Xlen, env: Env, op: UnaryOp, v: nat)
    requires Fits(x, v) && (op.Sext16? || op.Sext8? || op.Zext8? || op.Zext16? || op.Zext32?)
    ensures Wrap(x, FoldOf(op, v)) == EvalUnary(x, env, op, v)
  {
  }

  lemma UnarySound(x: Xlen, env: Env, s: State, op: UnaryOp, e: Expr)
    ensures Eval(x, env, s, MakeUnary(x, op, e)) == Eval(x, env, s, Unary(op, e))
  {
    if op.Sext32? {
      Sext32Sound(x, env, s, e);
    } else if e.Imm? && (op.Sext16? || op.Sext8? || op.Zext8? || op.Zext16? || op.Zext32?) {
      var v := Wrap(x, e.value);
      FoldedMeans(x, env, s, FoldOf(op, v));
      EvalFits(x, env, s, e);
      FoldFits(x, env, op, v);
    }
  }

  lemma WrapFits(x: Xlen, v: nat)
    requires Fits(x, v)
    ensures Wrap(x, v) == v
  {
  }

  lemma ZeroMeans(x: Xlen, env: Env, s: State, e: Expr)
    requires IsZero(x, e)
    ensures Eval(x, env, s, e) == 0
  {
  }

  /** A constructor that gives back one operand when the other is zero. */
  lemma AddSubSound(x: Xlen, env: Env, s: State, op: BinaryOp, l: Expr, r: Expr)
    requires op.Add? || op.Sub?
    ensures Eval(x, env, s, MakeBinary(x, op, l, r)) == Eval(x, env, s, Binary(op, l, r))
  {
    var a, b := Eval(x, env, s, l), Eval(x, env, s, r);
    if l.Imm? && r.Imm? {
      FoldedMeans(x, env, s, if op.Add? then a + b else a as int - b);
    } else if IsZero(x, r) {
      ZeroMeans(x, env, s, r);
      ZeroChangesNothing(x, env, s, l);
    } else if IsZero(x, l) {
      ZeroMeans(x, env, s, l);
      ZeroChangesNothing(x, env, s, r);
    }
  }

  lemma ZeroChangesNothing(x: Xlen, env: Env, s: State, e: Expr)
    ensures var v := Eval(x, env, s, e); Wrap(x, v + 0) == v && Wrap(x, 0 + v) == v && Wrap(x, v as int - 0) == v
  {
    EvalFits(x, env, s, e);
    WrapFits(x, Eval(x, env, s, e));
  }

  lemma BitwiseSound(x: Xlen, env: Env, s: State, op: BinaryOp, l: Expr, r: Expr)
    requires op.And? || op.Or? || op.Xor?
    ensures Eval(x, env, s, MakeBinary(x, op, l, r)) == Eval(x, env, s, Binary(op, l, r))
  {
    var a, b := Eval(x, env, s, l), Eval(x, env, s, r);
    var bits := if op.And? then AndBits else if op.Or? then OrBits else XorBits;
    if l.Imm? && r.Imm? {
      FoldedMeans(x, env, s, Bitwise(bits, a, b));
    } else if !op.And? && IsZero(x, r) {
      ZeroMeans(x, env, s, r);
      EvalFits(x, env, s, l);
      WrapFits(x, a);
      OrXorZero(bits, a);
    } else if !op.And? && IsZero(x, l) {
      ZeroMeans(x, env, s, l);
      EvalFits(x, env, s, r);
      WrapFits(x, b);
      OrXorZero(bits, b);
    }
  }

  lemma NegationWraps(v: nat)
    requires v < 0x1_0000_0000
    ensures ((0 - v as int) % 0x1_0000_0000_0000_0000) % 0x1_0000_0000 == (0 - v as int) % 0x1_0000_0000
  {
    if v > 0 {
      assert (0 - v as int) % 0x1_0000_0000_0000_0000 == 0x1_0000_0000_0000_0000 - v;
      assert (0x1_0000_0000_0000_0000 - v) % 0x1_0000_0000 == 0x1_0000_0000 - v;
    }
  }

  lemma WordZero(x: Xlen, v: nat)
    requires Fits(x, v)
    ensures Wrap(Rv64, v as int - 0) == v
    ensures Wrap(x, Signed32(Wrap(x, 0 - v as int))) == Wrap(x, Signed32(Wrap(Rv64, 0 - v as int)))
  {
    if x.Rv32? {
      NegationWraps(v);
      assert Wrap(x, 0 - v as int) % 0x1_0000_0000 == Wrap(Rv64, 0 - v as int) % 0x1_0000_0000;
    }
  }

  lemma AddWSound(x: Xlen, env: Env, s: State, l: Expr, r: Expr)
    ensures Eval(x, env, s, MakeAddW(x, l, r)) == Eval(x, env, s, Binary(AddW, l, r))
  {
    if IsZero(x, r) {
      ZeroMeans(x, env, s, r);
      Sext32Sound(x, env, s, l);
    } else if IsZero(x, l) {
      ZeroMeans(x, env, s, l);
      Sext32Sound(x, env, s, r);
    }
  }

  lemma SubWSound(x: Xlen, env: Env, s: State, l: Expr, r: Expr)
    ensures Eval(x, env, s, MakeSubW(x, l, r)) == Eval(x, env, s, Binary(SubW, l, r))
  {
    if IsZero(x, r) {
      ZeroMeans(x, env, s, r);
      EvalFits(x, env, s, l);
      WordZero(x, Eval(x, env, s, l));
      Sext32Sound(x, env, s, l);
    } else if IsZero(x, l) {
      ZeroMeans(x, env, s, l);
      NegatedWord(x, env, s, l, r);
    }
  }

  lemma NegatedWord(x: Xlen, env: Env, s: State, l: Expr, r: Expr)
    requires Eval(x, env, s, l) == 0
    ensures Eval(x, env, s, MakeSext32(x, Unary(Neg, r))) == Eval(x, env, s, Binary(SubW, l, r))
  {
    EvalFits(x, env, s, r);
    WordZero(x, Eval(x, env, s, r));
    Sext32Sound(x, env, s, Unary(Neg, r));
  }

  lemma SignedWraps(x: Xlen, v: nat)
    requires Fits(x, v)
    ensures Wrap(x, Signed(x, v)) == v
  {
  }

  lemma ShiftZero(x: Xlen, env: Env, op: BinaryOp, v: nat)
    requires Fits(x, v) && (op.Sll? || op.Srl? || op.Sra?)
    ensures EvalShift(x, env, op, v, 0) == v
  {
    ShiftByZero(v);
    ShiftByZero(Signed(x, v));
    WrapFits(x, v);
    SignedWraps(x, v);
  }

  lemma WordShiftZero(x: Xlen, env: Env, op: BinaryOp, v: nat)
    requires op.SllW? || op.SrlW? || op.SraW?
    ensures EvalShift(x, env, op, v, 0) == Wrap(x, Signed32(v))
  {
    ShiftByZero(v % 0x1_0000_0000);
    ShiftByZero(Signed32(v));
    assert Signed32(v % 0x1_0000_0000) == Signed32(v);
  }

  lemma ShiftSound(x: Xlen, env: Env, s: State, op: BinaryOp, l: Expr, r: Expr)
    requires op.Sll? || op.Srl? || op.Sra? || op.SllW? || op.SrlW? || op.SraW?
    ensures Eval(x, env, s, MakeBinary(x, op, l, r)) == Eval(x, env, s, Binary(op, l, r))
  {
    if IsZero(x, r) {
      ZeroMeans(x, env, s, r);
      EvalFits(x, env, s, l);
      if op.Sll? || op.Srl? || op.Sra? {
        ShiftZero(x, env, op, Eval(x, env, s, l));
      } else {
        WordShiftZero(x, env, op, Eval(x, env, s, l));
        Sext32Sound(x, env, s, l);
      }
    }
  }

  lemma BinarySound(x: Xlen, env: Env, s: State, op: BinaryOp, l: Expr, r: Expr)
    ensures Eval(x, env, s, MakeBinary(x, op, l, r)) == Eval(x, env, s, Binary(op, l, r))
  {
    if op.Add? || op.Sub? {
      AddSubSound(x, env, s, op, l, r);
    } else if op.And? || op.Or? || op.Xor? {
      BitwiseSound(x, env, s, op, l, r);
    } else if op.AddW? {
      AddWSound(x, env, s, l, r);
    } else if op.SubW? {
      SubWSound(x, env, s, l, r);
    } else if op.Sll? || op.Srl? || op.Sra? || op.SllW? || op.SrlW? || op.SraW? {
      ShiftSound(x, env, s, op, l, r);
    }
  }

  // ----- rebuilding a tree -----

  /** The same tree, built bottom-up through the constructors. */
  function Rebuild(x: Xlen, e: Expr): Expr
    decreases e
  {
    match e
    case Mem(base, offset, width, signed) => Mem(Rebuild(x, base), offset, width, signed)
    case MemAddr(addr, width, signed) => MemAddr(Rebuild(x, addr), width, signed)
    case Unary(op, arg) => MakeUnary(x, op, Rebuild(x, arg))
    case Binary(op, left, right) => MakeBinary(x, op, Rebuild(x, left), Rebuild(x, right))
    case Select(cond, yes, no) => Select(Rebuild(x, cond), Rebuild(x, yes), Rebuild(x, no))
    case Call(name, args) => Call(name, RebuildAll(x, args))
    case _ => e
  }

  function RebuildAll(x: Xlen, es: seq<Expr>): (r: seq<Expr>)
    ensures |r| == |es|
    decreases es
  {
    if es == [] then [] else [Rebuild(x, es[0])] + RebuildAll(x, es[1..])
  }

  lemma MemAgrees(x: Xlen, env: Env, s: State, e: Expr, e': Expr, offset: int, width: Width, signed: bool)
    requires Eval(x, env, s, e') == Eval(x, env, s, e)
    ensures Eval(x, env, s, Mem(e', offset, width, signed)) == Eval(x, env, s, Mem(e, offset, width, signed))
    ensures Eval(x, env, s, MemAddr(e', width, signed)) == Eval(x, env, s, MemAddr(e, width, signed))
  {
  }

  lemma UnaryAgrees(x: Xlen, env: Env, s: State, op: UnaryOp, e: Expr, e': Expr)
    requires Eval(x, env, s, e') == Eval(x, env, s, e)
    ensures Eval(x, env, s, MakeUnary(x, op, e')) == Eval(x, env, s, Unary(op, e))
  {
    UnarySound(x, env, s, op, e');
  }

  lemma BinaryAgrees(x: Xlen, env: Env, s: State, op: BinaryOp, l: Expr, r: Expr, l': Expr, r': Expr)
    requires Eval(x, env, s, l') == Eval(x, env, s, l) && Eval(x, env, s, r') == Eval(x, env, s, r)
    ensures Eval(x, env, s, MakeBinary(x, op, l', r')) == Eval(x, env, s, Binary(op, l, r))
  {
    BinarySound(x, env, s, op, l', r');
  }

  /** Rebuilding keeps the value in every state, at either register width. */
  lemma {:induction false} RebuildSound(x: Xlen, env: Env, s: State, e: Expr)
    ensures Eval(x, env, s, Rebuild(x, e)) == Eval(x, env, s, e)
    decreases e
  {
    match e
    case Mem(base, offset, width, signed) =>
      RebuildSound(x, env, s, base);
      MemAgrees(x, env, s, base, Rebuild(x, base), offset, width, signed);
    case MemAddr(addr, width, signed) =>
      RebuildSound(x, env, s, addr);
      MemAgrees(x, env, s, addr, Rebuild(x, addr), 0, width, signed);
    case Unary(op, arg) =>
      RebuildSound(x, env, s, arg);
      UnaryAgrees(x, env, s, op, arg, Rebuild(x, arg));
    case Binary(op, left, right) =>
      RebuildSound(x, env, s, left);
      RebuildSound(x, env, s, right);
      BinaryAgrees(x, env, s, op, left, right, Rebuild(x, left), Rebuild(x, right));
    case Select(cond, yes, no) =>
      RebuildSound(x, env, s, cond);
      RebuildSound(x, env, s, yes);
      RebuildSound(x, env, s, no);
    case Call(_, args) => RebuildAllSound(x, env, s, args);
    case _ =>
  }

  lemma {:induction false} RebuildAllSound(x: Xlen, env: Env, s: State, es: seq<Expr>)
    ensures EvalAll(x, env, s, RebuildAll(x, es)) == EvalAll(x, env, s, es)
    decreases es
  {
    if es != [] {
      RebuildSound(x, env, s, es[0]);
      RebuildAllSound(x, env, s, es[1..]);
      assert RebuildAll(x, es)[1..] == RebuildAll(x, es[1..]);
    }
  }
}
