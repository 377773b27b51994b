/**
  Statements of the intermediate representation, and the lifted atomic memory operations.
 */
module Atomics {
  import opened Bits
  import opened Ir

  datatype Target = ToReg(r: nat) | ToTemp(i: nat) | ToMem(base: Expr, offset: int, width: Width) | ToResAddr | ToResValid

  datatype Stmt = Write(target: Target, value: Expr) | If(cond: Expr, yes: seq<Stmt>, no: seq<Stmt>)

  // ----- running statements -----

  function Size(w: Width): nat {
    match w
    case W1 => 1
    case W2 => 2
    case W4 => 4
    case W8 => 8
  }

  function Range(w: Width): (r: nat)
    ensures r > 0
  {
    match w
    case W1 => 0x100
    case W2 => 0x1_0000
    case W4 => 0x1_0000_0000
    case W8 => 0x1_0000_0000_0000_0000
  }

  function ByteOf(v: nat, i: nat): Byte {
    DivNonNegative(v, Pow2(8 * i));
    (v / Pow2(8 * i)) % 256
  }

  /** Memory with the low bytes of v at addr. */
  function Store(x: Xlen, mem: nat -> Byte, addr: nat, w: Width, v: nat): nat -> Byte {
    StoreBytes(x, mem, addr, Size(w), v % Range(w))
  }

  function StoreBytes(x: Xlen, mem: nat -> Byte, addr: nat, size: nat, v: nat): nat -> Byte {
    a => if Fits(x, a) && Wrap(x, a as int - addr) < size then ByteOf(v, Wrap(x, a as int - addr)) else mem(a)
  }

  function WriteReg(regs: seq<nat>, r: nat, v: nat): seq<nat> {
    if r == 0 || r >= |regs| then regs else regs[r := v]
  }

  function Assign(x: Xlen, env: Env, s: State, target: Target, v: nat): State {
    match target
    case ToReg(r) => s.(regs := WriteReg(s.regs, r, v))
    case ToTemp(i) => s.(temps := s.temps[i := v])
    case ToMem(base, offset, w) => s.(mem := Store(x, s.mem, Wrap(x, Eval(x, env, s, base) + offset), w, v))
    case ToResAddr => s.(resAddr := v)
    case ToResValid => s.(resValid := v)
  }

  function Exec(x: Xlen, env: Env, s: State, stmt: Stmt): State
    decreases stmt
  {
    match stmt
    case Write(target, value) => Assign(x, env, s, target, Eval(x, env, s, value))
    case If(cond, yes, no) => if Eval(x, env, s, cond) != 0 then ExecAll(x, env, s, yes) else ExecAll(x, env, s, no)
  }

  function ExecAll(x: Xlen, env: Env, s: State, stmts: seq<Stmt>): State
    decreases stmts
  {
    if stmts == [] then s else ExecAll(x, env, Exec(x, env, s, stmts[0]), stmts[1..])
  }

  /** 32 registers of the right width. */
  ghost predicate GoodState(x: Xlen, s: State) {
    |s.regs| == 32 && forall r | 0 <= r < 32 :: Fits(x, s.regs[r])
  }

  // ----- lifting -----

  datatype AmoOp = Swap | AmoAdd | AmoXor | AmoAnd | AmoOr | Min | Max | Minu | Maxu

  function Zext32(x: Xlen, e: Expr): Expr {
    MakeUnary(x, UnaryOp.Zext32, e)
  }

  /** The binary operator of an operation that computes with one. */
  function BinaryFor(op: AmoOp): BinaryOp
    requires op.AmoAdd? || op.AmoXor? || op.AmoAnd? || op.AmoOr?
  {
    match op
    case AmoAdd => Add
    case AmoXor => Xor
    case AmoAnd => And
    case AmoOr => Or
  }

  /** The new memory value, from the old one and the source. */
  function Combine(x: Xlen, op: AmoOp, w: Width, was: Expr, src: Expr): Expr {
    match op
    case Swap => src
    case Min => Select(SignedLess(x, w, was, src), was, src)
    case Max => Select(SignedLess(x, w, was, src), src, was)
    case Minu => Select(UnsignedLess(x, w, was, src), was, src)
    case Maxu => Select(UnsignedLess(x, w, was, src), src, was)
    case _ => MakeBinary(x, BinaryFor(op), was, src)
  }

  function SignedLess(x: Xlen, w: Width, l: Expr, r: Expr): Expr {
    if w.W8? then Binary(Lt, l, r) else Binary(Lt, MakeSext32(x, l), MakeSext32(x, r))
  }

  function UnsignedLess(x: Xlen, w: Width, l: Expr, r: Expr): Expr {
    if w.W8? then MakeLtu(x, l, r) else MakeLtu(x, Zext32(x, l), Zext32(x, r))
  }

  /** Save operands the destination would overwrite, read memory once, combine, write
      the old value to rd and the new one to memory, drop the reservation. */
  function LiftAmo(x: Xlen, op: AmoOp, w: Width, rd: nat, rs1: nat, rs2: nat): seq<Stmt> {
    var addr := if rd == rs1 then Temp(1) else Reg(rs1);
    var src := if rd == rs2 then Temp(3) else Reg(rs2);
    Saves(rd, rs1, rs2) + Core(x, op, w, rd, addr, src)
  }

  function Saves(rd: nat, rs1: nat, rs2: nat): seq<Stmt> {
    (if rd == rs1 then [Write(ToTemp(1), Reg(rs1))] else [])
    + (if rd == rs2 then [Write(ToTemp(3), Reg(rs2))] else [])
  }

  /** The four statements every operation ends in. */
  function Core(x: Xlen, op: AmoOp, w: Width, rd: nat, addr: Expr, src: Expr): seq<Stmt> {
    [Write(ToTemp(2), MemAddr(addr, w, w.W4?)),
     Write(ToReg(rd), Temp(2)),
     Write(ToMem(addr, 0, w), Combine(x, op, w, Temp(2), src)),
     Write(ToResValid, Imm(0))]
  }

  // ----- the atomic read-modify-write -----

  function SignedOf(w: Width, v: nat): int {
    if w.W4? then Signed32(v) else Signed(Rv64, v)
  }

  /** The operator on memory values of the given width. */
  function Apply(op: AmoOp, w: Width, a: nat, b: nat): nat {
    match op
    case Swap => b
    case AmoAdd => (a + b) % Range(w)
    case AmoXor => Bitwise(XorBits, a, b)
    case AmoAnd => Bitwise(AndBits, a, b)
    case AmoOr => Bitwise(OrBits, a, b)
    case Min => if SignedOf(w, a) < SignedOf(w, b) then a else b
    case Max => if SignedOf(w, a) < SignedOf(w, b) then b else a
    case Minu => if a < b then a else b
    case Maxu => if a < b then b else a
  }

  /** Section 8.4 of the RISC-V unprivileged specification: rd receives the sign-extended
      old memory value, memory the result of the operator. */
  function ReadModifyWrite(x: Xlen, op: AmoOp, w: Width, rd: nat, rs1: nat, rs2: nat, s: State): State {
    var addr := ReadReg(s, rs1);
    var was := Load(x, s.mem, addr, w);
    var now := Apply(op, w, was, ReadReg(s, rs2) % Range(w));
    s.(regs := WriteReg(s.regs, rd, Wrap(x, SignedOf(w, was))),
       mem := StoreBytes(x, s.mem, addr, Size(w), now),
       resValid := 0)
  }

  // ----- the new value -----

  lemma Low32(x: Xlen, v: int)
    ensures Wrap(x, v) % 0x1_0000_0000 == v % 0x1_0000_0000
  {
    if x.Rv64? {
      WrapTwice(Rv32, v);
    }
  }

  lemma Pow2Values()
    ensures Pow2(32) == 0x1_0000_0000 && Pow2(64) == 0x1_0000_0000_0000_0000
  {
    assert Pow2(8) == 256;
    Pow2Add(8, 8);
    Pow2Add(16, 16);
    Pow2Add(32, 32);
  }

  /** A sign-extended value has the old low half. */
  lemma ExtendedLow(x: Xlen, a: nat)
    requires a < 0x1_0000_0000
    ensures Wrap(x, Signed32(a)) % 0x1_0000_0000 == a
  {
    Low32(x, Signed32(a));
  }

  lemma ModAdd(u: int, b: int)
    ensures (u + b) % 0x1_0000_0000 == (u % 0x1_0000_0000 + b % 0x1_0000_0000) % 0x1_0000_0000
  {
  }

  /** Operations on a value with low half a agree with the 32-bit ones in the low half. */
  lemma BitwiseLow(x: Xlen, bits: BitOp, u: nat, a: nat, b: nat)
    requires u % 0x1_0000_0000 == a
    ensures Wrap(x, Bitwise(bits, u, b)) % 0x1_0000_0000 == Bitwise(bits, a, b % 0x1_0000_0000)
  {
    Low32(x, Bitwise(bits, u, b));
    Pow2Values();
    BitwiseTruncates(bits, u, b, 32);
  }

  lemma AddLow(x: Xlen, u: nat, a: nat, b: nat)
    requires u % 0x1_0000_0000 == a
    ensures Wrap(x, u + b) % 0x1_0000_0000 == (a + b % 0x1_0000_0000) % 0x1_0000_0000
  {
    Low32(x, u + b);
    ModAdd(u, b);
  }

  lemma SignedOfWrap(x: Xlen, v: nat)
    ensures Signed(x, Wrap(x, Signed32(v))) == Signed32(v)
    ensures Signed32(Wrap(x, Signed32(v))) == Signed32(v)
  {
  }

  lemma SignedLessLow(x: Xlen, env: Env, s: State, l: Expr, r: Expr, a: nat)
    requires Eval(x, env, s, l) == Wrap(x, Signed32(a))
    ensures Eval(x, env, s, SignedLess(x, W4, l, r)) == Truth(Signed32(a) < Signed32(Eval(x, env, s, r)))
  {
    Sext32Sound(x, env, s, l);
    Sext32Sound(x, env, s, r);
    SignedOfWrap(x, a);
    SignedOfWrap(x, Eval(x, env, s, r));
  }

  lemma UnsignedLessLow(x: Xlen, env: Env, s: State, l: Expr, r: Expr, a: nat)
    requires Eval(x, env, s, l) % 0x1_0000_0000 == a
    ensures Eval(x, env, s, UnsignedLess(x, W4, l, r)) == Truth(a < Eval(x, env, s, r) % 0x1_0000_0000)
  {
    UnarySound(x, env, s, UnaryOp.Zext32, l);
    UnarySound(x, env, s, UnaryOp.Zext32, r);
    BinarySound(x, env, s, Ltu, Zext32(x, l), Zext32(x, r));
  }

  /** The value of a selection between two expressions. */
  lemma Selects(x: Xlen, env: Env, s: State, c: Expr, b: bool, yes: Expr, no: Expr)
    requires Eval(x, env, s, c) == Truth(b)
    ensures Eval(x, env, s, Select(c, yes, no)) == if b then Eval(x, env, s, yes) else Eval(x, env, s, no)
  {
  }

  lemma CombineSigned4(x: Xlen, env: Env, s: State, op: AmoOp, l: Expr, r: Expr, a: nat)
    requires op.Min? || op.Max?
    requires a < 0x1_0000_0000 && Eval(x, env, s, l) == Wrap(x, Signed32(a)) && Eval(x, env, s, l) % 0x1_0000_0000 == a
    ensures Eval(x, env, s, Combine(x, op, W4, l, r)) % 0x1_0000_0000 == Apply(op, W4, a, Eval(x, env, s, r) % 0x1_0000_0000)
  {
    var b := Eval(x, env, s, r);
    var c := Signed32(a) < Signed32(b);
    SignedLessLow(x, env, s, l, r, a);
    Selects(x, env, s, SignedLess(x, W4, l, r), c, l, r);
    Selects(x, env, s, SignedLess(x, W4, l, r), c, r, l);
    SignedLow(b);
  }

  lemma SignedLow(b: nat)
    ensures Signed32(b % 0x1_0000_0000) == Signed32(b)
  {
  }

  lemma CombineUnsigned4(x: Xlen, env: Env, s: State, op: AmoOp, l: Expr, r: Expr, a: nat)
    requires op.Minu? || op.Maxu?
    requires a < 0x1_0000_0000 && Eval(x, env, s, l) % 0x1_0000_0000 == a
    ensures Eval(x, env, s, Combine(x, op, W4, l, r)) % 0x1_0000_0000 == Apply(op, W4, a, Eval(x, env, s, r) % 0x1_0000_0000)
  {
    var c := a < Eval(x, env, s, r) % 0x1_0000_0000;
    UnsignedLessLow(x, env, s, l, r, a);
    Selects(x, env, s, UnsignedLess(x, W4, l, r), c, l, r);
    Selects(x, env, s, UnsignedLess(x, W4, l, r), c, r, l);
  }

  lemma CombineBinary(x: Xlen, env: Env, s: State, op: AmoOp, w: Width, l: Expr, r: Expr)
    requires op.AmoAdd? || op.AmoXor? || op.AmoAnd? || op.AmoOr?
    ensures Eval(x, env, s, Combine(x, op, w, l, r)) == EvalBinary(x, env, BinaryFor(op), Eval(x, env, s, l), Eval(x, env, s, r))
  {
    BinarySound(x, env, s, BinaryFor(op), l, r);
  }

  lemma BinaryLow(x: Xlen, env: Env, op: AmoOp, u: nat, a: nat, b: nat)
    requires op.AmoAdd? || op.AmoXor? || op.AmoAnd? || op.AmoOr?
    requires u % 0x1_0000_0000 == a
    ensures EvalBinary(x, env, BinaryFor(op), u, b) % 0x1_0000_0000 == Apply(op, W4, a, b % 0x1_0000_0000)
  {
    match op
    case AmoAdd => AddLow(x, u, a, b);
    case AmoXor => BitwiseLow(x, XorBits, u, a, b);
    case AmoAnd => BitwiseLow(x, AndBits, u, a, b);
    case AmoOr => BitwiseLow(x, OrBits, u, a, b);
  }

  /** The new value of a 32-bit operation, in the low half. */
  lemma Combine4(x: Xlen, env: Env, s: State, op: AmoOp, l: Expr, r: Expr, a: nat)
    requires a < 0x1_0000_0000 && Eval(x, env, s, l) == Wrap(x, Signed32(a))
    ensures Eval(x, env, s, Combine(x, op, W4, l, r)) % 0x1_0000_0000 == Apply(op, W4, a, Eval(x, env, s, r) % 0x1_0000_0000)
  {
    ExtendedLow(x, a);
    if op.Min? || op.Max? {
      CombineSigned4(x, env, s, op, l, r, a);
    } else if op.Minu? || op.Maxu? {
      CombineUnsigned4(x, env, s, op, l, r, a);
    } else if !op.Swap? {
      CombineBinary(x, env, s, op, W4, l, r);
      BinaryLow(x, env, op, Eval(x, env, s, l), a, Eval(x, env, s, r));
    }
  }

  lemma BitwiseFits(bits: BitOp, a: nat, b: nat)
    requires Fits(Rv64, a) && Fits(Rv64, b)
    ensures Wrap(Rv64, Bitwise(bits, a, b)) == Bitwise(bits, a, b)
  {
    Pow2Values();
    BitwiseBound(bits, a, b, 64);
    WrapFits(Rv64, Bitwise(bits, a, b));
  }

  lemma BinaryFull(env: Env, op: AmoOp, a: nat, b: nat)
    requires op.AmoAdd? || op.AmoXor? || op.AmoAnd? || op.AmoOr?
    requires Fits(Rv64, a) && Fits(Rv64, b)
    ensures EvalBinary(Rv64, env, BinaryFor(op), a, b) == Apply(op, W8, a, b)
  {
    match op
    case AmoAdd =>
    case AmoXor => BitwiseFits(XorBits, a, b);
    case AmoAnd => BitwiseFits(AndBits, a, b);
    case AmoOr => BitwiseFits(OrBits, a, b);
  }

  lemma CombineOrder8(env: Env, s: State, op: AmoOp, l: Expr, r: Expr)
    requires op.Min? || op.Max? || op.Minu? || op.Maxu?
    ensures Eval(Rv64, env, s, Combine(Rv64, op, W8, l, r)) == Apply(op, W8, Eval(Rv64, env, s, l), Eval(Rv64, env, s, r))
  {
    var a, b := Eval(Rv64, env, s, l), Eval(Rv64, env, s, r);
    BinarySound(Rv64, env, s, Ltu, l, r);
    var c := if op.Min? || op.Max? then SignedLess(Rv64, W8, l, r) else UnsignedLess(Rv64, W8, l, r);
    var less := if op.Min? || op.Max? then Signed(Rv64, a) < Signed(Rv64, b) else a < b;
    assert Eval(Rv64, env, s, c) == Truth(less);
    Selects(Rv64, env, s, c, less, l, r);
    Selects(Rv64, env, s, c, less, r, l);
  }

  /** The new value of a 64-bit operation. */
  lemma Combine8(env: Env, s: State, op: AmoOp, l: Expr, r: Expr)
    ensures Eval(Rv64, env, s, Combine(Rv64, op, W8, l, r)) == Apply(op, W8, Eval(Rv64, env, s, l), Eval(Rv64, env, s, r))
  {
    if op.Min? || op.Max? || op.Minu? || op.Maxu? {
      CombineOrder8(env, s, op, l, r);
    } else if !op.Swap? {
      EvalFits(Rv64, env, s, l);
      EvalFits(Rv64, env, s, r);
      CombineBinary(Rv64, env, s, op, W8, l, r);
      BinaryFull(env, op, Eval(Rv64, env, s, l), Eval(Rv64, env, s, r));
    }
  }

  // ----- the lifted statements -----

  /** A loaded value fits its width, and is extended as its sign says. */
  lemma LoadedFits(x: Xlen, mem: nat -> Byte, addr: nat, w: Width)
    requires w.W4? || (w.W8? && x.Rv64?)
    ensures Load(x, mem, addr, w) < Range(w)
    ensures LoadExtended(x, mem, addr, w, w.W4?) == Wrap(x, SignedOf(w, Load(x, mem, addr, w)))
  {
    if w.W8? {
      SignedWraps(Rv64, Load(x, mem, addr, w));
    }
  }

  /** The new memory value of either width. */
  lemma CombineAny(x: Xlen, env: Env, s: State, op: AmoOp, w: Width, l: Expr, r: Expr, a: nat)
    requires w.W4? || (w.W8? && x.Rv64?)
    requires a < Range(w) && Eval(x, env, s, l) == Wrap(x, SignedOf(w, a))
    ensures Eval(x, env, s, Combine(x, op, w, l, r)) % Range(w) == Apply(op, w, a, Eval(x, env, s, r) % Range(w))
  {
    if w.W4? {
      Combine4(x, env, s, op, l, r, a);
    } else {
      SignedWraps(Rv64, a);
      Combine8Wraps(env, s, op, l, r);
    }
  }

  lemma Combine8Wraps(env: Env, s: State, op: AmoOp, l: Expr, r: Expr)
    ensures Eval(Rv64, env, s, Combine(Rv64, op, W8, l, r)) % 0x1_0000_0000_0000_0000
            == Apply(op, W8, Eval(Rv64, env, s, l), Eval(Rv64, env, s, r) % 0x1_0000_0000_0000_0000)
  {
    Combine8(env, s, op, l, r);
    EvalFits(Rv64, env, s, r);
    WrapFits(Rv64, Eval(Rv64, env, s, r));
    EvalFits(Rv64, env, s, Combine(Rv64, op, W8, l, r));
    WrapFits(Rv64, Eval(Rv64, env, s, Combine(Rv64, op, W8, l, r)));
  }

  lemma Unroll(x: Xlen, env: Env, s: State, a: Stmt, b: Stmt, c: Stmt, d: Stmt)
    ensures ExecAll(x, env, s, [a, b, c, d]) ==
              Exec(x, env, Exec(x, env, Exec(x, env, Exec(x, env, s, a), b), c), d)
  {
    var s1 := Exec(x, env, s, a);
    var s2 := Exec(x, env, s1, b);
    var s3 := Exec(x, env, s2, c);
    assert [a, b, c, d][1..] == [b, c, d] && [b, c, d][1..] == [c, d] && [c, d][1..] == [d];
    assert ExecAll(x, env, s3, [d]) == Exec(x, env, s3, d);
    assert ExecAll(x, env, s2, [c, d]) == ExecAll(x, env, s3, [d]);
    assert ExecAll(x, env, s1, [b, c, d]) == ExecAll(x, env, s2, [c, d]);
  }

  /** An operand expression that writing temp 2 and rd leaves alone. */
  predicate Steady(rd: nat, e: Expr) {
    (e.Reg? && (e.index != rd || rd == 0)) || (e.Temp? && e.index != 2)
  }

  lemma SteadyAcross(x: Xlen, env: Env, s: State, rd: nat, e: Expr, v: nat, w: nat)
    requires Steady(rd, e)
    ensures var s2 := s.(temps := s.temps[2 := v], regs := WriteReg(s.regs, rd, w));
            Eval(x, env, s2, e) == Eval(x, env, s, e)
  {
  }

  /** What the core statements do: temp 2 aside, the atomic read-modify-write. */
  lemma RunCore(x: Xlen, env: Env, s: State, op: AmoOp, w: Width, rd: nat, addr: Expr, src: Expr)
    requires w.W4? || (w.W8? && x.Rv64?)
    requires Steady(rd, addr) && Steady(rd, src)
    ensures var at := Eval(x, env, s, addr);
            var was := Load(x, s.mem, at, w);
            var t := ExecAll(x, env, s, Core(x, op, w, rd, addr, src));
            && t.regs == WriteReg(s.regs, rd, Wrap(x, SignedOf(w, was)))
            && t.mem == StoreBytes(x, s.mem, at, Size(w), Apply(op, w, was, Eval(x, env, s, src) % Range(w)))
            && t.resAddr == s.resAddr && t.resValid == 0
  {
    var at := Eval(x, env, s, addr);
    var was := Load(x, s.mem, at, w);
    var v := Wrap(x, SignedOf(w, was));
    LoadedFits(x, s.mem, at, w);
    var core := Core(x, op, w, rd, addr, src);
    Unroll(x, env, s, core[0], core[1], core[2], core[3]);
    var s1 := Exec(x, env, s, core[0]);
    assert s1 == s.(temps := s.temps[2 := v]);
    ReadTemp(x, env, s1, v);
    var s2 := Exec(x, env, s1, core[1]);
    assert s2 == s.(temps := s.temps[2 := v], regs := WriteReg(s.regs, rd, v));
    SteadyAcross(x, env, s, rd, addr, v, v);
    SteadyAcross(x, env, s, rd, src, v, v);
    ReadTemp(x, env, s2, v);
    CombineAny(x, env, s2, op, w, Temp(2), src, was);
    var s3 := Exec(x, env, s2, core[2]);
    StoreStep(x, env, s2, addr, w, Combine(x, op, w, Temp(2), src));
    assert s3 == s2.(mem := StoreBytes(x, s.mem, at, Size(w), Apply(op, w, was, Eval(x, env, s, src) % Range(w))));
  }

  lemma ReadTemp(x: Xlen, env: Env, s: State, v: nat)
    requires 2 in s.temps && s.temps[2] == v && Fits(x, v)
    ensures Eval(x, env, s, Temp(2)) == v
  {
    WrapFits(x, v);
  }

  lemma StoreStep(x: Xlen, env: Env, s: State, addr: Expr, w: Width, e: Expr)
    ensures Exec(x, env, s, Write(ToMem(addr, 0, w), e)) ==
              s.(mem := StoreBytes(x, s.mem, Eval(x, env, s, addr), Size(w), Eval(x, env, s, e) % Range(w)))
  {
    EvalFits(x, env, s, addr);
    WrapFits(x, Eval(x, env, s, addr));
  }

  lemma {:induction false} ExecConcat(x: Xlen, env: Env, s: State, a: seq<Stmt>, b: seq<Stmt>)
    ensures ExecAll(x, env, s, a + b) == ExecAll(x, env, ExecAll(x, env, s, a), b)
    decreases |a|
  {
    if a == [] {
      assert a + b == b;
    } else {
      assert (a + b)[1..] == a[1..] + b;
      ExecConcat(x, env, Exec(x, env, s, a[0]), a[1..], b);
    }
  }

  lemma ExecOne(x: Xlen, env: Env, s: State, a: Stmt)
    ensures ExecAll(x, env, s, [a]) == Exec(x, env, s, a)
  {
  }

  /** Saving operands changes temps 1 and 3 only. */
  lemma RunSaves(x: Xlen, env: Env, s: State, rd: nat, rs1: nat, rs2: nat)
    ensures var t := ExecAll(x, env, s, Saves(rd, rs1, rs2));
            && t == s.(temps := t.temps)
            && (rd == rs1 ==> 1 in t.temps && t.temps[1] == Eval(x, env, s, Reg(rs1)))
            && (rd == rs2 ==> 3 in t.temps && t.temps[3] == Eval(x, env, s, Reg(rs2)))
  {
    var first := if rd == rs1 then [Write(ToTemp(1), Reg(rs1))] else [];
    var second := if rd == rs2 then [Write(ToTemp(3), Reg(rs2))] else [];
    ExecConcat(x, env, s, first, second);
    ExecOne(x, env, s, Write(ToTemp(1), Reg(rs1)));
    ExecOne(x, env, ExecAll(x, env, s, first), Write(ToTemp(3), Reg(rs2)));
  }

  lemma RegFits(x: Xlen, env: Env, s: State, r: nat)
    requires GoodState(x, s)
    ensures Eval(x, env, s, Reg(r)) == ReadReg(s, r) && Fits(x, ReadReg(s, r))
  {
    WrapFits(x, ReadReg(s, r));
  }

  /** Operands after saving. */
  lemma Operand(x: Xlen, env: Env, s: State, t: State, r: nat, saved: bool, i: nat)
    requires GoodState(x, s) && t == s.(temps := t.temps)
    requires saved ==> i in t.temps && t.temps[i] == Eval(x, env, s, Reg(r))
    ensures Eval(x, env, t, if saved then Temp(i) else Reg(r)) == ReadReg(s, r)
  {
    RegFits(x, env, s, r);
    WrapFits(x, ReadReg(s, r));
  }

  /** Every lifted operation is the atomic read-modify-write, for all aliasings of its
      registers, x0 included; only temporaries differ. */
  lemma AmoIsAtomic(x: Xlen, env: Env, s: State, op: AmoOp, w: Width, rd: nat, rs1: nat, rs2: nat)
    requires w.W4? || (w.W8? && x.Rv64?)
    requires GoodState(x, s)
    ensures ExecAll(x, env, s, LiftAmo(x, op, w, rd, rs1, rs2)).(temps := s.temps) ==
              ReadModifyWrite(x, op, w, rd, rs1, rs2, s)
  {
    var addr := if rd == rs1 then Temp(1) else Reg(rs1);
    var src := if rd == rs2 then Temp(3) else Reg(rs2);
    ExecConcat(x, env, s, Saves(rd, rs1, rs2), Core(x, op, w, rd, addr, src));
    RunSaves(x, env, s, rd, rs1, rs2);
    var t := ExecAll(x, env, s, Saves(rd, rs1, rs2));
    Operand(x, env, s, t, rs1, rd == rs1, 1);
    Operand(x, env, s, t, rs2, rd == rs2, 3);
    CoreIsAtomic(x, env, s, t, op, w, rd, rs1, rs2, addr, src);
  }

  lemma CoreIsAtomic(x: Xlen, env: Env, s: State, t: State, op: AmoOp, w: Width, rd: nat, rs1: nat, rs2: nat,
                     addr: Expr, src: Expr)
    requires (w.W4? || (w.W8? && x.Rv64?)) && Steady(rd, addr) && Steady(rd, src) && t == s.(temps := t.temps)
    requires Eval(x, env, t, addr) == ReadReg(s, rs1) && Eval(x, env, t, src) == ReadReg(s, rs2)
    ensures ExecAll(x, env, t, Core(x, op, w, rd, addr, src)).(temps := s.temps) == ReadModifyWrite(x, op, w, rd, rs1, rs2, s)
  {
    RunCore(x, env, t, op, w, rd, addr, src);
  }
}
