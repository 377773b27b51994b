/**
  The lifted rotate instructions.
 */
module Rotates {
  import opened Bits
  import opened Ir
  import opened Atomics

  // ----- rotation -----

  /** Shift left and bring what falls off back in at the bottom. */
  function RotateLeft(v: nat, n: nat, bits: nat): nat {
    DivNonNegative(ShiftLeft(v, n), Pow2(bits));
    ShiftLeft(v, n) % Pow2(bits) + ShiftLeft(v, n) / Pow2(bits)
  }

  /** The amount that rotates back. */
  function Back(n: nat, bits: nat): nat
    requires n < bits
  {
    if n == 0 then 0 else bits - n
  }

  function RotateRight(v: nat, n: nat, bits: nat): nat
    requires n < bits
  {
    RotateLeft(v, Back(n, bits), bits)
  }

  /** Splitting v at bit m: what a shift by n = bits - m keeps and what falls off. */
  lemma SplitShift(v: nat, n: nat, m: nat)
    ensures ShiftLeft(v, n) % Pow2(n + m) == ShiftLeft(v % Pow2(m), n)
    ensures ShiftLeft(v, n) / Pow2(n + m) == v / Pow2(m)
  {
    var q, r := v / Pow2(m), v % Pow2(m);
    DivMod(v, Pow2(m));
    Pow2Add(n, m);
    Regroup(v, q, r, Pow2(n), Pow2(m));
    ScaleBelow(r, Pow2(m), Pow2(n));
    DivModUnique(v * Pow2(n), Pow2(n) * Pow2(m), q, r * Pow2(n));
  }

  lemma ScaleBelow(r: int, b: int, a: int)
    requires 0 <= r < b && a > 0
    ensures 0 <= r * a < a * b
  {
    MulNonNegative(r, a);
    assert (b - r) * a >= a by {
      MulGrows(b - r, a);
    }
    assert (b - r) * a == a * b - r * a;
  }

  lemma {:induction false} OrSelf(v: nat)
    ensures Bitwise(OrBits, v, v) == v
    decreases v
  {
    if v > 0 {
      OrSelf(v / 2);
    }
  }

  lemma {:induction false} OrCommutes(a: nat, b: nat)
    ensures Bitwise(OrBits, a, b) == Bitwise(OrBits, b, a)
    decreases a + b
  {
    if a > 0 || b > 0 {
      OrCommutes(a / 2, b / 2);
    }
  }

  lemma QuotientBelow(v: nat, n: nat, m: nat)
    requires v < Pow2(n + m)
    ensures 0 <= v / Pow2(m) < Pow2(n)
  {
    DivNonNegative(v, Pow2(m));
    DivMod(v, Pow2(m));
    Pow2Add(n, m);
    var q := v / Pow2(m);
    if q >= Pow2(n) {
      assert (q - Pow2(n)) * Pow2(m) == q * Pow2(m) - Pow2(n) * Pow2(m);
      MulNonNegative(q - Pow2(n), Pow2(m));
    }
  }

  /** Two shifts joined by an or make a rotation. */
  lemma ShiftsRotate(v: nat, n: nat, bits: nat)
    requires n < bits && v < Pow2(bits)
    ensures Bitwise(OrBits, ShiftLeft(v, n) % Pow2(bits), ShiftRight(v, Back(n, bits))) == RotateLeft(v, n, bits)
  {
    if n == 0 {
      ShiftByZero(v);
      OrSelf(v);
      DivModUnique(v, Pow2(bits), 0, v);
    } else {
      var m := bits - n;
      SplitShift(v, n, m);
      QuotientBelow(v, n, m);
      OrDisjoint(v % Pow2(m), v / Pow2(m), n);
    }
  }

  lemma BackTwice(n: nat, bits: nat)
    requires n < bits
    ensures Back(n, bits) < bits && Back(Back(n, bits), bits) == n
  {
  }

  lemma ShiftsRotateRight(v: nat, n: nat, bits: nat)
    requires n < bits && v < Pow2(bits)
    ensures Bitwise(OrBits, ShiftRight(v, n), ShiftLeft(v, Back(n, bits)) % Pow2(bits)) == RotateRight(v, n, bits)
  {
    BackTwice(n, bits);
    ShiftsRotate(v, Back(n, bits), bits);
    OrCommutes(ShiftRight(v, n), ShiftLeft(v, Back(n, bits)) % Pow2(bits));
  }

  // ----- the lifted expressions -----

  function Amount(x: Xlen, bits: nat, rs2: nat): Expr
    requires bits > 0
  {
    MakeAnd(x, Reg(rs2), Imm(bits - 1))
  }

  function Complement(x: Xlen, bits: nat, rs2: nat): Expr
    requires bits > 0
  {
    MakeAnd(x, MakeSub(x, Imm(bits), Reg(rs2)), Imm(bits - 1))
  }

  function LeftThenRight(x: Xlen, val: Expr, l: Expr, r: Expr): Expr {
    MakeOrXor(x, Or, OrBits, MakeShift(x, Sll, val, l), MakeShift(x, Srl, val, r))
  }

  function RightThenLeft(x: Xlen, val: Expr, r: Expr, l: Expr): Expr {
    MakeOrXor(x, Or, OrBits, MakeShift(x, Srl, val, r), MakeShift(x, Sll, val, l))
  }

  function LiftRol(x: Xlen, rs1: nat, rs2: nat): Expr {
    LeftThenRight(x, Reg(rs1), Amount(x, BitsOf(x), rs2), Complement(x, BitsOf(x), rs2))
  }

  function LiftRor(x: Xlen, rs1: nat, rs2: nat): Expr {
    RightThenLeft(x, Reg(rs1), Amount(x, BitsOf(x), rs2), Complement(x, BitsOf(x), rs2))
  }

  function LiftRori(x: Xlen, rs1: nat, shamt: nat): Expr
    requires shamt < BitsOf(x)
  {
    RightThenLeft(x, Reg(rs1), Imm(shamt), Imm((BitsOf(x) - shamt) % BitsOf(x)))
  }

  function LiftRolw(rs1: nat, rs2: nat): Expr {
    MakeSext32(Rv64, LeftThenRight(Rv64, Atomics.Zext32(Rv64, Reg(rs1)), Amount(Rv64, 32, rs2), Complement(Rv64, 32, rs2)))
  }

  function LiftRorw(rs1: nat, rs2: nat): Expr {
    MakeSext32(Rv64, RightThenLeft(Rv64, Atomics.Zext32(Rv64, Reg(rs1)), Amount(Rv64, 32, rs2), Complement(Rv64, 32, rs2)))
  }

  function LiftRoriw(rs1: nat, shamt: nat): Expr
    requires shamt < 32
  {
    MakeSext32(Rv64, RightThenLeft(Rv64, Atomics.Zext32(Rv64, Reg(rs1)), Imm(shamt), Imm((32 - shamt) % 32)))
  }

  // ----- amounts -----

  lemma Pow2Small()
    ensures Pow2(5) == 32 && Pow2(6) == 64
  {
    assert Pow2(4) == 16;
  }

  lemma MaskIsRemainder(v: nat, bits: nat)
    requires bits == 32 || bits == 64
    ensures Bitwise(AndBits, v, bits - 1) == v % bits
  {
    Pow2Small();
    AndOnes(v, if bits == 32 then 5 else 6);
  }

  lemma SmallFits(x: Xlen, n: nat)
    requires n <= 64
    ensures Wrap(x, n) == n
  {
  }

  lemma AmountMeans(x: Xlen, env: Env, s: State, bits: nat, rs2: nat)
    requires GoodState(x, s) && (bits == 32 || bits == 64)
    ensures Eval(x, env, s, Amount(x, bits, rs2)) == ReadReg(s, rs2) % bits
  {
    RegFits(x, env, s, rs2);
    SmallFits(x, bits - 1);
    MaskIsRemainder(ReadReg(s, rs2), bits);
    SmallFits(x, ReadReg(s, rs2) % bits);
  }

  lemma ModMod(v: int, k: int, d: int)
    requires k > 0 && d > 0 && k * d > 0
    ensures (v % (k * d)) % d == v % d
  {
    var q, r := v / (k * d), v % (k * d);
    DivMod(v, k * d);
    DivMod(r, d);
    assert (q * k + r / d) * d == q * (k * d) + (r / d) * d;
    DivModUnique(v, d, q * k + r / d, r % d);
  }

  lemma ModOfMultiple(v: int, big: int, k: int, d: int)
    requires k > 0 && d > 0 && big == k * d && big > 0
    ensures (v % big) % d == v % d
  {
    ModMod(v, k, d);
  }

  lemma WrapThenMod(x: Xlen, bits: nat, v: int)
    requires bits == 32 || bits == 64
    ensures Wrap(x, v) % bits == v % bits
  {
    match x
    case Rv32 => ModMod(v, if bits == 32 then 0x800_0000 else 0x400_0000, bits);
    case Rv64 => ModMod(v, if bits == 32 then 0x800_0000_0000_0000 else 0x400_0000_0000_0000, bits);
  }

  lemma NegatedRemainder(bits: nat, r: nat)
    requires bits == 32 || bits == 64
    ensures (bits as int - r) % bits == Back(r % bits, bits)
  {
    var q, m := r / bits, r % bits;
    if bits == 32 {
      assert 32 - r as int == if m == 0 then 32 * (1 - q) else 32 * (0 - q) + (32 - m);
    } else {
      assert 64 - r as int == if m == 0 then 64 * (1 - q) else 64 * (0 - q) + (64 - m);
    }
  }

  lemma MaskedComplement(x: Xlen, bits: nat, r: nat)
    requires bits == 32 || bits == 64
    ensures Wrap(x, Bitwise(AndBits, Wrap(x, bits as int - r), bits - 1)) == Back(r % bits, bits)
  {
    MaskIsRemainder(Wrap(x, bits as int - r), bits);
    WrapThenMod(x, bits, bits as int - r);
    NegatedRemainder(bits, r);
    SmallFits(x, Back(r % bits, bits));
  }

  lemma AndMeans(x: Xlen, env: Env, s: State, e: Expr, m: nat)
    requires m <= 64
    ensures Eval(x, env, s, MakeAnd(x, e, Imm(m))) == Wrap(x, Bitwise(AndBits, Eval(x, env, s, e), m))
  {
    SmallFits(x, m);
    BinarySound(x, env, s, And, e, Imm(m));
  }

  lemma DifferenceMeans(x: Xlen, env: Env, s: State, bits: nat, rs2: nat)
    requires GoodState(x, s) && bits <= 64
    ensures Eval(x, env, s, MakeSub(x, Imm(bits), Reg(rs2))) == Wrap(x, bits as int - ReadReg(s, rs2))
  {
    RegFits(x, env, s, rs2);
    SmallFits(x, bits);
    BinarySound(x, env, s, Sub, Imm(bits), Reg(rs2));
  }

  lemma ComplementMeans(x: Xlen, env: Env, s: State, bits: nat, rs2: nat)
    requires GoodState(x, s) && (bits == 32 || bits == 64)
    ensures Eval(x, env, s, Complement(x, bits, rs2)) == Back(ReadReg(s, rs2) % bits, bits)
  {
    DifferenceMeans(x, env, s, bits, rs2);
    MaskMeans(x, env, s, MakeSub(x, Imm(bits), Reg(rs2)), bits, ReadReg(s, rs2));
  }

  lemma MaskMeans(x: Xlen, env: Env, s: State, e: Expr, bits: nat, r: nat)
    requires (bits == 32 || bits == 64) && Eval(x, env, s, e) == Wrap(x, bits as int - r)
    ensures Eval(x, env, s, MakeAnd(x, e, Imm(bits - 1))) == Back(r % bits, bits)
  {
    AndMeans(x, env, s, e, bits - 1);
    MaskedComplement(x, bits, r);
  }

  // ----- rotates of the register width -----

  lemma WrapIsPow2(x: Xlen, v: int)
    ensures Wrap(x, v) == v % Pow2(BitsOf(x))
  {
    Pow2Values();
  }

  lemma ShiftMeans(x: Xlen, env: Env, s: State, val: Expr, n: Expr)
    requires Eval(x, env, s, n) < BitsOf(x)
    ensures Eval(x, env, s, MakeShift(x, Sll, val, n)) == Wrap(x, ShiftLeft(Eval(x, env, s, val), Eval(x, env, s, n)))
    ensures Eval(x, env, s, MakeShift(x, Srl, val, n)) == Wrap(x, ShiftRight(Eval(x, env, s, val), Eval(x, env, s, n)))
  {
    BinarySound(x, env, s, Sll, val, n);
    BinarySound(x, env, s, Srl, val, n);
  }

  /** A right shift of a value that fits needs no wrapping. */
  lemma ShiftRightFits(x: Xlen, v: nat, n: nat)
    requires Fits(x, v)
    ensures Wrap(x, ShiftRight(v, n)) == ShiftRight(v, n)
  {
    DivNonNegative(v, Pow2(n));
    DivMod(v, Pow2(n));
    MulAtLeast(v / Pow2(n), Pow2(n));
    WrapFits(x, v / Pow2(n));
  }

  lemma MulAtLeast(q: nat, d: nat)
    requires d > 0
    ensures q * d >= q
  {
    assert q * d == q + q * (d - 1);
    MulNonNegative(q, d - 1);
  }

  lemma OrMeans(x: Xlen, env: Env, s: State, a: Expr, b: Expr)
    ensures Eval(x, env, s, MakeOrXor(x, Or, OrBits, a, b)) == Wrap(x, Bitwise(OrBits, Eval(x, env, s, a), Eval(x, env, s, b)))
  {
    BinarySound(x, env, s, Or, a, b);
  }

  /** The or of both shifts. */
  lemma OrOfShifts(x: Xlen, env: Env, s: State, val: Expr, l: Expr, r: Expr)
    requires Eval(x, env, s, l) < BitsOf(x) && Eval(x, env, s, r) < BitsOf(x)
    ensures var v, a, b := Eval(x, env, s, val), Eval(x, env, s, l), Eval(x, env, s, r);
            && Eval(x, env, s, LeftThenRight(x, val, l, r)) == Wrap(x, Bitwise(OrBits, Wrap(x, ShiftLeft(v, a)), ShiftRight(v, b)))
            && Eval(x, env, s, RightThenLeft(x, val, r, l)) == Wrap(x, Bitwise(OrBits, ShiftRight(v, b), Wrap(x, ShiftLeft(v, a))))
  {
    EvalFits(x, env, s, val);
    ShiftMeans(x, env, s, val, l);
    ShiftMeans(x, env, s, val, r);
    ShiftRightFits(x, Eval(x, env, s, val), Eval(x, env, s, r));
    OrMeans(x, env, s, MakeShift(x, Sll, val, l), MakeShift(x, Srl, val, r));
    OrMeans(x, env, s, MakeShift(x, Srl, val, r), MakeShift(x, Sll, val, l));
  }

  lemma RotateFits(v: nat, n: nat, bits: nat)
    requires n < bits && v < Pow2(bits)
    ensures RotateLeft(v, n, bits) < Pow2(bits)
  {
    ShiftsRotate(v, n, bits);
    DivMod(ShiftLeft(v, n), Pow2(bits));
    QuotientBelow(v, bits, 0);
    ShiftedBelow(v, Back(n, bits), bits);
    BitwiseBound(OrBits, ShiftLeft(v, n) % Pow2(bits), ShiftRight(v, Back(n, bits)), bits);
  }

  lemma ShiftedBelow(v: nat, n: nat, bits: nat)
    requires v < Pow2(bits)
    ensures ShiftRight(v, n) < Pow2(bits)
  {
    DivNonNegative(v, Pow2(n));
    DivMod(v, Pow2(n));
    MulAtLeast(v / Pow2(n), Pow2(n));
  }

  lemma RotateWraps(x: Xlen, v: nat, n: nat)
    requires Fits(x, v) && n < BitsOf(x)
    ensures Wrap(x, Bitwise(OrBits, Wrap(x, ShiftLeft(v, n)), ShiftRight(v, Back(n, BitsOf(x))))) == RotateLeft(v, n, BitsOf(x))
    ensures Wrap(x, Bitwise(OrBits, ShiftRight(v, n), Wrap(x, ShiftLeft(v, Back(n, BitsOf(x)))))) == RotateRight(v, n, BitsOf(x))
  {
    var bits := BitsOf(x);
    var m := Back(n, bits);
    Pow2Values();
    BackTwice(n, bits);
    WrapIsPow2(x, ShiftLeft(v, n));
    WrapIsPow2(x, ShiftLeft(v, m));
    ShiftsRotate(v, n, bits);
    ShiftsRotateRight(v, n, bits);
    RotateFits(v, n, bits);
    RotateFits(v, m, bits);
    WrapFits(x, RotateLeft(v, n, bits));
    WrapFits(x, RotateLeft(v, m, bits));
  }

  lemma RolIsRotation(x: Xlen, env: Env, s: State, rs1: nat, rs2: nat)
    requires GoodState(x, s)
    ensures Eval(x, env, s, LiftRol(x, rs1, rs2)) == RotateLeft(ReadReg(s, rs1), ReadReg(s, rs2) % BitsOf(x), BitsOf(x))
  {
    RegFits(x, env, s, rs1);
    AmountMeans(x, env, s, BitsOf(x), rs2);
    ComplementMeans(x, env, s, BitsOf(x), rs2);
    OrOfShifts(x, env, s, Reg(rs1), Amount(x, BitsOf(x), rs2), Complement(x, BitsOf(x), rs2));
    RotateWraps(x, ReadReg(s, rs1), ReadReg(s, rs2) % BitsOf(x));
  }

  lemma RorIsRotation(x: Xlen, env: Env, s: State, rs1: nat, rs2: nat)
    requires GoodState(x, s)
    ensures Eval(x, env, s, LiftRor(x, rs1, rs2)) == RotateRight(ReadReg(s, rs1), ReadReg(s, rs2) % BitsOf(x), BitsOf(x))
  {
    RegFits(x, env, s, rs1);
    AmountMeans(x, env, s, BitsOf(x), rs2);
    ComplementMeans(x, env, s, BitsOf(x), rs2);
    OrOfShifts(x, env, s, Reg(rs1), Complement(x, BitsOf(x), rs2), Amount(x, BitsOf(x), rs2));
    RotateWraps(x, ReadReg(s, rs1), ReadReg(s, rs2) % BitsOf(x));
  }

  lemma ImmediateBack(x: Xlen, shamt: nat)
    requires shamt < BitsOf(x)
    ensures (BitsOf(x) - shamt) % BitsOf(x) == Back(shamt, BitsOf(x))
  {
    match x
    case Rv32 => assert (32 - shamt) % 32 == Back(shamt, 32);
    case Rv64 => assert (64 - shamt) % 64 == Back(shamt, 64);
  }

  lemma RoriIsRotation(x: Xlen, env: Env, s: State, rs1: nat, shamt: nat)
    requires GoodState(x, s) && shamt < BitsOf(x)
    ensures Eval(x, env, s, LiftRori(x, rs1, shamt)) == RotateRight(ReadReg(s, rs1), shamt, BitsOf(x))
  {
    RegFits(x, env, s, rs1);
    SmallFits(x, shamt);
    ImmediateBack(x, shamt);
    SmallFits(x, Back(shamt, BitsOf(x)));
    OrOfShifts(x, env, s, Reg(rs1), Imm(Back(shamt, BitsOf(x))), Imm(shamt));
    RotateWraps(x, ReadReg(s, rs1), shamt);
  }

  // ----- 32-bit rotates -----

  lemma SmallMod(r: nat)
    requires r < 0x1_0000_0000
    ensures r % 0x1_0000_0000 == r
  {
  }

  lemma OrLow(l: nat, r: nat, a: nat)
    requires l % 0x1_0000_0000 == a && r < 0x1_0000_0000
    ensures Wrap(Rv64, Bitwise(OrBits, l, r)) % 0x1_0000_0000 == Bitwise(OrBits, a, r)
  {
    BitwiseLow(Rv64, OrBits, l, a, r);
    SmallMod(r);
  }

  lemma WordShifts(v: nat, n: nat)
    requires v < 0x1_0000_0000 && n < 32
    ensures Bitwise(OrBits, ShiftLeft(v, n) % 0x1_0000_0000, ShiftRight(v, Back(n, 32))) == RotateLeft(v, n, 32)
    ensures ShiftRight(v, Back(n, 32)) < 0x1_0000_0000
  {
    Pow2Values();
    ShiftedBelow(v, Back(n, 32), 32);
    ShiftsRotate(v, n, 32);
  }

  /** The low half of the or of two 64-bit shifts of a 32-bit value. */
  lemma WordRotate(v: nat, n: nat)
    requires v < 0x1_0000_0000 && n < 32
    ensures Wrap(Rv64, Bitwise(OrBits, Wrap(Rv64, ShiftLeft(v, n)), ShiftRight(v, Back(n, 32)))) % 0x1_0000_0000 == RotateLeft(v, n, 32)
  {
    Low32(Rv64, ShiftLeft(v, n));
    WordShifts(v, n);
    OrLow(Wrap(Rv64, ShiftLeft(v, n)), ShiftRight(v, Back(n, 32)), ShiftLeft(v, n) % 0x1_0000_0000);
  }

  lemma WordRotateRight(v: nat, n: nat)
    requires v < 0x1_0000_0000 && n < 32
    ensures Wrap(Rv64, Bitwise(OrBits, ShiftRight(v, n), Wrap(Rv64, ShiftLeft(v, Back(n, 32))))) % 0x1_0000_0000 == RotateRight(v, n, 32)
  {
    BackTwice(n, 32);
    WordRotate(v, Back(n, 32));
    OrCommutes(ShiftRight(v, n), Wrap(Rv64, ShiftLeft(v, Back(n, 32))));
  }

  lemma LowWord(env: Env, s: State, rs1: nat)
    requires GoodState(Rv64, s)
    ensures Eval(Rv64, env, s, Atomics.Zext32(Rv64, Reg(rs1))) == ReadReg(s, rs1) % 0x1_0000_0000
  {
    RegFits(Rv64, env, s, rs1);
    UnarySound(Rv64, env, s, UnaryOp.Zext32, Reg(rs1));
  }

  lemma ExtendedWord(env: Env, s: State, e: Expr, v: nat)
    requires Eval(Rv64, env, s, e) % 0x1_0000_0000 == v
    ensures Eval(Rv64, env, s, MakeSext32(Rv64, e)) == Wrap(Rv64, Signed32(v))
  {
    Sext32Sound(Rv64, env, s, e);
    SignedLow(Eval(Rv64, env, s, e));
  }

  lemma RolwIsRotation(env: Env, s: State, rs1: nat, rs2: nat)
    requires GoodState(Rv64, s)
    ensures Eval(Rv64, env, s, LiftRolw(rs1, rs2)) ==
              Wrap(Rv64, Signed32(RotateLeft(ReadReg(s, rs1) % 0x1_0000_0000, ReadReg(s, rs2) % 32, 32)))
  {
    var val, l, r := Atomics.Zext32(Rv64, Reg(rs1)), Amount(Rv64, 32, rs2), Complement(Rv64, 32, rs2);
    LowWord(env, s, rs1);
    AmountMeans(Rv64, env, s, 32, rs2);
    ComplementMeans(Rv64, env, s, 32, rs2);
    OrOfShifts(Rv64, env, s, val, l, r);
    WordRotate(ReadReg(s, rs1) % 0x1_0000_0000, ReadReg(s, rs2) % 32);
    ExtendedWord(env, s, LeftThenRight(Rv64, val, l, r), RotateLeft(ReadReg(s, rs1) % 0x1_0000_0000, ReadReg(s, rs2) % 32, 32));
  }

  lemma RorwIsRotation(env: Env, s: State, rs1: nat, rs2: nat)
    requires GoodState(Rv64, s)
    ensures Eval(Rv64, env, s, LiftRorw(rs1, rs2)) ==
              Wrap(Rv64, Signed32(RotateRight(ReadReg(s, rs1) % 0x1_0000_0000, ReadReg(s, rs2) % 32, 32)))
  {
    var val, r, l := Atomics.Zext32(Rv64, Reg(rs1)), Amount(Rv64, 32, rs2), Complement(Rv64, 32, rs2);
    LowWord(env, s, rs1);
    AmountMeans(Rv64, env, s, 32, rs2);
    ComplementMeans(Rv64, env, s, 32, rs2);
    OrOfShifts(Rv64, env, s, val, l, r);
    WordRotateRight(ReadReg(s, rs1) % 0x1_0000_0000, ReadReg(s, rs2) % 32);
    ExtendedWord(env, s, RightThenLeft(Rv64, val, r, l), RotateRight(ReadReg(s, rs1) % 0x1_0000_0000, ReadReg(s, rs2) % 32, 32));
  }

  lemma RoriwIsRotation(env: Env, s: State, rs1: nat, shamt: nat)
    requires GoodState(Rv64, s) && shamt < 32
    ensures Eval(Rv64, env, s, LiftRoriw(rs1, shamt)) ==
              Wrap(Rv64, Signed32(RotateRight(ReadReg(s, rs1) % 0x1_0000_0000, shamt, 32)))
  {
    var val := Atomics.Zext32(Rv64, Reg(rs1));
    LowWord(env, s, rs1);
    SmallFits(Rv64, shamt);
    SmallFits(Rv64, Back(shamt, 32));
    assert (32 - shamt) % 32 == Back(shamt, 32);
    OrOfShifts(Rv64, env, s, val, Imm(Back(shamt, 32)), Imm(shamt));
    WordRotateRight(ReadReg(s, rs1) % 0x1_0000_0000, shamt);
    ExtendedWord(env, s, RightThenLeft(Rv64, val, Imm(shamt), Imm(Back(shamt, 32))), RotateRight(ReadReg(s, rs1) % 0x1_0000_0000, shamt, 32));
  }

  // ----- bit by bit -----

  /** Bit i of v is bit i + n, taken round, of v rotated left by n. */
  lemma RotatedBit(v: nat, n: nat, bits: nat, i: nat)
    requires n < bits && i < bits && v < Pow2(bits)
    ensures Bit(RotateLeft(v, n, bits), (i + n) % bits) == Bit(v, i)
  {
    Around(i, n, bits);
    RotatedAt(v, n, bits, i, (i + n) % bits);
  }

  lemma RotatedAt(v: nat, n: nat, bits: nat, i: nat, j: nat)
    requires n < bits && i < bits && v < Pow2(bits) && j == if i + n < bits then i + n else i + n - bits
    ensures Bit(RotateLeft(v, n, bits), j) == Bit(v, i)
  {
    if i < bits - n {
      RotatedLow(v, n, bits - n, i);
    } else {
      RotatedHigh(v, n, bits - n, i);
    }
  }

  lemma RotateByZero(v: nat, bits: nat)
    requires v < Pow2(bits)
    ensures RotateLeft(v, 0, bits) == v
  {
    ShiftByZero(v);
    DivModUnique(v, Pow2(bits), 0, v);
  }

  lemma Around(i: nat, n: nat, bits: nat)
    requires i < bits && n < bits
    ensures (i + n) % bits == if i + n < bits then i + n else i + n - bits
  {
    if i + n < bits {
      DivModUnique(i + n, bits, 0, i + n);
    } else {
      DivModUnique(i + n, bits, 1, i + n - bits);
    }
  }

  lemma Rotated(v: nat, n: nat, m: nat)
    requires v < Pow2(n + m)
    ensures RotateLeft(v, n, n + m) == (v % Pow2(m)) * Pow2(n) + v / Pow2(m) && 0 <= v / Pow2(m) < Pow2(n)
  {
    SplitShift(v, n, m);
    QuotientBelow(v, n, m);
  }

  lemma RotatedLow(v: nat, n: nat, m: nat, i: nat)
    requires v < Pow2(n + m) && i < m
    ensures Bit(RotateLeft(v, n, n + m), i + n) == Bit(v, i)
  {
    var r := RotateLeft(v, n, n + m);
    Rotated(v, n, m);
    DivModUnique(r, Pow2(n), v % Pow2(m), v / Pow2(m));
    DivDiv(r, n, i);
    BitOfRemainder(v, m, i);
  }

  lemma RotatedHigh(v: nat, n: nat, m: nat, i: nat)
    requires v < Pow2(n + m) && m <= i < n + m
    ensures Bit(RotateLeft(v, n, n + m), i - m) == Bit(v, i)
  {
    var r := RotateLeft(v, n, n + m);
    Rotated(v, n, m);
    DivModUnique(r, Pow2(n), v % Pow2(m), v / Pow2(m));
    BitOfRemainder(r, n, i - m);
    DivDiv(v, m, i - m);
  }
}
