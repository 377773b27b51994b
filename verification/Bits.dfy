/**
  Bitwise operations, shifts and sign extension on natural numbers.
 */
module Bits {
  type Byte = b: nat | b < 256

  function LittleEndian(bytes: seq<Byte>): nat {
    if bytes == [] then 0 else bytes[0] + 256 * LittleEndian(bytes[1..])
  }

  function Pow2(n: nat): (p: nat)
    ensures p > 0
  {
    if n == 0 then 1 else 2 * Pow2(n - 1)
  }

  predicate Bit(v: nat, i: nat) {
    (v / Pow2(i)) % 2 == 1
  }

  datatype BitOp = AndBits | OrBits | XorBits
  {
    predicate Of(p: bool, q: bool) {
      match this
      case AndBits => p && q
      case OrBits => p || q
      case XorBits => p != q
    }
  }

  function Value(b: bool): nat {
    if b then 1 else 0
  }

  /** The bitwise combination of two numbers. */
  function Bitwise(op: BitOp, a: nat, b: nat): nat
    decreases a + b
  {
    if a == 0 && b == 0 then 0
    else 2 * Bitwise(op, a / 2, b / 2) + Value(op.Of(a % 2 == 1, b % 2 == 1))
  }

  lemma {:induction false} OrXorZero(op: BitOp, v: nat)
    requires !op.AndBits?
    ensures Bitwise(op, v, 0) == v && Bitwise(op, 0, v) == v
    decreases v
  {
    if v > 0 {
      OrXorZero(op, v / 2);
    }
  }

  // ----- powers and quotients -----

  lemma {:induction false} Pow2Add(m: nat, n: nat)
    ensures Pow2(m + n) == Pow2(m) * Pow2(n)
    decreases n
  {
    if n > 0 {
      Pow2Add(m, n - 1);
      assert Pow2(m + n) == 2 * Pow2(m + (n - 1));
      assert Pow2(m) * Pow2(n) == 2 * (Pow2(m) * Pow2(n - 1));
    }
  }

  /** The quotient and remainder that fit are the quotient and remainder. */
  lemma DivModUnique(v: int, d: int, q: int, r: int)
    requires d > 0 && v == q * d + r && 0 <= r < d
    ensures v / d == q && v % d == r
  {
    var k := v / d - q;
    assert v == (v / d) * d + v % d;
    assert k * d == r - v % d by {
      assert (v / d - q) * d == (v / d) * d - q * d;
    }
    assert (-k) * d == -(k * d);
    if k >= 1 {
      MulGrows(k, d);
    } else if k <= -1 {
      MulGrows(-k, d);
    }
  }

  lemma MulGrows(k: int, d: int)
    requires k >= 1 && d > 0
    ensures k * d >= d
  {
    assert k * d == (k - 1) * d + d;
    MulNonNegative(k - 1, d);
  }

  lemma MulNonNegative(a: int, b: int)
    requires a >= 0 && b >= 0
    ensures a * b >= 0
  {
  }

  lemma DivMod(v: int, d: int)
    requires d > 0
    ensures v == (v / d) * d + v % d && 0 <= v % d < d
  {
  }

  /** Dividing by 2 and then by d is dividing by 2 * d. */
  lemma HalveThenDivide(v: nat, d: nat)
    requires d > 0
    ensures (v / 2) / d == v / (2 * d) && v % (2 * d) == 2 * ((v / 2) % d) + v % 2
  {
    var h := v / 2;
    DivMod(h, d);
    assert v == (h / d) * (2 * d) + (2 * (h % d) + v % 2) by {
      assert (h / d) * (2 * d) == 2 * ((h / d) * d);
    }
    DivModUnique(v, 2 * d, h / d, 2 * (h % d) + v % 2);
  }

  // ----- bitwise operations and truncation -----

  lemma HalvesOf(a: nat, b: bool)
    ensures (2 * a + Value(b)) / 2 == a && (2 * a + Value(b)) % 2 == Value(b)
  {
  }

  /** Truncation commutes with bitwise operations. */
  lemma {:induction false} BitwiseTruncates(op: BitOp, a: nat, b: nat, n: nat)
    ensures Bitwise(op, a, b) % Pow2(n) == Bitwise(op, a % Pow2(n), b % Pow2(n))
    decreases n
  {
    if n > 0 {
      var d := Pow2(n - 1);
      BitwiseTruncates(op, a / 2, b / 2, n - 1);
      HalveThenDivide(a, d);
      HalveThenDivide(b, d);
      BitwiseStep(op, a, b);
      BitwiseStep(op, a % Pow2(n), b % Pow2(n));
      var r := Bitwise(op, a, b);
      HalveThenDivide(r, d);
      HalvesOf(Bitwise(op, a / 2, b / 2), op.Of(a % 2 == 1, b % 2 == 1));
      HalvesOf((a / 2) % d, a % 2 == 1);
      HalvesOf((b / 2) % d, b % 2 == 1);
    }
  }

  /** The defining step also holds for zero. */
  lemma BitwiseStep(op: BitOp, a: nat, b: nat)
    ensures Bitwise(op, a, b) == 2 * Bitwise(op, a / 2, b / 2) + Value(op.Of(a % 2 == 1, b % 2 == 1))
  {
  }

  lemma {:induction false} BitwiseBound(op: BitOp, a: nat, b: nat, n: nat)
    requires a < Pow2(n) && b < Pow2(n)
    ensures Bitwise(op, a, b) < Pow2(n)
    decreases n
  {
    if n > 0 {
      BitwiseBound(op, a / 2, b / 2, n - 1);
    }
  }

  /** Masking with ones is taking the remainder. */
  lemma {:induction false} AndOnes(v: nat, n: nat)
    ensures Bitwise(AndBits, v, Pow2(n) - 1) == v % Pow2(n)
    decreases n
  {
    if n == 0 {
      AndZero(v);
    } else {
      AndOnes(v / 2, n - 1);
      AndOnesStep(v, Pow2(n - 1), Pow2(n));
    }
  }

  lemma AndOnesStep(v: nat, d: nat, m: nat)
    requires d > 0 && m == 2 * d && Bitwise(AndBits, v / 2, d - 1) == (v / 2) % d
    ensures Bitwise(AndBits, v, m - 1) == v % m
  {
    HalveThenDivide(v, d);
    AndOdd(v, d - 1);
  }

  lemma AndOdd(v: nat, b: nat)
    ensures Bitwise(AndBits, v, 2 * b + 1) == 2 * Bitwise(AndBits, v / 2, b) + v % 2
  {
    BitwiseStep(AndBits, v, 2 * b + 1);
    assert (2 * b + 1) / 2 == b && (2 * b + 1) % 2 == 1;
  }

  lemma {:induction false} AndZero(v: nat)
    ensures Bitwise(AndBits, v, 0) == 0
    decreases v
  {
    if v > 0 {
      AndZero(v / 2);
    }
  }

  lemma MulDouble(a: nat, d: nat)
    ensures a * (2 * d) == 2 * (a * d)
  {
  }

  lemma EvenStep(m: nat, b: nat)
    ensures Bitwise(OrBits, 2 * m, b) == 2 * Bitwise(OrBits, m, b / 2) + b % 2
  {
    BitwiseStep(OrBits, 2 * m, b);
  }

  /** Numbers without common bits add up. */
  lemma {:induction false} OrDisjoint(a: nat, b: nat, n: nat)
    requires b < Pow2(n)
    ensures Bitwise(OrBits, ShiftLeft(a, n), b) == ShiftLeft(a, n) + b
    decreases n
  {
    if n == 0 {
      ShiftByZero(a);
      OrXorZero(OrBits, a);
    } else {
      var d := Pow2(n - 1);
      OrDisjoint(a, b / 2, n - 1);
      MulDouble(a, d);
      EvenStep(ShiftLeft(a, n - 1), b);
    }
  }

  // ----- shifts -----

  function ShiftLeft(v: nat, n: nat): nat {
    MulNonNegative(v, Pow2(n));
    v * Pow2(n)
  }

  /** Rounds down, also for negative numbers. */
  function ShiftRight(v: int, n: nat): (r: int)
    ensures v >= 0 ==> r >= 0
  {
    if v >= 0 then DivNonNegative(v, Pow2(n)); v / Pow2(n) else v / Pow2(n)
  }

  lemma DivNonNegative(v: nat, d: int)
    requires d > 0
    ensures v / d >= 0
  {
    DivMod(v, d);
  }

  lemma ShiftByZero(v: int)
    ensures ShiftRight(v, 0) == v && (v >= 0 ==> ShiftLeft(v, 0) == v)
  {
    assert Pow2(0) == 1;
  }

  // ----- single bits -----

  lemma Regroup(v: int, q: int, r: int, a: int, b: int)
    requires v == q * b + r
    ensures v * a == q * (a * b) + r * a
  {
    assert v * a == (q * b) * a + r * a;
    assert (q * b) * a == q * (a * b);
  }

  lemma DivDiv(v: nat, a: nat, b: nat)
    ensures (v / Pow2(a)) / Pow2(b) == v / Pow2(a + b)
  {
    var q := v / Pow2(a);
    DivNonNegative(v, Pow2(a));
    DivMod(v, Pow2(a));
    DivMod(q, Pow2(b));
    Pow2Add(a, b);
    var r := (q % Pow2(b)) * Pow2(a) + v % Pow2(a);
    Nested(v, q, Pow2(a), Pow2(b), q / Pow2(b), q % Pow2(b), v % Pow2(a));
    DivModUnique(v, Pow2(a) * Pow2(b), q / Pow2(b), r);
  }

  lemma Nested(v: int, q: int, a: int, b: int, q2: int, r2: int, r: int)
    requires a > 0 && b > 0 && v == q * a + r && 0 <= r < a && q == q2 * b + r2 && 0 <= r2 < b
    ensures v == q2 * (a * b) + (r2 * a + r) && 0 <= r2 * a + r < a * b
  {
    Regroup(q, q2, r2, a, b);
    MulNonNegative(r2, a);
    MulGrows(b - r2, a);
    assert (b - r2) * a == a * b - r2 * a;
  }

  /** Bits below n do not change when higher ones go. */
  lemma BitOfRemainder(v: nat, n: nat, k: nat)
    requires k < n
    ensures Bit(v % Pow2(n), k) == Bit(v, k)
  {
    var d := n - k - 1;
    Pow2Add(k, d + 1);
    DivMod(v, Pow2(n));
    var q, r := v / Pow2(n), v % Pow2(n);
    DivMod(r, Pow2(k));
    var high := q * Pow2(d + 1) + r / Pow2(k);
    assert v == high * Pow2(k) + r % Pow2(k) by {
      Regroup(high, q, r / Pow2(k), Pow2(k), Pow2(d + 1));
    }
    DivModUnique(v, Pow2(k), high, r % Pow2(k));
    EvenPart(q, Pow2(d), r / Pow2(k));
  }

  lemma EvenPart(q: int, p: int, r: int)
    ensures (q * (2 * p) + r) % 2 == r % 2
  {
    assert q * (2 * p) == 2 * (q * p);
  }

  /** Bitwise operations work bit by bit. */
  lemma {:induction false} BitOfBitwise(op: BitOp, a: nat, b: nat, i: nat)
    ensures Bit(Bitwise(op, a, b), i) == op.Of(Bit(a, i), Bit(b, i))
    decreases i
  {
    BitwiseStep(op, a, b);
    HalvesOf(Bitwise(op, a / 2, b / 2), op.Of(a % 2 == 1, b % 2 == 1));
    if i == 0 {
      assert Pow2(0) == 1;
    } else {
      BitOfBitwise(op, a / 2, b / 2, i - 1);
      BitOfHalf(a, i);
      BitOfHalf(b, i);
      BitOfHalf(Bitwise(op, a, b), i);
    }
  }

  lemma BitOfHalf(v: nat, i: nat)
    requires i > 0
    ensures Bit(v, i) == Bit(v / 2, i - 1)
  {
    HalveThenDivide(v, Pow2(i - 1));
  }

  /** Numbers with the same bits are the same. */
  lemma {:induction false} SameBits(a: nat, b: nat, n: nat)
    requires a < Pow2(n) && b < Pow2(n) && forall i | 0 <= i < n :: Bit(a, i) == Bit(b, i)
    ensures a == b
    decreases n
  {
    if n > 0 {
      forall i | 0 <= i < n - 1
        ensures Bit(a / 2, i) == Bit(b / 2, i)
      {
        BitOfHalf(a, i + 1);
        BitOfHalf(b, i + 1);
        assert Bit(a, i + 1) == Bit(b, i + 1);
      }
      SameBits(a / 2, b / 2, n - 1);
      LowBit(a);
      LowBit(b);
      assert Bit(a, 0) == Bit(b, 0);
    }
  }

  lemma LowBit(v: nat)
    ensures Bit(v, 0) == (v % 2 == 1)
  {
    assert Pow2(0) == 1;
  }

  lemma HalfOfOnes(p: nat)
    requires p > 0
    ensures (2 * p - 1) / 2 == p - 1 && (2 * p - 1) % 2 == 1
  {
  }

  /** Zero has no bits, a run of n ones has exactly the lowest n. */
  lemma {:induction false} BitOfOnes(n: nat, i: nat)
    ensures Bit(Pow2(n) - 1, i) == (i < n)
    decreases n
  {
    if n == 0 {
      BitOfZero(i);
    } else {
      HalfOfOnes(Pow2(n - 1));
      if i == 0 {
        assert Pow2(0) == 1;
      } else {
        BitOfHalf(Pow2(n) - 1, i);
        BitOfOnes(n - 1, i - 1);
      }
    }
  }

  lemma {:induction false} BitOfZero(i: nat)
    ensures !Bit(0, i)
  {
    DivModUnique(0, Pow2(i), 0, 0);
  }

  /** r is k ones. */
  predicate OnesOf(r: nat, k: nat) {
    r == Pow2(k) - 1
  }

  /** A number shares no bit with its successor exactly when it is a run of ones. */
  lemma {:induction false} OnesAndSuccessor(r: nat)
    ensures Bitwise(AndBits, r, r + 1) == 0 <==> exists k: nat :: OnesOf(r, k)
    decreases r
  {
    BitwiseStep(AndBits, r, r + 1);
    if r == 0 {
      assert Bitwise(AndBits, 0, 0) == 0;
      assert OnesOf(0, 0);
    } else if r % 2 == 1 {
      OnesAndSuccessor(r / 2);
      OddRun(r);
    } else {
      EvenNoRun(r);
    }
  }

  lemma OddRun(r: nat)
    requires r % 2 == 1
    ensures (exists k: nat :: OnesOf(r, k)) <==> exists k: nat :: OnesOf(r / 2, k)
  {
    if k: nat :| OnesOf(r, k) {
      assert k > 0;
      HalfOfOnes(Pow2(k - 1));
      assert OnesOf(r / 2, k - 1);
    }
    if k: nat :| OnesOf(r / 2, k) {
      assert OnesOf(r, k + 1);
    }
  }

  /** An even number above zero is no run of ones, and shares its top bits with its successor. */
  lemma {:induction false} EvenNoRun(r: nat)
    requires r > 0 && r % 2 == 0
    ensures Bitwise(AndBits, r, r + 1) != 0 && forall k: nat :: !OnesOf(r, k)
  {
    BitwiseStep(AndBits, r, r + 1);
    AndSelf(r / 2);
  }

  lemma {:induction false} AndSelf(v: nat)
    ensures Bitwise(AndBits, v, v) == v
    decreases v
  {
    if v > 0 {
      AndSelf(v / 2);
    }
  }
}
