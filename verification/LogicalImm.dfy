/**
  The ARM64 test for immediates of logical instructions: a repeated element that is a
  rotated run of ones.
 */
module LogicalImm {
  import opened Bits
  import opened Atomics
  import opened Rotates

  // ----- what can be encoded -----

  /** The low `size` bits of v, rotated by n, are k ones. */
  ghost predicate RunOfOnes(v: nat, size: nat, n: nat, k: nat) {
    0 < k < size && n < size && forall i | 0 <= i < size :: Bit(v, i) == ((i + n) % size < k)
  }

  ghost predicate IsRun(v: nat, size: nat) {
    exists n: nat, k: nat :: RunOfOnes(v, size, n, k)
  }

  /** All `bits` bits repeat an element of `size` bits that is a rotated run of ones. */
  ghost predicate Repeats(v: nat, bits: nat, size: nat) {
    exists n: nat, k: nat :: RepeatsRun(v, bits, size, n, k)
  }

  ghost predicate RepeatsRun(v: nat, bits: nat, size: nat, n: nat, k: nat) {
    0 < k < size <= bits && n < size && forall i | 0 <= i < bits :: Bit(v, i) == ((i + n) % size < k)
  }

  /** An element size of at most `bits`: 2, 4, 8, 16, 32 or 64. */
  ghost predicate Encodable(v: nat, bits: nat) {
    exists e: nat :: 1 <= e <= 6 && Repeats(v, bits, Pow2(e))
  }

  // ----- rotated masks -----

  /** Rotation by two shifts of a 64-bit word and a mask of the element. */
  function RotatedElement(v: nat, rot: nat, size: nat): nat
    requires rot < size
  {
    if rot == 0 then v
    else Bitwise(AndBits, Bitwise(OrBits, ShiftRight(v, rot), ShiftLeft(v, size - rot) % 0x1_0000_0000_0000_0000), Pow2(size) - 1)
  }

  lemma Pow2Divides(size: nat, v: nat)
    requires size <= 64
    ensures (v % 0x1_0000_0000_0000_0000) % Pow2(size) == v % Pow2(size)
  {
    Pow2Add(64 - size, size);
    Pow2Values();
    ModOfMultiple(v, Pow2(64), Pow2(64 - size), Pow2(size));
  }

  lemma RotatedIsRotation(v: nat, rot: nat, size: nat)
    requires rot < size <= 64 && v < Pow2(size)
    ensures RotatedElement(v, rot, size) == RotateRight(v, rot, size)
  {
    if rot == 0 {
      RotateByZero(v, size);
    } else {
      var l := ShiftLeft(v, size - rot);
      AndOnes(Bitwise(OrBits, ShiftRight(v, rot), l % 0x1_0000_0000_0000_0000), size);
      BitwiseTruncates(OrBits, ShiftRight(v, rot), l % 0x1_0000_0000_0000_0000, size);
      Pow2Divides(size, l);
      ShiftedBelow(v, rot, size);
      DivModUnique(ShiftRight(v, rot), Pow2(size), 0, ShiftRight(v, rot));
      ShiftsRotateRight(v, rot, size);
    }
  }

  lemma RotatedToRun(v: nat, size: nat, n: nat, k: nat)
    requires n < size && v < Pow2(size) && 0 < k < size && RotateLeft(v, n, size) == Pow2(k) - 1
    ensures RunOfOnes(v, size, n, k)
  {
    forall i | 0 <= i < size
      ensures Bit(v, i) == ((i + n) % size < k)
    {
      Around(i, n, size);
      RotatedBit(v, n, size, i);
      BitOfOnes(k, (i + n) % size);
    }
  }

  lemma RunBit(v: nat, size: nat, n: nat, k: nat, j: nat)
    requires v < Pow2(size) && RunOfOnes(v, size, n, k) && j < size
    ensures Bit(RotateLeft(v, n, size), j) == Bit(Pow2(k) - 1, j)
  {
    var i := (j + Back(n, size)) % size;
    ComeBack(j, n, size);
    RotatedBit(v, n, size, i);
    BitOfOnes(k, j);
  }

  /** A value is a run of ones rotated by n exactly when rotating it back gives the run. */
  lemma RunByRotation(v: nat, size: nat, n: nat, k: nat)
    requires n < size && v < Pow2(size) && 0 < k < size
    ensures RunOfOnes(v, size, n, k) <==> RotateLeft(v, n, size) == Pow2(k) - 1
  {
    if RotateLeft(v, n, size) == Pow2(k) - 1 {
      RotatedToRun(v, size, n, k);
    }
    if RunOfOnes(v, size, n, k) {
      RunRotated(v, size, n, k);
    }
  }

  lemma RunRotated(v: nat, size: nat, n: nat, k: nat)
    requires n < size && v < Pow2(size) && 0 < k < size && RunOfOnes(v, size, n, k)
    ensures RotateLeft(v, n, size) == Pow2(k) - 1
  {
    forall j | 0 <= j < size
      ensures Bit(RotateLeft(v, n, size), j) == Bit(Pow2(k) - 1, j)
    {
      RunBit(v, size, n, k, j);
    }
    RotateFits(v, n, size);
    Pow2Less(k, size);
    SameBits(RotateLeft(v, n, size), Pow2(k) - 1, size);
  }

  lemma ComeBack(j: nat, n: nat, size: nat)
    requires j < size && n < size
    ensures (j + Back(n, size)) % size < size && ((j + Back(n, size)) % size + n) % size == j
  {
    Around(j, Back(n, size), size);
    Around((j + Back(n, size)) % size, n, size);
  }

  lemma {:induction false} Pow2Less(k: nat, n: nat)
    requires k < n
    ensures Pow2(k) < Pow2(n)
    decreases n
  {
    if k < n - 1 {
      Pow2Less(k, n - 1);
    }
  }

  /** Runs shorter than the element, and none of length zero. */
  lemma RunLength(r: nat, size: nat, k: nat)
    requires r == Pow2(k) - 1 && 0 < r < Pow2(size) - 1
    ensures 0 < k < size
  {
    if k > size {
      Pow2Less(size, k);
    }
    assert Pow2(0) == 1;
  }

  lemma OnesToRun(v: nat, size: nat, n: nat)
    requires n < size && 0 < v < Pow2(size) - 1 && exists k: nat :: OnesOf(RotateLeft(v, n, size), k)
    ensures exists k: nat :: RunOfOnes(v, size, n, k)
  {
    var k: nat :| OnesOf(RotateLeft(v, n, size), k);
    RotateKeepsMixed(v, n, size);
    RunLength(RotateLeft(v, n, size), size, k);
    RotatedToRun(v, size, n, k);
  }

  lemma RunToOnes(v: nat, size: nat, n: nat, k: nat)
    requires v < Pow2(size) && RunOfOnes(v, size, n, k)
    ensures OnesOf(RotateLeft(v, n, size), k)
  {
    RunByRotation(v, size, n, k);
  }

  /** The test of one rotation. */
  lemma RotationTest(v: nat, size: nat, rot: nat)
    requires rot < size <= 64 && 0 < v < Pow2(size) - 1
    ensures Bitwise(AndBits, RotatedElement(v, rot, size), RotatedElement(v, rot, size) + 1) == 0 <==>
              exists k: nat :: RunOfOnes(v, size, Back(rot, size), k)
  {
    RotatedIsRotation(v, rot, size);
    OnesAndSuccessor(RotateRight(v, rot, size));
    BackTwice(rot, size);
    if exists k: nat :: OnesOf(RotateRight(v, rot, size), k) {
      OnesToRun(v, size, Back(rot, size));
    }
    if k: nat :| RunOfOnes(v, size, Back(rot, size), k) {
      RunToOnes(v, size, Back(rot, size), k);
    }
  }

  /** Rotation turns neither zero nor all ones out of anything else. */
  lemma RotateKeepsMixed(v: nat, n: nat, size: nat)
    requires n < size && 0 < v < Pow2(size) - 1
    ensures 0 < RotateLeft(v, n, size) < Pow2(size) - 1
  {
    var r := RotateLeft(v, n, size);
    RotateFits(v, n, size);
    if r == 0 || r == Pow2(size) - 1 {
      var one := r != 0;
      forall i | 0 <= i < size
        ensures Bit(v, i) == one
      {
        RotatedBit(v, n, size, i);
        Around(i, n, size);
        BitOfZero((i + n) % size);
        BitOfOnes(size, (i + n) % size);
      }
      AllBits(v, size, one);
    }
  }

  lemma AllBits(v: nat, size: nat, one: bool)
    requires v < Pow2(size) && forall i | 0 <= i < size :: Bit(v, i) == one
    ensures v == if one then Pow2(size) - 1 else 0
  {
    var w := if one then Pow2(size) - 1 else 0;
    forall i | 0 <= i < size
      ensures Bit(v, i) == Bit(w, i)
    {
      BitOfZero(i);
      BitOfOnes(size, i);
    }
    SameBits(v, w, size);
  }

  /** Is the value a rotated run of ones among `size` bits? */
  method IsRotatedMask(value: nat, size: nat) returns (found: bool)
    requires size <= 64
    ensures found <==> IsRun(value % Pow2(size), size)
  {
    if size == 0 {
      return false;
    }
    var v := Bitwise(AndBits, value, Pow2(size) - 1);
    AndOnes(value, size);
    if v == 0 || v == Pow2(size) - 1 {
      NoRun(v, size);
      return false;
    }
    for rot := 0 to size
      invariant forall p: nat, k: nat | p < rot :: !RunOfOnes(v, size, Back(p, size), k)
    {
      var r := RotatedElement(v, rot, size);
      RotationTest(v, size, rot);
      if Bitwise(AndBits, r, r + 1) == 0 {
        return true;
      }
    }
    NoRotation(v, size);
    return false;
  }

  lemma NoRun(v: nat, size: nat)
    requires size > 0 && (v == 0 || v == Pow2(size) - 1)
    ensures !IsRun(v, size)
  {
    forall n: nat, k: nat
      ensures !RunOfOnes(v, size, n, k)
    {
      if RunOfOnes(v, size, n, k) {
        var a, b := BothBits(v, size, n, k);
        BitOfZero(a);
        BitOfOnes(size, b);
      }
    }
  }

  /** A run of ones has a one and a zero. */
  lemma BothBits(v: nat, size: nat, n: nat, k: nat) returns (a: nat, b: nat)
    requires RunOfOnes(v, size, n, k)
    ensures a < size && b < size && Bit(v, a) && !Bit(v, b)
  {
    a, b := (0 + Back(n, size)) % size, (k + Back(n, size)) % size;
    ComeBack(0, n, size);
    ComeBack(k, n, size);
  }

  lemma NoRotation(v: nat, size: nat)
    requires size > 0 && forall p: nat, k: nat | p < size :: !RunOfOnes(v, size, Back(p, size), k)
    ensures !IsRun(v, size)
  {
    forall n: nat, k: nat
      ensures !RunOfOnes(v, size, n, k)
    {
      if n < size {
        BackTwice(n, size);
        assert !RunOfOnes(v, size, Back(Back(n, size), size), k);
      }
    }
  }

  // ----- repetition -----

  /** `size` divides `bits`. */
  ghost predicate Divides(size: nat, bits: nat) {
    exists m: nat :: size * m == bits
  }

  lemma RepeatedIndex(i: nat, n: nat, size: nat)
    requires size > 0 && n < size
    ensures (i % size + n) % size == (i + n) % size && i % size < size
  {
    DivMod(i, size);
    DivMod(i % size + n, size);
    var q := i / size + (i % size + n) / size;
    assert q * size == (i / size) * size + ((i % size + n) / size) * size;
    DivModUnique(i + n, size, q, (i % size + n) % size);
  }

  /** Each bit is the bit of the element it repeats. */
  ghost predicate Replicates(v: nat, bits: nat, pattern: nat, size: nat)
    requires size > 0
  {
    forall i: nat | i < bits :: Bit(v, i) == Bit(pattern, i % size)
  }

  /** Repeating a rotated run is repeating an element that is a rotated run. */
  lemma RepeatsByElement(v: nat, bits: nat, size: nat, n: nat, k: nat)
    requires 0 < size <= bits
    ensures RepeatsRun(v, bits, size, n, k) <==>
              RunOfOnes(v % Pow2(size), size, n, k) && Replicates(v, bits, v % Pow2(size), size)
  {
    var p := v % Pow2(size);
    if RepeatsRun(v, bits, size, n, k) {
      forall i: nat | i < bits
        ensures Bit(v, i) == Bit(p, i % size) && (i < size ==> Bit(p, i) == ((i + n) % size < k))
      {
        ElementBit(v, bits, size, n, k, i);
      }
    } else if RunOfOnes(p, size, n, k) && Replicates(v, bits, p, size) {
      ReplicatedRun(v, bits, size, n, k);
    }
  }

  lemma ElementBit(v: nat, bits: nat, size: nat, n: nat, k: nat, i: nat)
    requires 0 < size <= bits && i < bits && RepeatsRun(v, bits, size, n, k)
    ensures var p := v % Pow2(size);
            Bit(v, i) == Bit(p, i % size) && (i < size ==> Bit(p, i) == ((i + n) % size < k))
  {
    RepeatedIndex(i, n, size);
    BitOfRemainder(v, size, i % size);
    if i < size {
      BitOfRemainder(v, size, i);
    }
  }

  lemma ReplicatedRun(v: nat, bits: nat, size: nat, n: nat, k: nat)
    requires 0 < size <= bits
    requires RunOfOnes(v % Pow2(size), size, n, k) && Replicates(v, bits, v % Pow2(size), size)
    ensures RepeatsRun(v, bits, size, n, k)
  {
    forall i: nat | i < bits
      ensures Bit(v, i) == ((i + n) % size < k)
    {
      RepeatedIndex(i, n, size);
    }
  }

  lemma RepeatsIff(v: nat, bits: nat, size: nat)
    requires 0 < size <= bits
    ensures Repeats(v, bits, size) <==> IsRun(v % Pow2(size), size) && Replicates(v, bits, v % Pow2(size), size)
  {
    var p := v % Pow2(size);
    if n: nat, k: nat :| RepeatsRun(v, bits, size, n, k) {
      RepeatsByElement(v, bits, size, n, k);
    }
    if Replicates(v, bits, p, size) {
      if n: nat, k: nat :| RunOfOnes(p, size, n, k) {
        RepeatsByElement(v, bits, size, n, k);
      }
    }
  }

  /** `replicated` holds the pattern in its first `shift` bits. */
  ghost predicate FilledTo(replicated: nat, shift: nat, pattern: nat, size: nat)
    requires size > 0
  {
    replicated < Pow2(shift) && Replicates(replicated, shift, pattern, size)
  }

  lemma FillSum(replicated: nat, shift: nat, pattern: nat, size: nat)
    requires pattern < Pow2(size) && replicated < Pow2(shift)
    ensures var r := Bitwise(OrBits, replicated, ShiftLeft(pattern, shift));
            r / Pow2(shift) == pattern && r % Pow2(shift) == replicated && r < Pow2(shift + size)
  {
    var r := Bitwise(OrBits, replicated, ShiftLeft(pattern, shift));
    OrCommutes(replicated, ShiftLeft(pattern, shift));
    OrDisjoint(pattern, replicated, shift);
    DivModUnique(r, Pow2(shift), pattern, replicated);
    Pow2Add(size, shift);
    Stacked(pattern, replicated, Pow2(size), Pow2(shift));
  }

  lemma FillBit(r: nat, m: nat, pattern: nat, size: nat, i: nat)
    requires size > 0 && size * m <= i < size * m + size && r / Pow2(size * m) == pattern
    ensures Bit(r, i) == Bit(pattern, i % size)
  {
    DivDiv(r, size * m, i - size * m);
    DivModUnique(i, size, m, i - size * m);
  }

  lemma FillMore(replicated: nat, m: nat, pattern: nat, size: nat)
    requires size > 0 && pattern < Pow2(size) && FilledTo(replicated, size * m, pattern, size)
    ensures FilledTo(Bitwise(OrBits, replicated, ShiftLeft(pattern, size * m)), size * m + size, pattern, size)
  {
    var shift := size * m;
    var r := Bitwise(OrBits, replicated, ShiftLeft(pattern, shift));
    FillSum(replicated, shift, pattern, size);
    forall i: nat | i < shift + size
      ensures Bit(r, i) == Bit(pattern, i % size)
    {
      if i < shift {
        BitOfRemainder(r, shift, i);
      } else {
        FillBit(r, m, pattern, size, i);
      }
    }
  }

  lemma Stacked(p: int, r: int, a: int, b: int)
    requires 0 <= p < a && 0 <= r < b
    ensures p * b + r < a * b
  {
    assert (a - p) * b >= b by {
      MulGrows(a - p, b);
    }
    assert (a - p) * b == a * b - p * b;
  }

  /** The pattern in every element of `bits` bits. */
  method Replicate(pattern: nat, size: nat, bits: nat) returns (replicated: nat)
    requires 0 < size && pattern < Pow2(size) && Divides(size, bits)
    ensures FilledTo(replicated, bits, pattern, size)
  {
    replicated := 0;
    var shift := 0;
    ghost var m: nat := 0;
    ghost var all: nat :| size * all == bits;
    while shift < bits
      invariant shift == size * m && shift <= bits
      invariant FilledTo(replicated, shift, pattern, size)
    {
      FillMore(replicated, m, pattern, size);
      NextMultiple(size, m, all);
      replicated := Bitwise(OrBits, replicated, ShiftLeft(pattern, shift));
      shift, m := shift + size, m + 1;
    }
  }

  lemma NextMultiple(size: nat, m: nat, all: nat)
    requires size > 0 && size * m < size * all
    ensures size * m + size == size * (m + 1) <= size * all
  {
    assert size * (m - all) == size * m - size * all;
    if m >= all {
      MulNonNegative(size, m - all);
    } else {
      MulNonNegative(size, all - m - 1);
      assert size * (all - m - 1) == size * all - size * (m + 1);
    }
  }

  /** Comparing with the replicated element tells whether the bits repeat. */
  lemma ReplicatedIff(v: nat, bits: nat, size: nat, replicated: nat)
    requires 0 < size <= bits && v < Pow2(bits) && FilledTo(replicated, bits, v % Pow2(size), size)
    ensures replicated == v <==> Replicates(v, bits, v % Pow2(size), size)
  {
    if Replicates(v, bits, v % Pow2(size), size) {
      forall i | 0 <= i < bits
        ensures Bit(replicated, i) == Bit(v, i)
      {
      }
      SameBits(replicated, v, bits);
    }
  }

  // ----- the test -----

  lemma SizeDivides(e: nat, is32: bool)
    requires 1 <= e && Pow2(e) <= (if is32 then 32 else 64)
    ensures e <= (if is32 then 5 else 6) && Divides(Pow2(e), if is32 then 32 else 64)
  {
    var top := if is32 then 5 else 6;
    Pow2Small();
    if e > top {
      Pow2Less(top, e);
    }
    Pow2Add(e, top - e);
    assert Pow2(e) * Pow2(top - e) == (if is32 then 32 else 64);
  }

  lemma MixedOnly(v: nat, bits: nat)
    requires bits > 0 && (v == 0 || v == Pow2(bits) - 1)
    ensures !Encodable(v, bits)
  {
    forall e: nat | 1 <= e <= 6
      ensures !Repeats(v, bits, Pow2(e))
    {
      forall n: nat, k: nat
        ensures !RepeatsRun(v, bits, Pow2(e), n, k)
      {
        NoRepeat(v, bits, Pow2(e), n, k);
      }
    }
  }

  lemma NoRepeat(v: nat, bits: nat, size: nat, n: nat, k: nat)
    requires bits > 0 && (v == 0 || v == Pow2(bits) - 1)
    ensures !RepeatsRun(v, bits, size, n, k)
  {
    if 0 < k < size <= bits && n < size {
      var a, b := (0 + Back(n, size)) % size, (k + Back(n, size)) % size;
      ComeBack(0, n, size);
      ComeBack(k, n, size);
      BitOfZero(a);
      BitOfZero(b);
      BitOfOnes(bits, a);
      BitOfOnes(bits, b);
    }
  }

  /** The test accepts exactly the values whose bits repeat a rotated run of ones. */
  method IsLogicalImm(value: nat, is32: bool) returns (ok: bool)
    requires value < Pow2(if is32 then 32 else 64)
    ensures ok <==> Encodable(value, if is32 then 32 else 64)
  {
    var bits := if is32 then 32 else 64;
    if value == 0 || value == Pow2(bits) - 1 {
      MixedOnly(value, bits);
      return false;
    }
    var size: nat := 2;
    ghost var e: nat := 1;
    assert Pow2(1) == 2;
    while size <= bits
      invariant e >= 1 && size == Pow2(e)
      invariant forall d: nat | 1 <= d < e :: !Repeats(value, bits, Pow2(d))
      decreases 2 * bits - size
    {
      SizeDivides(e, is32);
      var pattern := Bitwise(AndBits, value, Pow2(size) - 1);
      AndOnes(value, size);
      var replicated := Replicate(pattern, size, bits);
      var run := IsRotatedMask(pattern, size);
      DivModUnique(pattern, Pow2(size), 0, pattern);
      ReplicatedIff(value, bits, size, replicated);
      RepeatsIff(value, bits, size);
      if replicated == value && run {
        assert Repeats(value, bits, Pow2(e));
        return true;
      }
      size, e := 2 * size, e + 1;
    }
    TooLarge(value, bits, e);
    return false;
  }

  lemma TooLarge(v: nat, bits: nat, e: nat)
    requires Pow2(e) > bits && forall d: nat | 1 <= d < e :: !Repeats(v, bits, Pow2(d))
    ensures !Encodable(v, bits)
  {
    forall d: nat | 1 <= d <= 6
      ensures !Repeats(v, bits, Pow2(d))
    {
      if d > e {
        Pow2Less(e, d);
      }
    }
  }
}
