/**
  The table of decoded instructions: one slot per two bytes.
 */
module InstructionTables {
  import opened Code
  import opened Bits

  const SLOT_SIZE: nat := 2

  /** A decoded instruction; the payload is whatever the decoder found. */
  datatype Decoding = Decoding(size: nat, payload: nat)

  datatype Slot = Slot(instr: Option<Decoding>, size: nat, raw: nat)

  const EMPTY_SLOT := Slot(None, 0, 0)

  /** Decodes the bytes at an address. */
  type Decoder = (seq<Byte>, nat) -> Option<Decoding>

  /** Instructions take two or four of the bytes given. */
  ghost predicate Sound(decode: Decoder) {
    forall bytes, pc :: decode(bytes, pc).Some? ==>
      decode(bytes, pc).value.size in {2, 4} && decode(bytes, pc).value.size <= |bytes|
  }

  /** Code at an address. */
  datatype Segment = Segment(start: nat, code: seq<Byte>)
  {
    function End(): nat {
      start + |code|
    }
  }

  ghost predicate Apart(a: Segment, b: Segment) {
    a.End() <= b.start || b.End() <= a.start
  }

  /** What slot i, at address pc, holds of segment g. */
  ghost predicate Holds(decode: Decoder, g: Segment, pc: nat, slot: Slot) {
    && g.start <= pc < g.End() && (pc - g.start) % 2 == 0
    && slot.instr == decode(g.code[pc - g.start..], pc) && slot.instr.Some?
    && slot.size == slot.instr.value.size && slot.size in {2, 4} && pc + slot.size <= g.End()
  }

  /** The raw encoding of a decoded instruction. */
  function RawAt(code: seq<Byte>, offset: nat, size: nat): nat
    requires offset + 2 <= |code|
  {
    if size == 2 then LittleEndian(code[offset..offset + 2])
    else if size == 4 && offset + 4 <= |code| then LittleEndian(code[offset..offset + 4])
    else 0
  }

  // ----- the sweep over a segment -----

  /** What the decoder finds k slots into the segment. */
  function InstrAt(decode: Decoder, g: Segment, k: nat): Option<Decoding> {
    if 2 * k + SLOT_SIZE <= |g.code| then decode(g.code[2 * k..], g.start + 2 * k) else None
  }

  predicate IsLong(instr: Option<Decoding>) {
    instr.Some? && instr.value.size == 4
  }

  /** The sweep, from the start and one instruction after the other, comes to slot k. */
  predicate Reached(decode: Decoder, g: Segment, k: nat) {
    || k == 0
    || (Reached(decode, g, k - 1) && !IsLong(InstrAt(decode, g, k - 1)))
    || (k >= 2 && Reached(decode, g, k - 2) && IsLong(InstrAt(decode, g, k - 2)))
  }

  /** It finds an instruction there. */
  predicate Found(decode: Decoder, g: Segment, k: nat) {
    Reached(decode, g, k) && InstrAt(decode, g, k).Some?
  }

  /** Slot k is the second half of an instruction it found. */
  predicate Covered(decode: Decoder, g: Segment, k: nat) {
    k > 0 && Found(decode, g, k - 1) && IsLong(InstrAt(decode, g, k - 1))
  }

  /** The sweep does not stop inside an instruction. */
  lemma {:induction false} NotInside(decode: Decoder, g: Segment, k: nat)
    requires Reached(decode, g, k)
    ensures !Covered(decode, g, k)
    decreases k
  {
    if k > 0 && Reached(decode, g, k - 1) && !(Reached(decode, g, k - 1) && !IsLong(InstrAt(decode, g, k - 1))) {
      NotInside(decode, g, k - 1);
    }
  }

  function NewSlot(decode: Decoder, g: Segment, k: nat): Slot
    requires InstrAt(decode, g, k).Some?
  {
    var instr := InstrAt(decode, g, k);
    Slot(instr, instr.value.size, RawAt(g.code, 2 * k, instr.value.size))
  }

  /** What slot i holds after a sweep that starts at slot `first`: the instruction found
      there, nothing behind a long one, else what it held before. */
  function SlotAfter(decode: Decoder, g: Segment, first: nat, before: Slot, i: nat): Slot {
    if i < first then before
    else if Found(decode, g, i - first) then NewSlot(decode, g, i - first)
    else if Covered(decode, g, i - first) then EMPTY_SLOT
    else before
  }

  /** Slots below `next` have been swept. */
  ghost predicate SweptTo(decode: Decoder, g: Segment, first: nat, next: nat, before: seq<Slot>, after: seq<Slot>) {
    && |after| == |before|
    && (forall i | 0 <= i < |after| :: after[i] == if i < next then SlotAfter(decode, g, first, before[i], i) else before[i])
  }

  ghost predicate Swept(decode: Decoder, g: Segment, first: nat, before: seq<Slot>, after: seq<Slot>) {
    SweptTo(decode, g, first, |before|, before, after)
  }

  lemma NothingSwept(decode: Decoder, g: Segment, first: nat, before: seq<Slot>)
    ensures SweptTo(decode, g, first, first, before, before)
  {
  }

  lemma SweepSkips(decode: Decoder, g: Segment, first: nat, k: nat, before: seq<Slot>, after: seq<Slot>)
    requires SweptTo(decode, g, first, first + k, before, after) && Reached(decode, g, k) && InstrAt(decode, g, k).None?
    ensures SweptTo(decode, g, first, first + k + 1, before, after) && Reached(decode, g, k + 1)
  {
    NotInside(decode, g, k);
  }

  lemma SweepPlaces(decode: Decoder, g: Segment, first: nat, k: nat, before: seq<Slot>, after: seq<Slot>)
    requires SweptTo(decode, g, first, first + k, before, after) && first + k < |after| && Found(decode, g, k)
    ensures SweptTo(decode, g, first, first + k + 1, before, after[first + k := NewSlot(decode, g, k)])
  {
  }

  lemma SweepClears(decode: Decoder, g: Segment, first: nat, k: nat, before: seq<Slot>, after: seq<Slot>)
    requires SweptTo(decode, g, first, first + k, before, after) && Covered(decode, g, k) && !Found(decode, g, k)
    ensures SweptTo(decode, g, first, first + k + 1, before, if first + k < |after| then after[first + k := EMPTY_SLOT] else after)
  {
  }

  /** The sweep goes on behind the instruction it found. */
  lemma GoesOn(decode: Decoder, g: Segment, k: nat)
    requires Found(decode, g, k)
    ensures !IsLong(InstrAt(decode, g, k)) ==> Reached(decode, g, k + 1)
    ensures IsLong(InstrAt(decode, g, k)) ==>
              Reached(decode, g, k + 2) && Covered(decode, g, k + 1) && !Found(decode, g, k + 1)
  {
    if Reached(decode, g, k + 1) {
      NotInside(decode, g, k + 1);
    }
  }

  /** What decoding the instruction found at slot k does to the slots. */
  ghost function PlacedAt(decode: Decoder, g: Segment, first: nat, k: nat, slots: seq<Slot>): seq<Slot>
    requires first + k < |slots| && InstrAt(decode, g, k).Some?
  {
    var placed := slots[first + k := NewSlot(decode, g, k)];
    if IsLong(InstrAt(decode, g, k)) && first + k + 1 < |slots| then placed[first + k + 1 := EMPTY_SLOT] else placed
  }

  lemma SweepFinds(decode: Decoder, g: Segment, first: nat, k: nat, before: seq<Slot>, after: seq<Slot>)
    requires SweptTo(decode, g, first, first + k, before, after) && first + k < |after| && Found(decode, g, k)
    ensures var n := if IsLong(InstrAt(decode, g, k)) then 2 else 1;
            Reached(decode, g, k + n) && SweptTo(decode, g, first, first + k + n, before, PlacedAt(decode, g, first, k, after))
  {
    GoesOn(decode, g, k);
    SweepPlaces(decode, g, first, k, before, after);
    if IsLong(InstrAt(decode, g, k)) {
      SweepClears(decode, g, first, k + 1, before, after[first + k := NewSlot(decode, g, k)]);
    }
  }

  /** Past the end of the segment nothing is found. */
  lemma SweepEnds(decode: Decoder, g: Segment, first: nat, k: nat, before: seq<Slot>, after: seq<Slot>)
    requires SweptTo(decode, g, first, first + k, before, after) && Reached(decode, g, k)
    requires 2 * k + SLOT_SIZE > |g.code| || first + k >= |after|
    ensures Swept(decode, g, first, before, after)
  {
    NotInside(decode, g, k);
    forall i | first + k <= i < |after|
      ensures SlotAfter(decode, g, first, before[i], i) == before[i]
    {
      assert !Found(decode, g, i - first);
      if i > first + k {
        assert !Found(decode, g, i - first - 1);
      }
    }
  }

  // ----- instructions that do not overlap -----

  /** Slots know the size of their instruction. */
  ghost predicate Sizes(slots: seq<Slot>) {
    forall i | 0 <= i < |slots| && slots[i].instr.Some? :: slots[i].size in {2, 4} && slots[i].size == slots[i].instr.value.size
  }

  /** No instruction starts inside another. */
  ghost predicate NoneInside(slots: seq<Slot>) {
    forall i | 0 <= i < |slots| - 1 && IsLong(slots[i].instr) :: slots[i + 1].instr.None?
  }

  lemma SweptSizes(decode: Decoder, g: Segment, first: nat, before: seq<Slot>, after: seq<Slot>)
    requires Sound(decode) && Sizes(before) && Swept(decode, g, first, before, after)
    ensures Sizes(after)
  {
    forall i | 0 <= i < |after| && after[i].instr.Some?
      ensures after[i].size in {2, 4} && after[i].size == after[i].instr.value.size
    {
      assert after[i] == SlotAfter(decode, g, first, before[i], i);
    }
  }

  /** The sweep finds an instruction right behind a long one that it leaves in place. */
  ghost predicate CutsInto(decode: Decoder, g: Segment, first: nat, before: seq<Slot>, i: nat)
    requires i < |before|
  {
    && IsLong(before[i].instr) && i + 1 < |before| && i + 1 >= first && Found(decode, g, i + 1 - first)
    && (i < first || (!Found(decode, g, i - first) && !Covered(decode, g, i - first)))
  }

  lemma SweptPair(decode: Decoder, g: Segment, first: nat, before: seq<Slot>, after: seq<Slot>, i: nat)
    requires NoneInside(before) && Swept(decode, g, first, before, after) && i + 1 < |after|
    ensures IsLong(after[i].instr) && after[i + 1].instr.Some? <==> CutsInto(decode, g, first, before, i)
  {
    assert after[i] == SlotAfter(decode, g, first, before[i], i);
    assert after[i + 1] == SlotAfter(decode, g, first, before[i + 1], i + 1);
    if i >= first && Found(decode, g, i + 1 - first) {
      NotInside(decode, g, i + 1 - first);
    }
  }

  /** Instructions stay apart exactly when the sweep cuts into none that it leaves in place. */
  lemma SweepApart(decode: Decoder, g: Segment, first: nat, before: seq<Slot>, after: seq<Slot>)
    requires NoneInside(before) && Swept(decode, g, first, before, after)
    ensures NoneInside(after) <==> forall i | 0 <= i < |before| :: !CutsInto(decode, g, first, before, i)
  {
    if NoneInside(after) {
      forall i | 0 <= i < |before|
        ensures !CutsInto(decode, g, first, before, i)
      {
        if CutsInto(decode, g, first, before, i) {
          SweptPair(decode, g, first, before, after, i);
        }
      }
    } else {
      var i :| 0 <= i < |after| - 1 && IsLong(after[i].instr) && after[i + 1].instr.Some?;
      SweptPair(decode, g, first, before, after, i);
    }
  }

  // ----- any number of segments -----

  /** Every instruction belongs to a decoded segment. */
  ghost predicate Placed(decode: Decoder, base: nat, done: seq<Segment>, slots: seq<Slot>) {
    forall i | 0 <= i < |slots| && slots[i].instr.Some? :: InSegment(decode, base, done, i, slots[i])
  }

  ghost predicate InSegment(decode: Decoder, base: nat, done: seq<Segment>, i: nat, slot: Slot) {
    exists k | 0 <= k < |done| :: Holds(decode, done[k], base + i * 2, slot)
  }

  lemma StillInSegment(decode: Decoder, base: nat, done: seq<Segment>, g: Segment, i: nat, slot: Slot)
    requires InSegment(decode, base, done, i, slot) || Holds(decode, g, base + i * 2, slot)
    ensures InSegment(decode, base, done + [g], i, slot)
  {
    var more := done + [g];
    if InSegment(decode, base, done, i, slot) {
      var k :| 0 <= k < |done| && Holds(decode, done[k], base + i * 2, slot);
      assert Holds(decode, more[k], base + i * 2, slot);
    } else {
      assert Holds(decode, more[|done|], base + i * 2, slot);
    }
  }

  lemma NewHolds(decode: Decoder, g: Segment, k: nat, pc: nat)
    requires Sound(decode) && InstrAt(decode, g, k).Some? && pc == g.start + 2 * k
    ensures Holds(decode, g, pc, NewSlot(decode, g, k))
  {
  }

  /** Decoding one more segment that starts at a slot, wherever it lies. */
  lemma PlaceSegment(decode: Decoder, base: nat, done: seq<Segment>, g: Segment, first: nat, before: seq<Slot>, after: seq<Slot>)
    requires Sound(decode) && Placed(decode, base, done, before)
    requires Swept(decode, g, first, before, after) && g.start == base + first * 2
    ensures Placed(decode, base, done + [g], after)
  {
    forall i | 0 <= i < |after| && after[i].instr.Some?
      ensures InSegment(decode, base, done + [g], i, after[i])
    {
      PlaceSlot(decode, base, done, g, first, before, after, i);
    }
  }

  lemma PlaceSlot(decode: Decoder, base: nat, done: seq<Segment>, g: Segment, first: nat, before: seq<Slot>, after: seq<Slot>,
                  i: nat)
    requires Sound(decode) && Placed(decode, base, done, before)
    requires Swept(decode, g, first, before, after) && g.start == base + first * 2 && i < |after| && after[i].instr.Some?
    ensures InSegment(decode, base, done + [g], i, after[i])
  {
    assert after[i] == SlotAfter(decode, g, first, before[i], i);
    if i >= first && Found(decode, g, i - first) {
      NewHolds(decode, g, i - first, base + i * 2);
    }
    StillInSegment(decode, base, done, g, i, after[i]);
  }

  /** A segment apart from those before cuts into none of their instructions. */
  lemma ApartCutsNone(decode: Decoder, base: nat, done: seq<Segment>, g: Segment, first: nat, before: seq<Slot>, i: nat)
    requires Placed(decode, base, done, before) && (forall k | 0 <= k < |done| :: Apart(done[k], g))
    requires g.start == base + first * 2 && i < |before|
    ensures !CutsInto(decode, g, first, before, i)
  {
    if IsLong(before[i].instr) {
      assert InSegment(decode, base, done, i, before[i]);
      var k :| 0 <= k < |done| && Holds(decode, done[k], base + i * 2, before[i]);
      assert Apart(done[k], g);
    }
  }

  /** So decoding disjoint segments in any order keeps instructions apart. */
  lemma ApartStays(decode: Decoder, base: nat, done: seq<Segment>, g: Segment, first: nat, before: seq<Slot>, after: seq<Slot>)
    requires Placed(decode, base, done, before) && (forall k | 0 <= k < |done| :: Apart(done[k], g))
    requires NoneInside(before) && Swept(decode, g, first, before, after) && g.start == base + first * 2
    ensures NoneInside(after)
  {
    forall i | 0 <= i < |before|
      ensures !CutsInto(decode, g, first, before, i)
    {
      ApartCutsNone(decode, base, done, g, first, before, i);
    }
    SweepApart(decode, g, first, before, after);
  }

  /** If no instruction starts inside another, none overlaps another. */
  lemma NoOverlap(base: nat, slots: seq<Slot>, i: nat, j: nat)
    requires Sizes(slots) && NoneInside(slots) && i < j < |slots| && slots[i].instr.Some? && slots[j].instr.Some?
    ensures base + i * 2 + slots[i].size <= base + j * 2
  {
    if j == i + 1 {
      assert !IsLong(slots[i].instr);
    }
  }

  class InstructionTable {
    const slots: array<Slot>
    const baseAddress: nat
    const endAddress: nat
    const decode: Decoder
    /** The segments decoded so far. */
    ghost var done: seq<Segment>

    function IndexToPc(i: nat): nat {
      baseAddress + i * SLOT_SIZE
    }

    function PcToIndex(pc: nat): Option<nat> {
      if pc < baseAddress || pc >= endAddress then None
      else if (pc - baseAddress) % SLOT_SIZE != 0 then None
      else Some((pc - baseAddress) / SLOT_SIZE)
    }

    ghost predicate Valid()
      reads this, slots
    {
      && baseAddress <= endAddress && slots.Length == (endAddress - baseAddress + 1) / SLOT_SIZE
      && Sound(decode) && Sizes(slots[..])
    }

    constructor (baseAddress: nat, endAddress: nat, decode: Decoder)
      requires baseAddress <= endAddress && Sound(decode)
      ensures Valid() && done == [] && fresh(slots)
      ensures this.baseAddress == baseAddress && this.endAddress == endAddress && this.decode == decode
      ensures forall i | 0 <= i < slots.Length :: slots[i] == EMPTY_SLOT
    {
      this.baseAddress, this.endAddress, this.decode := baseAddress, endAddress, decode;
      slots := new Slot[(endAddress - baseAddress + 1) / SLOT_SIZE](_ => EMPTY_SLOT);
      done := [];
    }

    /** Decode k slots into the segment; returns how many bytes to go on. */
    method DecodeAt(code: seq<Byte>, startSlot: nat, segmentStart: nat, k: nat, ghost before: seq<Slot>) returns (size: nat)
      requires Sound(decode) && 2 * k + SLOT_SIZE <= |code| && startSlot + k < slots.Length
      requires Reached(decode, Segment(segmentStart, code), k)
      requires SweptTo(decode, Segment(segmentStart, code), startSlot, startSlot + k, before, slots[..])
      modifies slots
      ensures size in {2, 4} && 2 * k + size <= |code| && Reached(decode, Segment(segmentStart, code), k + size / 2)
      ensures SweptTo(decode, Segment(segmentStart, code), startSlot, startSlot + k + size / 2, before, slots[..])
    {
      ghost var g, current := Segment(segmentStart, code), slots[..];
      var slot := startSlot + k;
      var instr := decode(code[2 * k..], segmentStart + 2 * k);
      if instr.None? {
        SweepSkips(decode, g, startSlot, k, before, current);
        return 2;
      }
      size := instr.value.size;
      slots[slot] := Slot(instr, size, RawAt(code, 2 * k, size));
      if size == 4 && slot + 1 < slots.Length {
        slots[slot + 1] := EMPTY_SLOT;
      }
      assert slots[..] == PlacedAt(decode, g, startSlot, k, current);
      SweepFinds(decode, g, startSlot, k, before, current);
    }

    /** Decode a segment, one instruction after the other. */
    method DecodeSegment(code: seq<Byte>, startSlot: nat, segmentStart: nat)
      requires Sound(decode)
      modifies slots
      ensures Swept(decode, Segment(segmentStart, code), startSlot, old(slots[..]), slots[..])
    {
      ghost var g, before := Segment(segmentStart, code), slots[..];
      NothingSwept(decode, g, startSlot, before);
      var offset: nat := 0;
      ghost var k: nat := 0;
      while offset + SLOT_SIZE <= |code|
        invariant offset == 2 * k && offset <= |code| && Reached(decode, g, k)
        invariant SweptTo(decode, g, startSlot, startSlot + k, before, slots[..])
        decreases |code| - offset
      {
        if startSlot + offset / SLOT_SIZE >= slots.Length {
          break;
        }
        var size := DecodeAt(code, startSlot, segmentStart, offset / SLOT_SIZE, before);
        k := k + size / 2;
        offset := offset + size;
      }
      SweepEnds(decode, g, startSlot, k, before, slots[..]);
    }

    /** Decode a segment, wherever it lies. */
    method PopulateSegment(code: seq<Byte>, segmentStart: nat)
      requires Valid()
      modifies slots, this`done
      ensures Valid()
      ensures var g, was := Segment(segmentStart, code), old(slots[..]);
              if baseAddress <= segmentStart < endAddress then
                && done == old(done) + [g]
                && var first := (segmentStart - baseAddress) / SLOT_SIZE;
                   && Swept(decode, g, first, was, slots[..])
                   && (segmentStart == IndexToPc(first) && Placed(decode, baseAddress, old(done), was) ==>
                         Placed(decode, baseAddress, done, slots[..]))
                   && (NoneInside(was) ==>
                         (NoneInside(slots[..]) <==> forall i | 0 <= i < |was| :: !CutsInto(decode, g, first, was, i)))
              else done == old(done) && slots[..] == was
    {
      if segmentStart < baseAddress || segmentStart >= endAddress {
        return;
      }
      var startSlot := (segmentStart - baseAddress) / SLOT_SIZE;
      ghost var g, before := Segment(segmentStart, code), slots[..];
      DecodeSegment(code, startSlot, segmentStart);
      SweptSizes(decode, g, startSlot, before, slots[..]);
      if segmentStart == IndexToPc(startSlot) && Placed(decode, baseAddress, done, before) {
        PlaceSegment(decode, baseAddress, done, g, startSlot, before, slots[..]);
      }
      if NoneInside(before) {
        SweepApart(decode, g, startSlot, before, slots[..]);
      }
      done := done + [g];
    }

    /** Slot-aligned addresses in range and slots correspond one to one. */
    lemma IndexAndPc(i: nat, pc: nat)
      requires Valid()
      ensures PcToIndex(pc) == Some(i) <==> i < slots.Length && pc == IndexToPc(i)
    {
    }

    predicate IsValidPc(pc: nat)
      reads slots
    {
      var i := PcToIndex(pc);
      i.Some? && i.value < slots.Length && slots[i.value].instr.Some?
    }

    function SizeAt(pc: nat): nat
      reads slots
    {
      var i := PcToIndex(pc);
      if i.Some? && i.value < slots.Length then slots[i.value].size else 0
    }

    /** If no instruction starts inside another, valid instructions do not overlap. */
    lemma ValidPcsApart(p: nat, q: nat)
      requires Valid() && NoneInside(slots[..]) && IsValidPc(p) && IsValidPc(q) && p < q
      ensures SizeAt(p) in {2, 4} && p + SizeAt(p) <= q
    {
      var i, j := PcToIndex(p).value, PcToIndex(q).value;
      assert slots[..][i] == slots[i] && slots[..][j] == slots[j];
      NoOverlap(baseAddress, slots[..], i, j);
    }

    /** Then code read off the table is well formed. */
    lemma CodeWellFormed(code: Code)
      requires Valid() && NoneInside(slots[..])
      requires forall p | p in code :: IsValidPc(p) && code[p].size == SizeAt(p) && PlainFall(code, p)
      ensures WellFormed(code)
    {
      forall p | p in code
        ensures code[p].size in {2, 4}
      {
        assert slots[..][PcToIndex(p).value] == slots[PcToIndex(p).value];
      }
      forall p, q | p in code && q in code && p < q
        ensures NextPc(code, p) <= q
      {
        ValidPcsApart(p, q);
      }
    }
  }
}
