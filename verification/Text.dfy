/**
  The emitted program: block functions, the extent of its text, and the dispatch table
  through which the entry and computed jumps find their block function.
 */
module Text {
  import opened Code
  import opened Bits
  import opened Sets

  datatype IrInsn = IrInsn(pc: Pc, size: nat, term: Terminator)

  /** One function per key of `blocks`; `absorbed` redirects calls of other addresses. */
  datatype Emitted = Emitted(blocks: map<Pc, seq<IrInsn>>, absorbed: map<Pc, Pc>)

  ghost predicate ValidEmission(em: Emitted) {
    && (forall b | b in em.blocks :: em.blocks[b] != [])
    && (forall a | a in em.absorbed :: em.absorbed[a] in em.blocks)
  }

  // ----- the extent of the text -----

  /** Where a block function ends: after the instruction pushed last. */
  function BodyEnd(start: Pc, body: seq<IrInsn>): Pc {
    if body == [] then start else body[|body| - 1].pc + body[|body| - 1].size
  }

  function Ends(blocks: map<Pc, seq<IrInsn>>): set<Pc> {
    set b | b in blocks :: BodyEnd(b, blocks[b])
  }

  /** The least block start and the greatest block end, or what an empty program defaults to. */
  method TextBounds(blocks: map<Pc, seq<IrInsn>>, entryPoint: Pc) returns (textStart: Pc, pcEnd: Pc)
    ensures blocks == map[] ==> textStart == entryPoint && pcEnd == 0
    ensures blocks != map[] ==> IsLeast(blocks.Keys, textStart) && IsGreatest(Ends(blocks), pcEnd)
  {
    textStart, pcEnd := entryPoint, 0;
    var rest := blocks.Keys;
    while rest != {}
      invariant rest <= blocks.Keys
      invariant rest == blocks.Keys ==> textStart == entryPoint && pcEnd == 0
      invariant rest != blocks.Keys ==> IsLeast(blocks.Keys - rest, textStart)
      invariant rest != blocks.Keys ==> pcEnd in Ends(blocks)
      invariant forall b | b in blocks.Keys - rest :: BodyEnd(b, blocks[b]) <= pcEnd
    {
      var b :| b in rest;
      ghost var done := blocks.Keys - rest;
      assert rest == blocks.Keys ==> done == {};
      if rest == blocks.Keys || b < textStart {
        textStart := b;
      }
      if rest == blocks.Keys || BodyEnd(b, blocks[b]) > pcEnd {
        pcEnd := BodyEnd(b, blocks[b]);
      }
      rest := rest - {b};
      assert blocks.Keys - rest == done + {b};
    }
    assert blocks.Keys - rest == blocks.Keys;
  }

  ghost function TextStart(em: Emitted): Pc
    requires em.blocks != map[]
  {
    assert em.blocks.Keys != {} by {
      var b :| b in em.blocks;
      assert b in em.blocks.Keys;
    }
    Least(em.blocks.Keys)
  }

  ghost function PcEnd(em: Emitted): Pc
    requires em.blocks != map[]
  {
    assert Ends(em.blocks) != {} by {
      var b :| b in em.blocks;
      assert BodyEnd(b, em.blocks[b]) in Ends(em.blocks);
    }
    Greatest(Ends(em.blocks))
  }

  // ----- dispatch -----

  datatype Entry = Block(start: Pc) | TrapEntry

  const INSTRUCTION_SIZE: nat := 2

  /** The table's entry for an address: its block function, else the one it is redirected to. */
  function EntryFor(valid: set<Pc>, absorbed: map<Pc, Pc>, addr: Pc): Entry {
    if addr in valid then Block(addr)
    else if addr in absorbed then Block(absorbed[addr])
    else TrapEntry
  }

  ghost predicate IsPowerOfTwo(n: nat) {
    exists k: nat :: Pow2(k) == n
  }

  /** The index computed for an address. A negative difference wraps round to the top of
      the address space, where no table has a slot. */
  ghost function DispatchIndex(start: Pc, pc: Pc): int {
    if IsPowerOfTwo(start) then (pc % start) / INSTRUCTION_SIZE else (pc as int - start) / INSTRUCTION_SIZE
  }

  /** For a power of two the code masks the address instead of dividing it. */
  lemma MaskedIndex(k: nat, pc: Pc)
    ensures DispatchIndex(Pow2(k), pc) == ShiftRight(Bitwise(AndBits, pc, Pow2(k) - 1), 1)
  {
    AndOnes(pc, k);
    assert Pow2(1) == 2 * Pow2(0);
  }

  /** The address whose entry is in the slot of pc. */
  ghost function SlotAddress(start: Pc, pc: Pc): int {
    start + DispatchIndex(start, pc) * INSTRUCTION_SIZE
  }

  /** The entry found for pc; None where the index is past the table. */
  ghost function Dispatched(em: Emitted, pc: Pc): (e: Option<Entry>)
    ensures ValidEmission(em) && e.Some? && e.value.Block? ==> e.value.start in em.blocks
  {
    if em.blocks == map[] then None else
    var a := SlotAddress(TextStart(em), pc);
    if TextStart(em) <= a < PcEnd(em) then Some(EntryFor(em.blocks.Keys, em.absorbed, a)) else None
  }

  // ----- which block functions have a slot of their own -----

  /** Every block function is found through the table. */
  ghost predicate Slotted(em: Emitted) {
    forall b | b in em.blocks :: Dispatched(em, b) == Some(Block(b))
  }

  /** Block starts are multiples of two, as instruction addresses are. */
  ghost predicate EvenStarts(em: Emitted) {
    forall b | b in em.blocks :: b % 2 == 0
  }

  /** The address of the slot b is masked to. */
  function MaskedTo(start: Pc, b: Pc): Pc {
    if start == 0 then b else start + b % start
  }

  /** b lies below the end of some block function and, where addresses are masked, below
      twice the start of the text; beyond that only a redirection to b can be in its slot. */
  ghost predicate InText(em: Emitted, b: Pc)
    requires em.blocks != map[]
  {
    var start := TextStart(em);
    if IsPowerOfTwo(start) && b >= 2 * start then
      var a := MaskedTo(start, b);
      a < PcEnd(em) && a !in em.blocks && a in em.absorbed && em.absorbed[a] == b
    else b < PcEnd(em)
  }

  lemma EvenRemainder(b: nat, start: nat)
    requires b % 2 == 0 && start % 2 == 0 && start > 0
    ensures (b % start) % 2 == 0
  {
    var half := start / 2;
    assert b == start * (b / start) + b % start;
    assert start * (b / start) == 2 * (half * (b / start));
  }

  lemma RemainderBelow(b: nat, start: nat)
    requires start <= b < 2 * start
    ensures b % start == b - start
  {
  }

  lemma SlotAddressOf(start: Pc, b: Pc)
    requires start <= b && start % 2 == 0 && b % 2 == 0
    ensures SlotAddress(start, b) == if IsPowerOfTwo(start) && b >= 2 * start then MaskedTo(start, b) else b
  {
    if IsPowerOfTwo(start) {
      EvenRemainder(b, start);
      if b < 2 * start {
        RemainderBelow(b, start);
      }
    }
  }

  /** A block function has its own slot exactly when it is in the text. */
  lemma SlotExact(em: Emitted, b: Pc)
    requires EvenStarts(em) && b in em.blocks
    ensures Dispatched(em, b) == Some(Block(b)) <==> InText(em, b)
  {
    SlotAddressOf(TextStart(em), b);
  }

  /** Below the greatest end is below some end. */
  lemma BelowSomeEnd(em: Emitted, b: Pc)
    requires em.blocks != map[]
    ensures b < PcEnd(em) <==> exists c | c in em.blocks :: b < BodyEnd(c, em.blocks[c])
  {
    if b < PcEnd(em) {
      assert PcEnd(em) in Ends(em.blocks);
    }
    if c :| c in em.blocks && b < BodyEnd(c, em.blocks[c]) {
      assert BodyEnd(c, em.blocks[c]) in Ends(em.blocks);
    }
  }

  /** All block functions have their own slots exactly when all are in the text. */
  lemma SlottedExact(em: Emitted)
    requires EvenStarts(em)
    ensures Slotted(em) <==> forall b | b in em.blocks :: InText(em, b)
  {
    forall b | b in em.blocks
      ensures Dispatched(em, b) == Some(Block(b)) <==> InText(em, b)
    {
      SlotExact(em, b);
    }
  }

  /** In a text that ends below twice its start, or whose start is no power of two, it is
      enough that every block start lies below the end of some block function. */
  lemma ShortText(em: Emitted)
    requires EvenStarts(em) && em.blocks != map[] && (IsPowerOfTwo(TextStart(em)) ==> PcEnd(em) <= 2 * TextStart(em))
    ensures (forall b | b in em.blocks :: b < PcEnd(em)) ==> Slotted(em)
    ensures !IsPowerOfTwo(TextStart(em)) && Slotted(em) ==> forall b | b in em.blocks :: b < PcEnd(em)
  {
    SlottedExact(em);
    if forall b | b in em.blocks :: b < PcEnd(em) {
      assert forall b | b in em.blocks :: InText(em, b);
    }
    if !IsPowerOfTwo(TextStart(em)) && Slotted(em) {
      assert forall b | b in em.blocks :: InText(em, b);
    }
  }
}
