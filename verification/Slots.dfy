/**
  Which block functions of a layout have their own slot in the dispatch table.
 */
module Slots {
  import opened Sets
  import opened Code
  import opened Text
  import opened Trace
  import opened Layout
  import opened Exact

  /** Instructions lie at even addresses. */
  ghost predicate EvenCode(code: Code) {
    forall p | p in code :: p % 2 == 0
  }

  /** The end of the last block of a chain. */
  function ChainEnd(orig: Blocks, chain: seq<Pc>): Pc
    requires chain != [] && AllIn(orig, chain)
  {
    orig[chain[|chain| - 1]].end
  }

  ghost predicate BelowEnd(orig: Blocks, l: Layout, a: Pc)
    requires Chained(orig, l)
  {
    exists c | c in l.chains :: a < ChainEnd(orig, l.chains[c])
  }

  /** Block function b starts below the end of some chain and, if the least start is a power
      of two, below twice that; or a redirection to b is in the slot it is masked to. */
  ghost predicate SlotOf(orig: Blocks, l: Layout, b: Pc)
    requires Chained(orig, l) && b in l.chains
  {
    var start := Least(l.chains.Keys);
    if IsPowerOfTwo(start) && b >= 2 * start then
      var a := MaskedTo(start, b);
      BelowEnd(orig, l, a) && a !in l.chains && a in l.absorbed && l.absorbed[a] == b
    else BelowEnd(orig, l, b)
  }

  /** Block functions start and end where chains do. */
  ghost predicate Extends(orig: Blocks, l: Layout, em: Emitted)
    requires Chained(orig, l)
  {
    && em.blocks.Keys == l.chains.Keys && em.absorbed == l.absorbed
    && forall b | b in l.chains :: EndsAsChain(orig, l, em, b)
  }

  ghost predicate EndsAsChain(orig: Blocks, l: Layout, em: Emitted, b: Pc)
    requires Chained(orig, l)
  {
    b in l.chains && b in em.blocks && BodyEnd(b, em.blocks[b]) == ChainEnd(orig, l.chains[b])
  }

  lemma BelowPcEnd(orig: Blocks, l: Layout, em: Emitted, a: Pc)
    requires Chained(orig, l) && Extends(orig, l, em) && em.blocks != map[]
    ensures a < PcEnd(em) <==> BelowEnd(orig, l, a)
  {
    BelowSomeEnd(em, a);
    if c :| c in em.blocks && a < BodyEnd(c, em.blocks[c]) {
      assert EndsAsChain(orig, l, em, c);
    }
    if c :| c in l.chains && a < ChainEnd(orig, l.chains[c]) {
      assert EndsAsChain(orig, l, em, c);
    }
  }

  lemma SlotInText(orig: Blocks, l: Layout, em: Emitted, b: Pc)
    requires Chained(orig, l) && Extends(orig, l, em) && b in l.chains
    ensures b in em.blocks && (InText(em, b) <==> SlotOf(orig, l, b))
  {
    var start := Least(l.chains.Keys);
    assert TextStart(em) == start;
    BelowPcEnd(orig, l, em, b);
    BelowPcEnd(orig, l, em, MaskedTo(start, b));
  }

  /** A body that ends in the last instruction of its chain ends where the chain does. */
  lemma BodyEnds(code: Code, orig: Blocks, chain: seq<Pc>, b: Pc, body: seq<IrInsn>)
    requires chain != [] && AllIn(orig, chain) && EndsAt(code, orig[chain[|chain| - 1]])
    requires body != [] && CodeInsn(code, body[|body| - 1]) && body[|body| - 1].pc == orig[chain[|chain| - 1]].lastPc
    ensures BodyEnd(b, body) == ChainEnd(orig, chain)
  {
  }

  lemma LiftedEnds(code: Code, orig: Blocks, chain: seq<Pc>, b: Pc)
    requires WellFormed(code) && GoodBlocks(code, orig) && AllIn(orig, chain) && chain != []
    ensures BodyEnd(b, Lifted(code, RangesOf(orig, chain))) == ChainEnd(orig, chain)
  {
    var closed := Lifted(code, RangesOf(orig, chain));
    ChainIsCode(code, orig, chain);
    ChainBody(code, orig, chain);
    GoodIsSound(code, orig);
    assert CodeInsn(code, closed[|closed| - 1]);
    BodyEnds(code, orig, chain, b, closed);
  }

  lemma EmissionExtends(code: Code, orig: Blocks, l: Layout)
    requires WellFormed(code) && GoodBlocks(code, orig) && Chained(orig, l)
    ensures Extends(orig, l, Emission(code, orig, l))
  {
    forall b | b in l.chains
      ensures EndsAsChain(orig, l, Emission(code, orig, l), b)
    {
      LiftedEnds(code, orig, l.chains[b], b);
    }
  }

  lemma HeadsEven(code: Code, orig: Blocks, l: Layout)
    requires WellFormed(code) && EvenCode(code) && GoodBlocks(code, orig) && Headed(code, orig, l)
    ensures EvenStarts(Emission(code, orig, l))
  {
    GoodIsSound(code, orig);
    forall b | b in l.chains
      ensures b % 2 == 0
    {
      assert l.chains[b][0] == b;
    }
  }

  /** All block functions have their own slots exactly when each starts below the end of some
      chain and is not masked to another slot. */
  lemma SlotsExact(code: Code, orig: Blocks, l: Layout)
    requires WellFormed(code) && EvenCode(code) && GoodBlocks(code, orig) && Headed(code, orig, l)
    ensures HasSlots(code, orig, l) <==> forall b | b in l.chains :: SlotOf(orig, l, b)
  {
    var em := Emission(code, orig, l);
    HeadsEven(code, orig, l);
    EmissionExtends(code, orig, l);
    SlottedExact(em);
    forall b | b in l.chains
      ensures b in em.blocks && (InText(em, b) <==> SlotOf(orig, l, b))
    {
      SlotInText(orig, l, em, b);
    }
  }

  lemma BlockBelow(code: Code, orig: Blocks, l: Layout, b: Pc)
    requires GoodBlocks(code, orig) && Chained(orig, l) && b in l.chains && l.chains[b] == [b]
    ensures BelowEnd(orig, l, b)
  {
    assert l.chains[b][0] in orig && GoodBlock(code, orig[b]);
    LastInCode(code, orig[b].start, orig[b].lastPc, orig[b].end);
    assert b < ChainEnd(orig, l.chains[b]);
  }

  /** A fresh block ends above its start, so only masking can take its slot away. */
  lemma FreshSlots(code: Code, orig: Blocks, l: Layout)
    requires WellFormed(code) && EvenCode(code) && GoodBlocks(code, orig)
    requires Headed(code, orig, l) && l.absorbed == map[] && (forall b | b in l.chains :: l.chains[b] == [b])
    ensures HasSlots(code, orig, l) <==>
            forall b | b in l.chains :: IsPowerOfTwo(Least(l.chains.Keys)) ==> b < 2 * Least(l.chains.Keys)
  {
    SlotsExact(code, orig, l);
    forall b | b in l.chains
      ensures SlotOf(orig, l, b) <==> (IsPowerOfTwo(Least(l.chains.Keys)) ==> b < 2 * Least(l.chains.Keys))
    {
      BlockBelow(code, orig, l, b);
    }
  }
}
