/**
  From the block table to the emitted functions and the dispatch table.
 */
module Dispatch {
  import opened Code
  import opened Sets
  import opened Text
  import opened Trace
  import opened Layout
  import opened Formation
  import opened Merge
  import opened Tables
  import opened Stages
  import opened Stale
  import opened BlockTables
  import opened Exact
  import opened Kept

  /** What the emitter is given. */
  datatype EmitInputs = EmitInputs(validAddresses: set<Pc>, absorbedToMerged: map<Pc, Pc>, textStart: Pc, pcEnd: Pc)
  {
    predicate IsValidAddress(pc: Pc) {
      pc in validAddresses || pc in absorbedToMerged
    }

    function EntryAt(addr: Pc): Entry {
      EntryFor(validAddresses, absorbedToMerged, addr)
    }

    function ResolveAddress(pc: Pc): Pc {
      if pc in absorbedToMerged then absorbedToMerged[pc] else pc
    }

    /** Resolving is done once exactly when no redirection leads to another one. */
    lemma ResolveIdempotent()
      ensures (forall pc :: ResolveAddress(ResolveAddress(pc)) == ResolveAddress(pc)) <==>
              (forall a | a in absorbedToMerged && absorbedToMerged[a] in absorbedToMerged ::
                 absorbedToMerged[absorbedToMerged[a]] == absorbedToMerged[a])
    {
      if forall pc :: ResolveAddress(ResolveAddress(pc)) == ResolveAddress(pc) {
        forall a | a in absorbedToMerged && absorbedToMerged[a] in absorbedToMerged
          ensures absorbedToMerged[absorbedToMerged[a]] == absorbedToMerged[a]
        {
          assert ResolveAddress(ResolveAddress(a)) == ResolveAddress(a);
        }
      }
    }
  }

  // ----- lifting all blocks -----

  function RangesAt(b: BasicBlock, continuations: map<Pc, seq<Range>>): seq<Range> {
    [(b.start, b.end)] + ContinuationsOf(continuations, b.start)
  }

  /** The body of the block function that starts at b. */
  ghost function BodyOf(code: Code, t: Tables, b: Pc): seq<IrInsn>
    requires Sized(code) && HasStart(t.blocks, b)
  {
    Lifted(code, RangesAt(t.blocks[StartIndex(t.blocks, b)], t.continuations))
  }

  /** Among the first i blocks, those with a body have been lifted. */
  ghost predicate LiftedTo(code: Code, t: Tables, i: nat, ir: map<Pc, seq<IrInsn>>, b: Pc)
    requires Sized(code)
  {
    && (b in ir <==> HasStart(t.blocks, b) && StartIndex(t.blocks, b) < i && BodyOf(code, t, b) != [])
    && (b in ir ==> ir[b] == BodyOf(code, t, b))
  }

  /** Lift every block with its continuations. */
  method LiftToIr(code: Code, blocks: seq<BasicBlock>, continuations: map<Pc, seq<Range>>) returns (ir: map<Pc, seq<IrInsn>>)
    requires Sized(code) && DistinctStarts(blocks)
    ensures forall b :: LiftedTo(code, Tables(blocks, map[], continuations), |blocks|, ir, b)
  {
    ir := map[];
    ghost var t := Tables(blocks, map[], continuations);
    for i := 0 to |blocks|
      invariant forall b :: LiftedTo(code, t, i, ir, b)
    {
      var b := blocks[i];
      var conts := if b.start in continuations then Some(continuations[b.start]) else None;
      var block := LiftBlockWithContinuations(code, b.start, b.end, conts);
      ghost var before := ir;
      if block.Some? {
        ir := ir[b.start := block.value];
      }
      LiftStep(code, t, i, before, block, i + 1, ir);
    }
    assert forall b | HasStart(blocks, b) :: StartIndex(blocks, b) < |blocks|;
  }

  lemma LiftStep(code: Code, t: Tables, i: nat, ir: map<Pc, seq<IrInsn>>, block: Option<seq<IrInsn>>,
                 next: nat, ir': map<Pc, seq<IrInsn>>)
    requires Sized(code) && DistinctStarts(t.blocks) && i < |t.blocks| && forall b :: LiftedTo(code, t, i, ir, b)
    requires var body := Lifted(code, RangesAt(t.blocks[i], t.continuations)); block == if body == [] then None else Some(body)
    requires next == i + 1 && ir' == if block.Some? then ir[t.blocks[i].start := block.value] else ir
    ensures forall b :: LiftedTo(code, t, next, ir', b)
  {
    assert HasStart(t.blocks, t.blocks[i].start) && StartIndex(t.blocks, t.blocks[i].start) == i;
    forall b
      ensures LiftedTo(code, t, next, ir', b)
    {
      assert LiftedTo(code, t, i, ir, b);
    }
  }

  lemma RangesOfChain(orig: Blocks, t: Tables, b: Pc)
    requires DistinctStarts(t.blocks) && Within(orig, t.blocks) && WholeBlocks(orig, t.continuations) && HasStart(t.blocks, b)
    ensures AllIn(orig, ChainOf(t.continuations, b))
    ensures RangesAt(t.blocks[StartIndex(t.blocks, b)], t.continuations) == RangesOf(orig, ChainOf(t.continuations, b))
  {
    var i := StartIndex(t.blocks, b);
    var chain, ranges := ChainOf(t.continuations, b), RangesAt(t.blocks[i], t.continuations);
    assert |chain| == |ranges|;
    forall j | 0 <= j < |chain|
      ensures chain[j] in orig && ranges[j] == RangeOf(orig, chain[j])
    {
      if j > 0 {
        assert chain[j] == t.continuations[b][j - 1].0 && ranges[j] == t.continuations[b][j - 1];
      }
    }
  }

  lemma TablesChained(orig: Blocks, t: Tables)
    requires SoundTables(orig, t)
    ensures Chained(orig, LayoutOf(t))
  {
    forall b | HasStart(t.blocks, b)
      ensures AllIn(orig, ChainOf(t.continuations, b))
    {
      RangesOfChain(orig, t, b);
    }
  }

  lemma BodyIsChain(code: Code, orig: Blocks, t: Tables, b: Pc)
    requires WellFormed(code) && GoodBlocks(code, orig) && SoundTables(orig, t) && HasStart(t.blocks, b)
    ensures Chained(orig, LayoutOf(t))
    ensures BodyOf(code, t, b) == Emission(code, orig, LayoutOf(t)).blocks[b] && BodyOf(code, t, b) != []
  {
    TablesChained(orig, t);
    RangesOfChain(orig, t, b);
    ChainIsCode(code, orig, ChainOf(t.continuations, b));
  }

  lemma LiftedAt(code: Code, orig: Blocks, t: Tables, ir: map<Pc, seq<IrInsn>>, b: Pc)
    requires WellFormed(code) && GoodBlocks(code, orig) && SoundTables(orig, t) && Chained(orig, LayoutOf(t))
    requires LiftedTo(code, t, |t.blocks|, ir, b)
    ensures b in ir <==> HasStart(t.blocks, b)
    ensures b in ir ==> ir[b] == Emission(code, orig, LayoutOf(t)).blocks[b]
  {
    if HasStart(t.blocks, b) {
      BodyIsChain(code, orig, t, b);
    }
  }

  /** What is lifted from tables of whole blocks is the emission the runs were compared with,
      whether the chains run on or not. */
  lemma LiftedIsEmission(code: Code, orig: Blocks, t: Tables, ir: map<Pc, seq<IrInsn>>)
    requires WellFormed(code) && GoodBlocks(code, orig) && SoundTables(orig, t)
    requires forall b :: LiftedTo(code, t, |t.blocks|, ir, b)
    ensures Chained(orig, LayoutOf(t))
    ensures Emission(code, orig, LayoutOf(t)) == Emitted(ir, t.absorbed) && ir.Keys == Starts(t.blocks)
  {
    TablesChained(orig, t);
    forall b
      ensures b in ir <==> HasStart(t.blocks, b)
      ensures b in ir ==> ir[b] == Emission(code, orig, LayoutOf(t)).blocks[b]
    {
      LiftedAt(code, orig, t, ir, b);
    }
    EmissionBlocks(code, orig, t, ir);
  }

  lemma EmissionBlocks(code: Code, orig: Blocks, t: Tables, ir: map<Pc, seq<IrInsn>>)
    requires Sized(code) && Chained(orig, LayoutOf(t))
    requires forall b :: b in ir <==> HasStart(t.blocks, b)
    requires forall b | b in ir :: ir[b] == Emission(code, orig, LayoutOf(t)).blocks[b]
    ensures Emission(code, orig, LayoutOf(t)) == Emitted(ir, t.absorbed) && ir.Keys == Starts(t.blocks)
  {
    EmissionKeys(code, orig, LayoutOf(t));
    BlocksAre(Emission(code, orig, LayoutOf(t)), t, ir);
  }

  lemma BlocksAre(em: Emitted, t: Tables, ir: map<Pc, seq<IrInsn>>)
    requires em.blocks.Keys == LayoutOf(t).chains.Keys && em.absorbed == t.absorbed
    requires (forall b :: b in ir <==> HasStart(t.blocks, b)) && forall b | b in ir :: ir[b] == em.blocks[b]
    ensures em == Emitted(ir, t.absorbed) && ir.Keys == Starts(t.blocks)
  {
    assert ir.Keys == Starts(t.blocks);
    SameMap(em.blocks, ir);
  }

  lemma SameMap(a: map<Pc, seq<IrInsn>>, b: map<Pc, seq<IrInsn>>)
    requires a.Keys == b.Keys && forall k | k in b :: b[k] == a[k]
    ensures a == b
  {
  }

  // ----- the dispatch table -----

  /** One entry per slot of the text. */
  method GenDispatch(inputs: EmitInputs) returns (table: seq<Entry>)
    ensures forall k | 0 <= k < |table| :: table[k] == inputs.EntryAt(inputs.textStart + k * INSTRUCTION_SIZE)
    ensures inputs.textStart + |table| * INSTRUCTION_SIZE >= inputs.pcEnd
    ensures table != [] ==> inputs.textStart + (|table| - 1) * INSTRUCTION_SIZE < inputs.pcEnd
  {
    table := [];
    var addr := inputs.textStart;
    while addr < inputs.pcEnd
      invariant addr == inputs.textStart + |table| * INSTRUCTION_SIZE
      invariant forall k | 0 <= k < |table| :: table[k] == inputs.EntryAt(inputs.textStart + k * INSTRUCTION_SIZE)
      invariant table != [] ==> inputs.textStart + (|table| - 1) * INSTRUCTION_SIZE < inputs.pcEnd
      decreases if addr < inputs.pcEnd then inputs.pcEnd - addr else 0
    {
      if addr in inputs.validAddresses {
        table := table + [Block(addr)];
      } else if addr in inputs.absorbedToMerged {
        table := table + [Block(inputs.absorbedToMerged[addr])];
      } else {
        table := table + [TrapEntry];
      }
      addr := addr + INSTRUCTION_SIZE;
    }
  }

  /** The entry a caller expects: the resolved block function, or the trap. */
  function Expected(inputs: EmitInputs, addr: Pc): Entry {
    if inputs.IsValidAddress(addr) then Block(inputs.ResolveAddress(addr)) else TrapEntry
  }

  /** The table agrees with address resolution at an address exactly when the address is
      not both a block function and redirected to another one. */
  lemma DispatchAgrees(inputs: EmitInputs, addr: Pc)
    ensures inputs.EntryAt(addr) == Expected(inputs, addr) <==>
              (addr in inputs.validAddresses && addr in inputs.absorbedToMerged ==> inputs.absorbedToMerged[addr] == addr)
  {
  }

  /** No redirected address is a block function, every redirection leads to one. */
  ghost predicate Separate(inputs: EmitInputs) {
    forall a | a in inputs.absorbedToMerged :: a !in inputs.validAddresses && inputs.absorbedToMerged[a] in inputs.validAddresses
  }

  lemma KeysSeparate(t: Tables, inputs: EmitInputs)
    requires KeysGone(t) && t.absorbed.Values <= Starts(t.blocks)
    requires inputs.validAddresses == Starts(t.blocks) && inputs.absorbedToMerged == t.absorbed
    ensures Separate(inputs)
  {
    forall a | a in t.absorbed
      ensures t.absorbed[a] in Starts(t.blocks)
    {
      assert t.absorbed[a] in t.absorbed.Values;
    }
  }

  lemma SeparateDispatch(inputs: EmitInputs, pc: Pc)
    requires Separate(inputs)
    ensures inputs.ResolveAddress(inputs.ResolveAddress(pc)) == inputs.ResolveAddress(pc)
    ensures inputs.IsValidAddress(pc) ==> inputs.ResolveAddress(pc) in inputs.validAddresses
    ensures inputs.EntryAt(pc) == Expected(inputs, pc)
  {
  }

  // ----- through the table -----

  /** What the pipeline hands the emitter for the emitted program. */
  ghost predicate InputsFor(em: Emitted, inputs: EmitInputs) {
    && inputs.validAddresses == em.blocks.Keys && inputs.absorbedToMerged == em.absorbed
    && (em.blocks == map[] ==> inputs.pcEnd == 0)
    && (em.blocks != map[] ==> IsLeast(em.blocks.Keys, inputs.textStart) && IsGreatest(Ends(em.blocks), inputs.pcEnd))
  }

  /** The inputs are computed from the lifted blocks. */
  method EmitC(em: Emitted, entryPoint: Pc) returns (inputs: EmitInputs, table: seq<Entry>)
    ensures InputsFor(em, inputs) && |table| == TableSize(inputs)
    ensures forall k | 0 <= k < |table| :: table[k] == inputs.EntryAt(inputs.textStart + k * INSTRUCTION_SIZE)
  {
    var textStart, pcEnd := TextBounds(em.blocks, entryPoint);
    inputs := EmitInputs(em.blocks.Keys, em.absorbed, textStart, pcEnd);
    table := GenDispatch(inputs);
  }

  /** Slots from the start of the text to its end. */
  function TableSize(inputs: EmitInputs): nat {
    if inputs.textStart >= inputs.pcEnd then 0 else (inputs.pcEnd - inputs.textStart + 1) / INSTRUCTION_SIZE
  }

  lemma SameBounds(em: Emitted, inputs: EmitInputs)
    requires InputsFor(em, inputs) && em.blocks != map[]
    ensures inputs.textStart == TextStart(em) && inputs.pcEnd == PcEnd(em)
  {
  }

  /** What a run finds for an address is the table's entry at the address's index; it goes
      astray exactly where the index is not in the table. */
  lemma DispatchedFromTable(em: Emitted, inputs: EmitInputs, table: seq<Entry>, pc: Pc)
    requires InputsFor(em, inputs) && |table| == TableSize(inputs)
    requires forall k | 0 <= k < |table| :: table[k] == inputs.EntryAt(inputs.textStart + k * INSTRUCTION_SIZE)
    ensures var k := DispatchIndex(inputs.textStart, pc);
            Dispatched(em, pc) == if 0 <= k < |table| then Some(table[k]) else None
  {
    if em.blocks != map[] {
      SameBounds(em, inputs);
    }
  }

  /** An address whose slot is its own finds the block function it resolves to, or the trap. */
  lemma OwnSlotFinds(em: Emitted, inputs: EmitInputs, pc: Pc)
    requires InputsFor(em, inputs) && Separate(inputs) && em.blocks != map[]
    requires SlotAddress(TextStart(em), pc) == pc && TextStart(em) <= pc < PcEnd(em)
    ensures Dispatched(em, pc) == Some(Expected(inputs, pc))
  {
    SeparateDispatch(inputs, pc);
  }

  /** After optimizing a fresh table, what is lifted from it is the emission the runs were
      compared with, resolution is idempotent and leads to block functions only, and what a
      run finds through the table agrees with it at every address that has a slot. */
  lemma OptimizedDispatch(run: Optimization, succs: Edges, after: Tables, ir: map<Pc, seq<IrInsn>>, inputs: EmitInputs, pc: Pc)
    requires WellFormed(run.g.cx.code) && GoodBlocks(run.g.cx.code, ByStart(run.g.blocks))
    requires run.Computes(succs, ByStart(run.g.blocks), FreshTables(run.g.blocks), after)
    requires forall b :: LiftedTo(run.g.cx.code, after, |after.blocks|, ir, b)
    requires InputsFor(Emitted(ir, after.absorbed), inputs)
    ensures Chained(ByStart(run.g.blocks), LayoutOf(after))
    ensures Emission(run.g.cx.code, ByStart(run.g.blocks), LayoutOf(after)) == Emitted(ir, after.absorbed)
    ensures inputs.ResolveAddress(inputs.ResolveAddress(pc)) == inputs.ResolveAddress(pc)
    ensures inputs.IsValidAddress(pc) ==> inputs.ResolveAddress(pc) in inputs.validAddresses
    ensures var em := Emitted(ir, after.absorbed);
            ir != map[] && SlotAddress(TextStart(em), pc) == pc && TextStart(em) <= pc < PcEnd(em) ==>
              Dispatched(em, pc) == Some(Expected(inputs, pc))
  {
    var orig, em := ByStart(run.g.blocks), Emitted(ir, after.absorbed);
    OptimizedOfBlocks(run, succs, after);
    LiftedIsEmission(run.g.cx.code, orig, after, ir);
    FreshKeysGone(run.g.blocks);
    OptimizedRedirects(run, succs, orig, FreshTables(run.g.blocks), after);
    KeysSeparate(after, inputs);
    SeparateDispatch(inputs, pc);
    if ir != map[] && SlotAddress(TextStart(em), pc) == pc && TextStart(em) <= pc < PcEnd(em) {
      OwnSlotFinds(em, inputs, pc);
    }
  }
}
