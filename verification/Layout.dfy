/**
  Basic blocks, the chains of blocks a block function is lifted from, and how a
  chain of address ranges is lifted to one body.
 */
module Layout {
  import opened Code
  import opened Text
  import opened Trace

  datatype BasicBlock = BasicBlock(start: Pc, end: Pc, count: nat, lastPc: Pc)

  type Range = (Pc, Pc)

  /** Instructions from lo to hi follow one another, `last` is the last of them
      and no other one is control flow. */
  ghost predicate StraightLine(code: Code, lo: Pc, last: Pc, hi: Pc)
    decreases hi - lo
  {
    && lo in code && lo < NextPc(code, lo) <= hi
    && if lo == last then NextPc(code, lo) == hi
       else !code[lo].term.IsControlFlow() && StraightLine(code, NextPc(code, lo), last, hi)
  }

  /** Number of instructions from lo to the one that ends at hi. */
  ghost function InstructionCount(code: Code, lo: Pc, hi: Pc): nat
    decreases hi - lo
  {
    if lo in code && lo < NextPc(code, lo) <= hi then 1 + InstructionCount(code, NextPc(code, lo), hi) else 0
  }

  ghost predicate GoodBlock(code: Code, b: BasicBlock) {
    && StraightLine(code, b.start, b.lastPc, b.end)
    && b.count == InstructionCount(code, b.start, b.end)
  }

  lemma {:induction false} LastInCode(code: Code, lo: Pc, last: Pc, hi: Pc)
    requires StraightLine(code, lo, last, hi)
    ensures lo <= last < hi && last in code && NextPc(code, last) == hi
    decreases hi - lo
  {
    if lo != last {
      LastInCode(code, NextPc(code, lo), last, hi);
    }
  }

  // ----- lifting -----

  function LiftInsn(code: Code, p: Pc): IrInsn
    requires p in code
  {
    IrInsn(p, code[p].size, code[p].term)
  }

  ghost predicate Sized(code: Code) {
    forall p | p in code :: code[p].size > 0
  }

  /** Instructions of one range; only the last range stops at control flow. */
  function LiftRange(code: Code, lo: Pc, hi: Pc, stop: bool): seq<IrInsn>
    requires Sized(code)
    decreases hi - lo
  {
    if lo >= hi || lo !in code then []
    else if stop && code[lo].term.IsControlFlow() then [LiftInsn(code, lo)]
    else [LiftInsn(code, lo)] + LiftRange(code, NextPc(code, lo), hi, stop)
  }

  function LiftRanges(code: Code, ranges: seq<Range>): seq<IrInsn>
    requires Sized(code)
  {
    if ranges == [] then []
    else LiftRange(code, ranges[0].0, ranges[0].1, |ranges| == 1) + LiftRanges(code, ranges[1..])
  }

  /** A body that does not end in control flow falls through to the given address. */
  function Close(body: seq<IrInsn>, final: Pc): seq<IrInsn> {
    if body == [] || body[|body| - 1].term.IsControlFlow() then body
    else body[|body| - 1 := body[|body| - 1].(term := Fall(Some(final)))]
  }

  function Lifted(code: Code, ranges: seq<Range>): seq<IrInsn>
    requires Sized(code) && ranges != []
  {
    Close(LiftRanges(code, ranges), ranges[|ranges| - 1].1)
  }

  /** The inner loop: push one range onto a body. */
  method PushRange(code: Code, lo: Pc, hi: Pc, isLast: bool, before: seq<IrInsn>) returns (body: seq<IrInsn>)
    requires Sized(code)
    ensures body == before + LiftRange(code, lo, hi, isLast)
  {
    body := before;
    var pc := lo;
    while pc < hi
      invariant body + LiftRange(code, pc, hi, isLast) == before + LiftRange(code, lo, hi, isLast)
      decreases if pc < hi then hi - pc else 0
    {
      if pc !in code {
        return;
      }
      var ir := LiftInsn(code, pc);
      body := body + [ir];
      if ir.term.IsControlFlow() && isLast {
        return;
      }
      pc := NextPc(code, pc);
    }
  }

  /** The outer loop: all ranges in order. */
  method PushRanges(code: Code, ranges: seq<Range>) returns (body: seq<IrInsn>)
    requires Sized(code)
    ensures body == LiftRanges(code, ranges)
  {
    body := [];
    for k := 0 to |ranges|
      invariant body + LiftRanges(code, ranges[k..]) == LiftRanges(code, ranges)
    {
      assert ranges[k..][1..] == ranges[k + 1..];
      body := PushRange(code, ranges[k].0, ranges[k].1, k == |ranges| - 1, body);
    }
  }

  method LiftBlockWithContinuations(code: Code, start: Pc, end: Pc, continuations: Option<seq<Range>>)
    returns (block: Option<seq<IrInsn>>)
    requires Sized(code)
    ensures var ranges := [(start, end)] + (if continuations.Some? then continuations.value else []);
            block == if Lifted(code, ranges) == [] then None else Some(Lifted(code, ranges))
  {
    var ranges := [(start, end)] + (if continuations.Some? then continuations.value else []);
    var body := PushRanges(code, ranges);
    body := Close(body, ranges[|ranges| - 1].1);
    block := if body == [] then None else Some(body);
  }

  // ----- chains of blocks -----

  /** A fresh block table, keyed by block start. */
  type Blocks = map<Pc, BasicBlock>

  /** A block that ends in p, if there is one. */
  ghost function Owner(orig: Blocks, p: Pc): Pc {
    if exists b | b in orig :: orig[b].lastPc == p then var b :| b in orig && orig[b].lastPc == p; b else p
  }

  /** Different blocks end in different instructions. */
  ghost predicate DistinctLastPcs(orig: Blocks) {
    forall b | b in orig :: Owner(orig, orig[b].lastPc) == b
  }

  ghost predicate GoodBlocks(code: Code, orig: Blocks) {
    && (forall b | b in orig :: orig[b].start == b && GoodBlock(code, orig[b]))
    && DistinctLastPcs(orig)
  }

  /** The facts about a fresh block table that the passes rely on. */
  ghost predicate SoundBlocks(code: Code, orig: Blocks) {
    && (forall b | b in orig :: orig[b].start == b && b in code && EndsAt(code, orig[b]))
    && DistinctLastPcs(orig)
  }

  /** The block ends after its last instruction, which falls through to what follows if at all. */
  ghost predicate EndsAt(code: Code, b: BasicBlock) {
    b.lastPc in code && b.end == NextPc(code, b.lastPc) && PlainFall(code, b.lastPc)
  }

  lemma GoodIsSound(code: Code, orig: Blocks)
    requires WellFormed(code) && GoodBlocks(code, orig)
    ensures SoundBlocks(code, orig)
  {
    forall b | b in orig
      ensures b in code && EndsAt(code, orig[b])
    {
      assert GoodBlock(code, orig[b]);
      LastInCode(code, orig[b].start, orig[b].lastPc, orig[b].end);
    }
  }

  function RangeOf(orig: Blocks, b: Pc): Range
    requires b in orig
  {
    (orig[b].start, orig[b].end)
  }

  /** Every block of the chain is a block of the fresh table. */
  predicate AllIn(orig: Blocks, chain: seq<Pc>) {
    forall j | 0 <= j < |chain| :: chain[j] in orig
  }

  function RangesOf(orig: Blocks, chain: seq<Pc>): (r: seq<Range>)
    requires AllIn(orig, chain)
    ensures |r| == |chain| && forall j | 0 <= j < |r| :: r[j] == RangeOf(orig, chain[j])
  {
    if chain == [] then [] else [RangeOf(orig, chain[0])] + RangesOf(orig, chain[1..])
  }

  ghost predicate Linked(code: Code, orig: Blocks, chain: seq<Pc>) {
    && chain != []
    && (forall j | 0 <= j < |chain| :: chain[j] in orig && orig[chain[j]].lastPc in code)
    && (forall j | 0 <= j < |chain| - 1 :: Continues(code, orig[chain[j]].lastPc, chain[j + 1]))
  }

  /** What a lifted chain looks like: faithful, ending where the last block ends,
      with control flow only at block ends. */
  ghost predicate LiftedShape(code: Code, orig: Blocks, chain: seq<Pc>, body: seq<IrInsn>)
    requires Linked(code, orig, chain)
  {
    && FaithfulBody(code, chain[0], body)
    && body[|body| - 1].pc == orig[chain[|chain| - 1]].lastPc
    && FlowsAtEnds(code, orig, chain, body)
  }

  ghost predicate EndsBlock(orig: Blocks, chain: seq<Pc>, p: Pc) {
    exists j | 0 <= j < |chain| :: chain[j] in orig && p == orig[chain[j]].lastPc
  }

  ghost predicate FlowsAtEnds(code: Code, orig: Blocks, chain: seq<Pc>, body: seq<IrInsn>) {
    forall i | 0 <= i < |body| && body[i].pc in code && code[body[i].pc].term.IsControlFlow() ::
      EndsBlock(orig, chain, body[i].pc)
  }

  lemma {:induction false} LiftStraightLine(code: Code, lo: Pc, last: Pc, hi: Pc, stop: bool)
    requires Sized(code) && StraightLine(code, lo, last, hi)
    ensures var body := LiftRange(code, lo, hi, stop);
            && FaithfulBody(code, lo, body)
            && body[|body| - 1].pc == last
            && forall i | 0 <= i < |body| - 1 :: !code[body[i].pc].term.IsControlFlow()
    decreases hi - lo
  {
    if lo == last {
      assert LiftRange(code, lo, hi, stop) == [LiftInsn(code, lo)];
    } else {
      LiftStraightLine(code, NextPc(code, lo), last, hi, stop);
      var rest := LiftRange(code, NextPc(code, lo), hi, stop);
      assert LiftRange(code, lo, hi, stop) == [LiftInsn(code, lo)] + rest;
    }
  }

  lemma JoinBodies(code: Code, start: Pc, a: seq<IrInsn>, next: Pc, b: seq<IrInsn>)
    requires FaithfulBody(code, start, a) && FaithfulBody(code, next, b)
    requires Continues(code, a[|a| - 1].pc, next)
    ensures FaithfulBody(code, start, a + b)
  {
    var body := a + b;
    forall i | 0 <= i < |body| - 1
      ensures Continues(code, body[i].pc, body[i + 1].pc)
    {
    }
  }

  lemma EndsGrow(code: Code, orig: Blocks, chain: seq<Pc>, first: seq<IrInsn>, rest: seq<IrInsn>)
    requires chain != [] && chain[0] in orig
    requires FlowsAtEnds(code, orig, [chain[0]], first) && FlowsAtEnds(code, orig, chain[1..], rest)
    ensures FlowsAtEnds(code, orig, chain, first + rest)
  {
    forall p | EndsBlock(orig, [chain[0]], p) || EndsBlock(orig, chain[1..], p)
      ensures EndsBlock(orig, chain, p)
    {
      if EndsBlock(orig, chain[1..], p) {
        var j :| 0 <= j < |chain[1..]| && chain[1..][j] in orig && p == orig[chain[1..][j]].lastPc;
        assert chain[j + 1] == chain[1..][j];
      }
    }
  }

  lemma {:induction false} LiftChain(code: Code, orig: Blocks, chain: seq<Pc>)
    requires Sized(code) && GoodBlocks(code, orig) && Linked(code, orig, chain)
    ensures LiftedShape(code, orig, chain, LiftRanges(code, RangesOf(orig, chain)))
    decreases |chain|
  {
    var b := orig[chain[0]];
    var ranges := RangesOf(orig, chain);
    var first := LiftRange(code, b.start, b.end, |chain| == 1);
    LiftStraightLine(code, b.start, b.lastPc, b.end, |chain| == 1);
    assert [chain[0]][0] == chain[0] && EndsBlock(orig, [chain[0]], b.lastPc);
    var rest := LiftRanges(code, ranges[1..]);
    if |chain| == 1 {
      assert first + rest == first && [chain[0]] == chain;
    } else {
      TailLinked(code, orig, chain);
      assert ranges[1..] == RangesOf(orig, chain[1..]);
      LiftChain(code, orig, chain[1..]);
      JoinShapes(code, orig, chain, first, rest);
    }
  }

  lemma JoinShapes(code: Code, orig: Blocks, chain: seq<Pc>, first: seq<IrInsn>, rest: seq<IrInsn>)
    requires Linked(code, orig, chain) && |chain| > 1 && Linked(code, orig, chain[1..])
    requires FaithfulBody(code, chain[0], first) && first[|first| - 1].pc == orig[chain[0]].lastPc
    requires Continues(code, orig[chain[0]].lastPc, chain[1]) && FlowsAtEnds(code, orig, [chain[0]], first)
    requires LiftedShape(code, orig, chain[1..], rest)
    ensures LiftedShape(code, orig, chain, first + rest)
  {
    JoinBodies(code, chain[0], first, chain[1], rest);
    EndsGrow(code, orig, chain, first, rest);
  }

  lemma TailLinked(code: Code, orig: Blocks, chain: seq<Pc>)
    requires Linked(code, orig, chain) && |chain| > 1
    ensures Linked(code, orig, chain[1..]) && Continues(code, orig[chain[0]].lastPc, chain[1])
  {
    forall j | 0 <= j < |chain[1..]| - 1
      ensures Continues(code, orig[chain[1..][j]].lastPc, chain[1..][j + 1])
    {
      assert Continues(code, orig[chain[j + 1]].lastPc, chain[j + 1 + 1]);
    }
  }

  lemma LiftedChain(code: Code, orig: Blocks, chain: seq<Pc>)
    requires Sized(code) && GoodBlocks(code, orig) && Linked(code, orig, chain)
    ensures LiftedShape(code, orig, chain, Lifted(code, RangesOf(orig, chain)))
  {
    LiftChain(code, orig, chain);
    var body := LiftRanges(code, RangesOf(orig, chain));
    var last := orig[chain[|chain| - 1]];
    assert GoodBlock(code, last);
    LastInCode(code, last.start, last.lastPc, last.end);
    CloseKeepsShape(code, orig, chain, body, last.end);
  }

  /** Closing a body at the end of its last block keeps its shape. */
  lemma CloseKeepsShape(code: Code, orig: Blocks, chain: seq<Pc>, body: seq<IrInsn>, end: Pc)
    requires Linked(code, orig, chain) && LiftedShape(code, orig, chain, body)
    requires orig[chain[|chain| - 1]].lastPc in code && end == NextPc(code, orig[chain[|chain| - 1]].lastPc)
    ensures LiftedShape(code, orig, chain, Close(body, end))
  {
    var closed := Close(body, end);
    assert forall i | 0 <= i < |closed| :: closed[i].pc == body[i].pc && closed[i].size == body[i].size;
  }

  // ----- layouts -----

  /** Block functions by start, each a chain of original blocks, and the redirections. */
  datatype Layout = Layout(chains: map<Pc, seq<Pc>>, absorbed: map<Pc, Pc>)

  /** Control leaves the chain from its j-th block for address q. */
  ghost predicate LeavesChain(code: Code, orig: Blocks, chain: seq<Pc>, j: nat, q: Pc)
    requires j < |chain| && chain[j] in orig && orig[chain[j]].lastPc in code
  {
    var p := orig[chain[j]].lastPc;
    CanFlow(code, p, q) && (j == |chain| - 1 || BranchesTo(code, p, q))
  }

  ghost predicate LinkedChains(code: Code, orig: Blocks, l: Layout) {
    forall b | b in l.chains :: Linked(code, orig, l.chains[b]) && l.chains[b][0] == b
  }

  /** Recorded edges that leave chain b from its j-th block lead to block functions. */
  ghost predicate ExitsCovered(code: Code, succs: Edges, orig: Blocks, l: Layout, b: Pc, j: nat)
    requires LinkedChains(code, orig, l) && b in l.chains && j < |l.chains[b]|
  {
    forall q | q in code && q in Lookup(succs, orig[l.chains[b][j]].lastPc) && LeavesChain(code, orig, l.chains[b], j, q) ::
      q in l.chains
  }

  /** Every chain runs on from block to block, and every recorded edge that leaves
      a chain leads to the start of a block function. */
  ghost predicate Faithful(code: Code, succs: Edges, orig: Blocks, l: Layout) {
    && LinkedChains(code, orig, l)
    && (forall b, j | b in l.chains && 0 <= j < |l.chains[b]| :: ExitsCovered(code, succs, orig, l, b, j))
    && l.absorbed.Keys !! l.chains.Keys && l.absorbed.Keys <= code.Keys
    && l.absorbed.Values <= l.chains.Keys
  }

  /** Every block function has a chain of original blocks. */
  ghost predicate Chained(orig: Blocks, l: Layout) {
    forall b | b in l.chains :: l.chains[b] != [] && AllIn(orig, l.chains[b])
  }

  function Emission(code: Code, orig: Blocks, l: Layout): Emitted
    requires Sized(code) && Chained(orig, l)
  {
    Emitted(map b | b in l.chains :: Lifted(code, RangesOf(orig, l.chains[b])), l.absorbed)
  }

  lemma EmissionKeys(code: Code, orig: Blocks, l: Layout)
    requires Sized(code) && Chained(orig, l)
    ensures Emission(code, orig, l).blocks.Keys == l.chains.Keys && Emission(code, orig, l).absorbed == l.absorbed
  {
  }

  /** Leaving a lifted chain is leaving the chain from one of its blocks. */
  lemma LeavesFromBlock(code: Code, orig: Blocks, chain: seq<Pc>, body: seq<IrInsn>, i: nat, q: Pc) returns (j: nat)
    requires Linked(code, orig, chain) && LiftedShape(code, orig, chain, body)
    requires i < |body| && Leaves(code, body, i, q)
    ensures j < |chain| && body[i].pc == orig[chain[j]].lastPc && LeavesChain(code, orig, chain, j, q)
  {
    if i == |body| - 1 {
      j := |chain| - 1;
    } else {
      assert EndsBlock(orig, chain, body[i].pc);
      j :| 0 <= j < |chain| && chain[j] in orig && body[i].pc == orig[chain[j]].lastPc;
    }
  }

  lemma ChainEmits(code: Code, orig: Blocks, l: Layout, b: Pc)
    requires WellFormed(code) && GoodBlocks(code, orig)
    requires LinkedChains(code, orig, l)
    requires b in l.chains
    ensures LiftedShape(code, orig, l.chains[b], Emission(code, orig, l).blocks[b]) && b in code
  {
    LiftedChain(code, orig, l.chains[b]);
  }

  /** A faithful layout lifts to a faithful emission. */
  lemma FaithfulLayoutEmits(code: Code, succs: Edges, orig: Blocks, l: Layout)
    requires WellFormed(code) && GoodBlocks(code, orig) && Faithful(code, succs, orig, l)
    ensures Chained(orig, l) && FaithfulEmission(code, succs, Emission(code, orig, l))
  {
    LinkedIsChained(code, orig, l);
    var em := Emission(code, orig, l);
    forall b | b in em.blocks
      ensures FaithfulBody(code, b, em.blocks[b]) && b in code
    {
      ChainEmits(code, orig, l, b);
    }
    forall a | a in em.absorbed
      ensures em.absorbed[a] in em.blocks
    {
      assert em.absorbed[a] in l.absorbed.Values;
    }
    forall b, i, q | b in em.blocks && 0 <= i < |em.blocks[b]| && q in code
                     && q in Lookup(succs, em.blocks[b][i].pc) && Leaves(code, em.blocks[b], i, q)
      ensures q in em.blocks
    {
      ChainEmits(code, orig, l, b);
      var j := LeavesFromBlock(code, orig, l.chains[b], em.blocks[b], i, q);
      assert ExitsCovered(code, succs, orig, l, b, j);
    }
  }

  /** Every block function has its slot in the dispatch table. */
  ghost predicate HasSlots(code: Code, orig: Blocks, l: Layout) {
    Sized(code) && Chained(orig, l) && Slotted(Emission(code, orig, l))
  }

  /** The next n steps jump off the code only where the dispatch table has a trap. */
  ghost predicate LandsIn<S>(code: Code, orig: Blocks, l: Layout, m: Machine<S>, entry: Pc, s: S, n: nat) {
    Sized(code) && Chained(orig, l) && RunLands(code, Emission(code, orig, l), m, Running(entry, s), n)
  }

  /** The run of n steps from `entry` executes the same instructions through the lifted
      chains as through the code, and ends at the same one with the same state. */
  ghost predicate KeepsRun<S>(code: Code, orig: Blocks, l: Layout, m: Machine<S>, entry: Pc, s: S, n: nat) {
    && Sized(code) && Chained(orig, l) && entry in l.chains
    && SameRun(code, Emission(code, orig, l), m, entry, s, n)
  }

  lemma LinkedIsChained(code: Code, orig: Blocks, l: Layout)
    requires LinkedChains(code, orig, l)
    ensures Chained(orig, l)
  {
  }

  lemma EmissionKeeps<S(!new)>(code: Code, succs: Edges, orig: Blocks, l: Layout, m: Machine<S>, entry: Pc, s: S, n: nat)
    requires PlainFalls(code) && HasSlots(code, orig, l) && FaithfulEmission(code, succs, Emission(code, orig, l))
    requires entry in l.chains
    requires RunRecorded(code, succs, m, Running(entry, s), n)
    ensures KeepsRun(code, orig, l, m, entry, s, n) <==> LandsIn(code, orig, l, m, entry, s, n)
  {
    FaithfulRun(code, succs, Emission(code, orig, l), m, entry, s, n);
  }

  /** A faithful layout whose block functions have their slots keeps a recorded run that
      starts at a block function exactly when its computed jumps off the code find traps. */
  lemma FaithfulLayoutTrace<S(!new)>(code: Code, succs: Edges, orig: Blocks, l: Layout, m: Machine<S>, entry: Pc, s: S, n: nat)
    requires WellFormed(code) && GoodBlocks(code, orig) && Faithful(code, succs, orig, l) && HasSlots(code, orig, l)
    requires entry in l.chains
    requires RunRecorded(code, succs, m, Running(entry, s), n)
    ensures KeepsRun(code, orig, l, m, entry, s, n) <==> LandsIn(code, orig, l, m, entry, s, n)
  {
    FaithfulLayoutEmits(code, succs, orig, l);
    EmissionKeeps(code, succs, orig, l, m, entry, s, n);
  }
}
