/**
  A layout keeps every recorded run exactly when recorded runs find every instruction
  they reach followed by the right one, and every block function has its slot.
 */
module Exact {
  import opened Code
  import opened Text
  import opened Trace
  import opened Layout

  // ----- probing an emission -----

  /** A machine that counts steps, falls through branches but possibly in step k, and
      resolves computed jumps along the body before step k and to q then. */
  ghost function Probe(body: seq<IrInsn>, k: nat, take: bool, q: Pc): Machine<int> {
    Machine((p: Pc, s: int) => s + 1, (p: Pc, s: int) => s == k && take,
            (p: Pc, s: int) => if 0 <= s < k && s + 1 < |body| then body[s + 1].pc else q)
  }

  /** Every recorded run from a block function stays the same. */
  ghost predicate SameRuns(code: Code, succs: Edges, em: Emitted) {
    && ValidEmission(em)
    && forall m: Machine<int>, b, n: nat | b in em.blocks && RunRecorded(code, succs, m, Running(b, 0), n)
         && RunLands(code, em, m, Running(b, 0), n) :: SameRun(code, em, m, b, 0, n)
  }

  lemma ProbeStep(code: Code, succs: Edges, em: Emitted, b: Pc, k: nat, take: bool, q: Pc, i: nat)
    requires PlainFalls(code) && CodeEmission(code, em) && ValidEmission(em) && b in em.blocks
    requires LiveTo(code, succs, em.blocks[b], k) && i < k
    ensures var body, m := em.blocks[b], Probe(em.blocks[b], k, take, q);
            && Step(code, m, Running(body[i].pc, i)) == Running(body[i + 1].pc, i + 1)
            && StepOnEdge(code, succs, m, Running(body[i].pc, i)) && LandsAt(code, em, m, Running(body[i].pc, i))
            && BlockStep(em, m, At(b, i, i)) == At(b, i + 1, i + 1)
  {
    var body := em.blocks[b];
    assert CodeBody(code, b, body);
    assert CodeInsn(code, body[i]) && CodeInsn(code, body[i + 1]);
    assert Passes(code, succs, body[i].pc, body[i + 1].pc);
    assert PlainFall(code, body[i].pc);
  }

  /** From instruction i, the probe gets to instruction k on both sides. */
  lemma {:induction false} ProbeRun(code: Code, succs: Edges, em: Emitted, b: Pc, k: nat, take: bool, q: Pc, i: nat)
    requires PlainFalls(code) && CodeEmission(code, em) && ValidEmission(em) && b in em.blocks
    requires LiveTo(code, succs, em.blocks[b], k) && i <= k
    requires var m := Probe(em.blocks[b], k, take, q);
             StepOnEdge(code, succs, m, Running(em.blocks[b][k].pc, k)) && LandsAt(code, em, m, Running(em.blocks[b][k].pc, k))
    ensures var body, m := em.blocks[b], Probe(em.blocks[b], k, take, q);
            && RunRecorded(code, succs, m, Running(body[i].pc, i), k - i + 1)
            && RunLands(code, em, m, Running(body[i].pc, i), k - i + 1)
            && Execute(code, m, Running(body[i].pc, i), k - i + 1).1 == Step(code, m, Running(body[k].pc, k))
            && ExecuteBlocks(em, m, At(b, i, i), k - i + 1).1 == BlockStep(em, m, At(b, k, k))
    decreases k - i
  {
    var body, m := em.blocks[b], Probe(em.blocks[b], k, take, q);
    if i < k {
      ProbeStep(code, succs, em, b, k, take, q, i);
      ProbeRun(code, succs, em, b, k, take, q, i + 1);
    } else {
      var c, d := Step(code, m, Running(body[k].pc, k)), BlockStep(em, m, At(b, k, k));
      assert RunRecorded(code, succs, m, c, 0) && RunLands(code, em, m, c, 0);
      assert Execute(code, m, c, 0).1 == c && ExecuteBlocks(em, m, d, 0).1 == d;
    }
  }

  /** A run of no step only finds its entry. */
  lemma SameSlot(code: Code, succs: Edges, em: Emitted, b: Pc)
    requires CodeEmission(code, em) && SameRuns(code, succs, em) && b in em.blocks
    ensures Dispatched(em, b) == Some(Block(b))
  {
    var m := Probe([], 0, false, 0);
    assert RunRecorded(code, succs, m, Running(b, 0), 0) && RunLands(code, em, m, Running(b, 0), 0);
    assert SameRun(code, em, m, b, 0, 0);
    var d := Dispatch(em, b, 0);
    assert d.At? && CodeBody(code, d.block, em.blocks[d.block]);
  }

  /** If runs stay the same, both sides agree on what follows instruction k. */
  lemma ProbeAgrees(code: Code, succs: Edges, em: Emitted, b: Pc, k: nat, take: bool, q: Pc)
    requires PlainFalls(code) && CodeEmission(code, em) && SameRuns(code, succs, em) && b in em.blocks
    requires LiveTo(code, succs, em.blocks[b], k)
    requires var m := Probe(em.blocks[b], k, take, q);
             StepOnEdge(code, succs, m, Running(em.blocks[b][k].pc, k)) && LandsAt(code, em, m, Running(em.blocks[b][k].pc, k))
    ensures var m := Probe(em.blocks[b], k, take, q);
            Matches(em, Step(code, m, Running(em.blocks[b][k].pc, k)), BlockStep(em, m, At(b, k, k)))
  {
    var m := Probe(em.blocks[b], k, take, q);
    assert CodeBody(code, b, em.blocks[b]);
    ProbeRun(code, succs, em, b, k, take, q, 0);
    assert SameRun(code, em, m, b, 0, k + 1);
    SameSlot(code, succs, em, b);
    assert Dispatch(em, b, 0) == At(b, 0, 0);
  }

  // ----- bodies -----

  /** Whatever the probe does at instruction k of block function b, both sides agree. */
  ghost predicate AgreesAt(code: Code, succs: Edges, em: Emitted, b: Pc, k: nat)
    requires ValidEmission(em) && b in em.blocks && k < |em.blocks[b]|
  {
    forall take, q :: ProbeAgreed(code, succs, em, b, k, take, q)
  }

  ghost predicate ProbeAgreed(code: Code, succs: Edges, em: Emitted, b: Pc, k: nat, take: bool, q: Pc)
    requires ValidEmission(em) && b in em.blocks && k < |em.blocks[b]|
  {
    var m, c := Probe(em.blocks[b], k, take, q), Running(em.blocks[b][k].pc, k);
    StepOnEdge(code, succs, m, c) && LandsAt(code, em, m, c) ==> Matches(em, Step(code, m, c), BlockStep(em, m, At(b, k, k)))
  }

  /** Where a computed jump may go from instruction k, the body goes on there. */
  lemma DynamicRunsOn(code: Code, succs: Edges, em: Emitted, b: Pc, k: nat, q: Pc)
    requires PlainFalls(code) && CodeEmission(code, em) && ValidEmission(em) && b in em.blocks
    requires LiveTo(code, succs, em.blocks[b], k) && k + 1 < |em.blocks[b]| && em.blocks[b][k].pc in code
    requires AgreesAt(code, succs, em, b, k)
    requires code[em.blocks[b][k].pc].term.JumpDyn?
    requires if q in code then q in Lookup(succs, em.blocks[b][k].pc) else Dispatched(em, q) == Some(TrapEntry)
    ensures q in code && q == em.blocks[b][k + 1].pc
  {
    var body, m := em.blocks[b], Probe(em.blocks[b], k, false, q);
    assert CodeBody(code, b, body) && CodeInsn(code, body[k]);
    assert m.dynamic(body[k].pc, k) == q;
    assert ProbeAgreed(code, succs, em, b, k, false, q);
    assert BlockStep(em, m, At(b, k, k)) == At(b, k + 1, k + 1);
  }

  lemma StaticRunsOn(code: Code, succs: Edges, em: Emitted, b: Pc, k: nat)
    requires PlainFalls(code) && CodeEmission(code, em) && ValidEmission(em) && b in em.blocks
    requires LiveTo(code, succs, em.blocks[b], k) && k + 1 < |em.blocks[b]| && em.blocks[b][k].pc in code
    requires AgreesAt(code, succs, em, b, k)
    requires !code[em.blocks[b][k].pc].term.JumpDyn?
    ensures RunsOnTo(code, succs, em, em.blocks[b][k].pc, em.blocks[b][k + 1].pc)
  {
    var body, m := em.blocks[b], Probe(em.blocks[b], k, false, 0);
    assert CodeBody(code, b, body) && CodeInsn(code, body[k]);
    assert PlainFall(code, body[k].pc);
    assert BlockStep(em, m, At(b, k, k)) == At(b, k + 1, k + 1);
    assert ProbeAgreed(code, succs, em, b, k, false, 0);
  }

  lemma BodyRunsOn(code: Code, succs: Edges, em: Emitted, b: Pc, k: nat)
    requires PlainFalls(code) && CodeEmission(code, em) && ValidEmission(em) && b in em.blocks
    requires LiveTo(code, succs, em.blocks[b], k) && k + 1 < |em.blocks[b]| && em.blocks[b][k].pc in code
    requires AgreesAt(code, succs, em, b, k)
    ensures RunsOnTo(code, succs, em, em.blocks[b][k].pc, em.blocks[b][k + 1].pc)
  {
    var p, next := em.blocks[b][k].pc, em.blocks[b][k + 1].pc;
    if code[p].term.JumpDyn? {
      forall q | q in code && q in Lookup(succs, p)
        ensures q == next
      {
        DynamicRunsOn(code, succs, em, b, k, q);
      }
      forall q: Pc | q !in code
        ensures Dispatched(em, q) != Some(TrapEntry)
      {
        if Dispatched(em, q) == Some(TrapEntry) {
          DynamicRunsOn(code, succs, em, b, k, q);
        }
      }
    } else {
      StaticRunsOn(code, succs, em, b, k);
    }
  }

  // ----- exits -----

  lemma ExitReached(code: Code, succs: Edges, em: Emitted, b: Pc, k: nat, q: Pc)
    requires PlainFalls(code) && CodeEmission(code, em) && ValidEmission(em) && b in em.blocks
    requires LiveTo(code, succs, em.blocks[b], k) && em.blocks[b][k].pc in code && AgreesAt(code, succs, em, b, k)
    requires q in code && q in Lookup(succs, em.blocks[b][k].pc) && Leaves(code, em.blocks[b], k, q)
    ensures q in em.blocks
  {
    var body := em.blocks[b];
    var take := BranchesTo(code, body[k].pc, q);
    var m := Probe(body, k, take, q);
    assert CodeBody(code, b, body);
    assert CodeInsn(code, body[k]) && PlainFall(code, body[k].pc);
    assert Step(code, m, Running(body[k].pc, k)) == Running(q, k + 1);
    assert ProbeAgreed(code, succs, em, b, k, take, q);
    var d := BlockStep(em, m, At(b, k, k));
    assert d == GoTo(em, code[body[k].pc].term, q, k + 1);
    assert CodeBody(code, d.block, em.blocks[d.block]);
  }

  /** Where both sides agree, the instruction is right. */
  lemma AgreedIsRight(code: Code, succs: Edges, em: Emitted, b: Pc, i: nat)
    requires PlainFalls(code) && CodeEmission(code, em) && ValidEmission(em) && b in em.blocks
    requires LiveTo(code, succs, em.blocks[b], i) && AgreesAt(code, succs, em, b, i)
    ensures em.blocks[b][i].pc in code && RightAt(code, succs, em, b, i)
  {
    var body := em.blocks[b];
    assert CodeBody(code, b, body) && CodeInsn(code, body[i]);
    if i < |body| - 1 {
      BodyRunsOn(code, succs, em, b, i);
    }
    forall q | q in code && q in Lookup(succs, body[i].pc) && Leaves(code, body, i, q)
      ensures q in em.blocks
    {
      ExitReached(code, succs, em, b, i, q);
    }
  }

  lemma SameAgrees(code: Code, succs: Edges, em: Emitted, b: Pc, k: nat)
    requires PlainFalls(code) && CodeEmission(code, em) && SameRuns(code, succs, em) && b in em.blocks
    requires LiveTo(code, succs, em.blocks[b], k)
    ensures AgreesAt(code, succs, em, b, k)
  {
    forall take, q
      ensures ProbeAgreed(code, succs, em, b, k, take, q)
    {
      var m, c := Probe(em.blocks[b], k, take, q), Running(em.blocks[b][k].pc, k);
      if StepOnEdge(code, succs, m, c) && LandsAt(code, em, m, c) {
        ProbeAgrees(code, succs, em, b, k, take, q);
      }
    }
  }

  lemma SameRunsLive(code: Code, succs: Edges, em: Emitted)
    requires PlainFalls(code) && CodeEmission(code, em) && SameRuns(code, succs, em)
    ensures LiveEmission(code, succs, em) && Slotted(em)
  {
    forall b, i: nat | b in em.blocks && LiveTo(code, succs, em.blocks[b], i)
      ensures em.blocks[b][i].pc in code && RightAt(code, succs, em, b, i)
    {
      SameAgrees(code, succs, em, b, i);
      AgreedIsRight(code, succs, em, b, i);
    }
    forall b | b in em.blocks
      ensures Dispatched(em, b) == Some(Block(b))
    {
      SameSlot(code, succs, em, b);
    }
  }

  /** An emission of the code's instructions keeps every recorded run exactly when what those
      runs reach is right and every block function has its slot. */
  lemma SameRunsExact(code: Code, succs: Edges, em: Emitted)
    requires PlainFalls(code) && CodeEmission(code, em)
    ensures SameRuns(code, succs, em) <==> LiveEmission(code, succs, em) && Slotted(em)
  {
    if SameRuns(code, succs, em) {
      SameRunsLive(code, succs, em);
    }
    if LiveEmission(code, succs, em) && Slotted(em) {
      forall m: Machine<int>, b, n: nat | b in em.blocks && RunRecorded(code, succs, m, Running(b, 0), n)
                                          && RunLands(code, em, m, Running(b, 0), n)
        ensures SameRun(code, em, m, b, 0, n)
      {
        LiveRun(code, succs, em, m, b, 0, n);
      }
    }
  }

  // ----- where everything is visited -----

  /** Static successors of the instruction at p are recorded. */
  ghost predicate RecordedAt(code: Code, succs: Edges, p: Pc) {
    p in code ==> forall q | q in code && StaticSuccessor(code, p, q) :: q in Lookup(succs, p)
  }

  ghost predicate BodiesRecorded(code: Code, succs: Edges, em: Emitted) {
    forall b, i | b in em.blocks && 0 <= i < |em.blocks[b]| :: RecordedAt(code, succs, em.blocks[b][i].pc)
  }

  /** Computed jumps only end bodies. */
  ghost predicate DynamicLast(code: Code, body: seq<IrInsn>) {
    forall i | 0 <= i < |body| - 1 :: body[i].pc in code ==> !code[body[i].pc].term.JumpDyn?
  }

  lemma RightContinues(code: Code, succs: Edges, em: Emitted, p: Pc, next: Pc)
    requires p in code && next in code && RunsOnTo(code, succs, em, p, next) && RecordedAt(code, succs, p)
    requires !code[p].term.JumpDyn?
    ensures Continues(code, p, next) && Passes(code, succs, p, next)
  {
    var q := if code[p].term.Jump? then code[p].term.target else NextPc(code, p);
    assert StaticSuccessor(code, p, q);
  }

  lemma {:induction false} BodyLive(code: Code, succs: Edges, em: Emitted, b: Pc, k: nat)
    requires LiveEmission(code, succs, em) && BodiesRecorded(code, succs, em) && b in em.blocks && k < |em.blocks[b]|
    requires DynamicLast(code, em.blocks[b])
    ensures LiveTo(code, succs, em.blocks[b], k)
    ensures forall i | 0 <= i < k :: em.blocks[b][i].pc in code && Continues(code, em.blocks[b][i].pc, em.blocks[b][i + 1].pc)
    decreases k
  {
    var body := em.blocks[b];
    assert CodeBody(code, b, body);
    if k > 0 {
      BodyLive(code, succs, em, b, k - 1);
      assert CodeInsn(code, body[k - 1]) && CodeInsn(code, body[k]);
      assert RightAt(code, succs, em, b, k - 1);
      RightContinues(code, succs, em, body[k - 1].pc, body[k].pc);
      LiveNext(code, succs, body, k - 1);
    }
  }

  lemma VisitedFaithful(code: Code, succs: Edges, em: Emitted)
    requires LiveEmission(code, succs, em) && BodiesRecorded(code, succs, em)
    requires forall b | b in em.blocks :: DynamicLast(code, em.blocks[b])
    ensures FaithfulEmission(code, succs, em)
  {
    forall b | b in em.blocks
      ensures FaithfulBody(code, b, em.blocks[b])
    {
      assert CodeBody(code, b, em.blocks[b]);
      BodyLive(code, succs, em, b, |em.blocks[b]| - 1);
    }
    forall b, i, q | b in em.blocks && 0 <= i < |em.blocks[b]| && q in code
                     && q in Lookup(succs, em.blocks[b][i].pc) && Leaves(code, em.blocks[b], i, q)
      ensures q in em.blocks
    {
      BodyLive(code, succs, em, b, i);
      assert RightAt(code, succs, em, b, i);
    }
  }

  // ----- lifted chains -----

  /** The instruction as lifted from a block. */
  ghost predicate FromBlock(code: Code, orig: Blocks, ir: IrInsn) {
    && ir.pc in code && ir == LiftInsn(code, ir.pc)
    && exists b | b in orig :: b <= ir.pc < orig[b].end
  }

  ghost predicate FromBlocks(code: Code, orig: Blocks, body: seq<IrInsn>) {
    forall i | 0 <= i < |body| :: FromBlock(code, orig, body[i])
  }

  lemma {:induction false} RangeFromBlock(code: Code, orig: Blocks, b: Pc, lo: Pc, stop: bool)
    requires Sized(code) && b in orig && b <= lo
    ensures FromBlocks(code, orig, LiftRange(code, lo, orig[b].end, stop))
    decreases orig[b].end - lo
  {
    if lo < orig[b].end && lo in code {
      assert FromBlock(code, orig, LiftInsn(code, lo));
      RangeFromBlock(code, orig, b, NextPc(code, lo), stop);
    }
  }

  /** What the body of a chain looks like, whether or not the chain runs on. */
  ghost predicate BodyShape(code: Code, orig: Blocks, chain: seq<Pc>, body: seq<IrInsn>) {
    && chain != [] && chain[|chain| - 1] in orig
    && body != [] && body[0].pc == chain[0] && body[|body| - 1].pc == orig[chain[|chain| - 1]].lastPc
    && FromBlocks(code, orig, body)
  }

  lemma BlockBody(code: Code, orig: Blocks, b: Pc, stop: bool)
    requires Sized(code) && GoodBlocks(code, orig) && b in orig
    ensures BodyShape(code, orig, [b], LiftRange(code, orig[b].start, orig[b].end, stop))
  {
    assert GoodBlock(code, orig[b]);
    LiftStraightLine(code, orig[b].start, orig[b].lastPc, orig[b].end, stop);
    RangeFromBlock(code, orig, b, b, stop);
  }

  lemma ShapeJoins(code: Code, orig: Blocks, chain: seq<Pc>, first: seq<IrInsn>, rest: seq<IrInsn>)
    requires |chain| > 1 && BodyShape(code, orig, [chain[0]], first) && BodyShape(code, orig, chain[1..], rest)
    ensures BodyShape(code, orig, chain, first + rest)
  {
  }

  /** The body of a chain starts with that of its first block. */
  lemma FirstThenRest(code: Code, orig: Blocks, chain: seq<Pc>)
    requires Sized(code) && AllIn(orig, chain) && chain != []
    ensures AllIn(orig, chain[1..])
    ensures var b := orig[chain[0]];
            LiftRanges(code, RangesOf(orig, chain)) ==
              if |chain| == 1 then LiftRange(code, b.start, b.end, true)
              else LiftRange(code, b.start, b.end, false) + LiftRanges(code, RangesOf(orig, chain[1..]))
  {
    var ranges := RangesOf(orig, chain);
    assert ranges[1..] == RangesOf(orig, chain[1..]);
    if |chain| == 1 {
      assert LiftRanges(code, ranges[1..]) == [];
    }
  }

  lemma {:induction false} ChainBody(code: Code, orig: Blocks, chain: seq<Pc>)
    requires Sized(code) && GoodBlocks(code, orig) && AllIn(orig, chain) && chain != []
    ensures BodyShape(code, orig, chain, LiftRanges(code, RangesOf(orig, chain)))
    decreases |chain|
  {
    var b := orig[chain[0]];
    FirstThenRest(code, orig, chain);
    BlockBody(code, orig, chain[0], |chain| == 1);
    if |chain| == 1 {
      assert chain == [chain[0]];
    } else {
      ChainBody(code, orig, chain[1..]);
      ShapeJoins(code, orig, chain, LiftRange(code, b.start, b.end, false), LiftRanges(code, RangesOf(orig, chain[1..])));
    }
  }

  /** Instruction i of the body ends block j of the chain; the next one starts block j + 1. */
  ghost predicate Boundary(orig: Blocks, chain: seq<Pc>, body: seq<IrInsn>, j: nat, i: nat) {
    && j < |chain| && i < |body| && chain[j] in orig && body[i].pc == orig[chain[j]].lastPc
    && (j == |chain| - 1 <==> i == |body| - 1)
    && (j < |chain| - 1 && i < |body| - 1 ==> body[i + 1].pc == chain[j + 1])
  }

  lemma FirstBoundary(code: Code, orig: Blocks, chain: seq<Pc>, first: seq<IrInsn>, rest: seq<IrInsn>)
    requires |chain| > 1 && BodyShape(code, orig, [chain[0]], first) && BodyShape(code, orig, chain[1..], rest)
    ensures Boundary(orig, chain, first + rest, 0, |first| - 1)
  {
  }

  lemma LaterBoundary(orig: Blocks, chain: seq<Pc>, first: seq<IrInsn>, rest: seq<IrInsn>, body: seq<IrInsn>, j: nat, n: nat, i: nat)
    requires |chain| > 1 && j > 0 && Boundary(orig, chain[1..], rest, j - 1, n) && body == first + rest && i == |first| + n
    ensures Boundary(orig, chain, body, j, i)
  {
    assert body[i] == rest[n];
    if n < |rest| - 1 {
      assert body[i + 1] == rest[n + 1] && chain[1..][j] == chain[j + 1];
    }
  }

  lemma OnlyBoundary(code: Code, orig: Blocks, chain: seq<Pc>, body: seq<IrInsn>)
    requires |chain| == 1 && BodyShape(code, orig, chain, body)
    ensures Boundary(orig, chain, body, 0, |body| - 1)
  {
  }

  /** The first block of a chain and the rest of it. */
  lemma SplitBody(code: Code, orig: Blocks, chain: seq<Pc>) returns (first: seq<IrInsn>, rest: seq<IrInsn>)
    requires Sized(code) && GoodBlocks(code, orig) && AllIn(orig, chain) && |chain| > 1
    ensures LiftRanges(code, RangesOf(orig, chain)) == first + rest
    ensures BodyShape(code, orig, [chain[0]], first) && BodyShape(code, orig, chain[1..], rest)
    ensures AllIn(orig, chain[1..]) && rest == LiftRanges(code, RangesOf(orig, chain[1..]))
  {
    FirstThenRest(code, orig, chain);
    BlockBody(code, orig, chain[0], false);
    ChainBody(code, orig, chain[1..]);
    first := LiftRange(code, orig[chain[0]].start, orig[chain[0]].end, false);
    rest := LiftRanges(code, RangesOf(orig, chain[1..]));
  }

  lemma {:induction false} BoundaryOf(code: Code, orig: Blocks, chain: seq<Pc>, j: nat) returns (i: nat)
    requires Sized(code) && GoodBlocks(code, orig) && AllIn(orig, chain) && j < |chain|
    ensures Boundary(orig, chain, LiftRanges(code, RangesOf(orig, chain)), j, i)
    decreases |chain|
  {
    if |chain| == 1 {
      i := SingleBoundary(code, orig, chain);
    } else if j == 0 {
      i := BoundaryAhead(code, orig, chain);
    } else {
      var n := BoundaryOf(code, orig, chain[1..], j - 1);
      i := BoundaryBehind(code, orig, chain, j, n);
    }
  }

  lemma BoundaryAhead(code: Code, orig: Blocks, chain: seq<Pc>) returns (i: nat)
    requires Sized(code) && GoodBlocks(code, orig) && AllIn(orig, chain) && |chain| > 1
    ensures Boundary(orig, chain, LiftRanges(code, RangesOf(orig, chain)), 0, i)
  {
    var first, rest := SplitBody(code, orig, chain);
    FirstBoundary(code, orig, chain, first, rest);
    i := |first| - 1;
  }

  lemma BoundaryBehind(code: Code, orig: Blocks, chain: seq<Pc>, j: nat, n: nat) returns (i: nat)
    requires Sized(code) && GoodBlocks(code, orig) && AllIn(orig, chain) && |chain| > 1 && 0 < j < |chain|
    requires AllIn(orig, chain[1..]) && Boundary(orig, chain[1..], LiftRanges(code, RangesOf(orig, chain[1..])), j - 1, n)
    ensures Boundary(orig, chain, LiftRanges(code, RangesOf(orig, chain)), j, i)
  {
    var first, rest := SplitBody(code, orig, chain);
    i := |first| + n;
    LaterBoundary(orig, chain, first, rest, first + rest, j, n, i);
  }

  lemma SingleBoundary(code: Code, orig: Blocks, chain: seq<Pc>) returns (i: nat)
    requires Sized(code) && GoodBlocks(code, orig) && AllIn(orig, chain) && |chain| == 1
    ensures Boundary(orig, chain, LiftRanges(code, RangesOf(orig, chain)), 0, i)
  {
    ChainBody(code, orig, chain);
    OnlyBoundary(code, orig, chain, LiftRanges(code, RangesOf(orig, chain)));
    i := |LiftRanges(code, RangesOf(orig, chain))| - 1;
  }

  /** Closing a body keeps its addresses and makes the fall-through at its end explicit. */
  lemma CloseIsCode(code: Code, orig: Blocks, chain: seq<Pc>, body: seq<IrInsn>)
    requires BodyShape(code, orig, chain, body) && EndsAt(code, orig[chain[|chain| - 1]])
    ensures var closed := Close(body, orig[chain[|chain| - 1]].end);
            && CodeBody(code, chain[0], closed) && |closed| == |body|
            && forall i | 0 <= i < |body| :: closed[i].pc == body[i].pc
  {
    var closed := Close(body, orig[chain[|chain| - 1]].end);
    forall i | 0 <= i < |closed|
      ensures CodeInsn(code, closed[i])
    {
      assert FromBlock(code, orig, body[i]);
    }
  }

  /** The body of a chain, its addresses and its boundaries. */
  lemma ChainIsCode(code: Code, orig: Blocks, chain: seq<Pc>)
    requires WellFormed(code) && GoodBlocks(code, orig) && AllIn(orig, chain) && chain != []
    ensures var body, closed := LiftRanges(code, RangesOf(orig, chain)), Lifted(code, RangesOf(orig, chain));
            && CodeBody(code, chain[0], closed) && |closed| == |body|
            && (forall i | 0 <= i < |body| :: closed[i].pc == body[i].pc)
            && FromBlocks(code, orig, body)
  {
    ChainBody(code, orig, chain);
    GoodIsSound(code, orig);
    CloseIsCode(code, orig, chain, LiftRanges(code, RangesOf(orig, chain)));
  }

  /** The block ends in a computed jump. */
  ghost predicate EndsDynamic(code: Code, orig: Blocks, b: Pc) {
    b in orig && orig[b].lastPc in code && code[orig[b].lastPc].term.JumpDyn?
  }

  ghost predicate DynamicEnds(code: Code, orig: Blocks, chain: seq<Pc>) {
    forall j | 0 <= j < |chain| - 1 :: !EndsDynamic(code, orig, chain[j])
  }

  lemma TailDynamic(code: Code, orig: Blocks, chain: seq<Pc>)
    requires DynamicEnds(code, orig, chain) && chain != []
    ensures DynamicEnds(code, orig, chain[1..])
  {
    var rest := chain[1..];
    forall j | 0 <= j < |rest| - 1
      ensures !EndsDynamic(code, orig, rest[j])
    {
      assert rest[j] == chain[j + 1];
    }
  }

  lemma DynamicJoins(code: Code, first: seq<IrInsn>, rest: seq<IrInsn>)
    requires first != [] && DynamicLast(code, first) && DynamicLast(code, rest)
    requires first[|first| - 1].pc in code ==> !code[first[|first| - 1].pc].term.JumpDyn?
    ensures DynamicLast(code, first + rest)
  {
  }

  lemma BlockDynamic(code: Code, orig: Blocks, b: Pc, stop: bool)
    requires Sized(code) && GoodBlocks(code, orig) && b in orig
    ensures DynamicLast(code, LiftRange(code, orig[b].start, orig[b].end, stop))
  {
    assert GoodBlock(code, orig[b]);
    LiftStraightLine(code, orig[b].start, orig[b].lastPc, orig[b].end, stop);
  }

  /** Chains whose blocks but the last do not end in computed jumps lift to such bodies. */
  lemma {:induction false} ChainDynamic(code: Code, orig: Blocks, chain: seq<Pc>)
    requires Sized(code) && GoodBlocks(code, orig) && AllIn(orig, chain) && chain != [] && DynamicEnds(code, orig, chain)
    ensures DynamicLast(code, LiftRanges(code, RangesOf(orig, chain)))
    decreases |chain|
  {
    var b := orig[chain[0]];
    FirstThenRest(code, orig, chain);
    BlockDynamic(code, orig, chain[0], |chain| == 1);
    if |chain| > 1 {
      TailDynamic(code, orig, chain);
      ChainDynamic(code, orig, chain[1..]);
      BlockBody(code, orig, chain[0], false);
      assert !EndsDynamic(code, orig, chain[0]);
      DynamicJoins(code, LiftRange(code, b.start, b.end, false), LiftRanges(code, RangesOf(orig, chain[1..])));
    }
  }

  // ----- layouts -----

  /** Static successors of every instruction of a block are recorded. */
  ghost predicate InsideRecorded(code: Code, succs: Edges, orig: Blocks) {
    forall b, p | b in orig && b <= p < orig[b].end :: RecordedAt(code, succs, p)
  }

  /** Chains of blocks by their first one, redirections of other addresses. */
  ghost predicate Headed(code: Code, orig: Blocks, l: Layout) {
    && Chained(orig, l) && (forall b | b in l.chains :: l.chains[b][0] == b)
    && l.absorbed.Keys !! l.chains.Keys && l.absorbed.Keys <= code.Keys
  }

  /** Redirections lead to block functions and every recorded run from one is kept. */
  ghost predicate KeepsRuns(code: Code, succs: Edges, orig: Blocks, l: Layout) {
    && l.absorbed.Values <= l.chains.Keys
    && forall m: Machine<int>, b, n: nat | b in l.chains && RunRecorded(code, succs, m, Running(b, 0), n)
         && LandsIn(code, orig, l, m, b, 0, n) :: KeepsRun(code, orig, l, m, b, 0, n)
  }

  /** All instructions of the lifted chains that recorded runs reach are right. */
  ghost predicate LiveLayout(code: Code, succs: Edges, orig: Blocks, l: Layout) {
    Sized(code) && Chained(orig, l) && LiveEmission(code, succs, Emission(code, orig, l))
  }

  lemma BodyRecorded(code: Code, succs: Edges, orig: Blocks, body: seq<IrInsn>, i: nat)
    requires InsideRecorded(code, succs, orig) && FromBlocks(code, orig, body) && i < |body|
    ensures RecordedAt(code, succs, body[i].pc)
  {
    assert FromBlock(code, orig, body[i]);
  }

  lemma EmissionIsCode(code: Code, orig: Blocks, l: Layout)
    requires WellFormed(code) && GoodBlocks(code, orig) && Headed(code, orig, l)
    ensures CodeEmission(code, Emission(code, orig, l))
  {
    var em := Emission(code, orig, l);
    forall b | b in em.blocks
      ensures CodeBody(code, b, em.blocks[b])
    {
      ChainIsCode(code, orig, l.chains[b]);
    }
  }

  lemma EmissionRecorded(code: Code, succs: Edges, orig: Blocks, l: Layout)
    requires WellFormed(code) && GoodBlocks(code, orig) && Headed(code, orig, l) && InsideRecorded(code, succs, orig)
    ensures BodiesRecorded(code, succs, Emission(code, orig, l))
  {
    var em := Emission(code, orig, l);
    forall b, i | b in em.blocks && 0 <= i < |em.blocks[b]|
      ensures RecordedAt(code, succs, em.blocks[b][i].pc)
    {
      ChainIsCode(code, orig, l.chains[b]);
      BodyRecorded(code, succs, orig, LiftRanges(code, RangesOf(orig, l.chains[b])), i);
    }
  }

  lemma EmissionDynamic(code: Code, orig: Blocks, l: Layout, b: Pc)
    requires WellFormed(code) && GoodBlocks(code, orig) && Headed(code, orig, l) && b in l.chains
    requires DynamicEnds(code, orig, l.chains[b])
    ensures DynamicLast(code, Emission(code, orig, l).blocks[b])
  {
    ChainIsCode(code, orig, l.chains[b]);
    ChainDynamic(code, orig, l.chains[b]);
  }

  /** Block j of a chain ends where its body, as emitted, says. */
  lemma EmittedBoundary(code: Code, orig: Blocks, chain: seq<Pc>, j: nat) returns (i: nat)
    requires WellFormed(code) && GoodBlocks(code, orig) && AllIn(orig, chain) && j < |chain|
    ensures Boundary(orig, chain, Lifted(code, RangesOf(orig, chain)), j, i)
  {
    i := BoundaryOf(code, orig, chain, j);
    ChainIsCode(code, orig, chain);
  }

  lemma ChainLinked(code: Code, orig: Blocks, chain: seq<Pc>)
    requires WellFormed(code) && GoodBlocks(code, orig) && AllIn(orig, chain) && chain != []
    requires FaithfulBody(code, chain[0], Lifted(code, RangesOf(orig, chain)))
    ensures Linked(code, orig, chain)
  {
    var body := Lifted(code, RangesOf(orig, chain));
    forall j | 0 <= j < |chain|
      ensures chain[j] in orig && orig[chain[j]].lastPc in code
      ensures j < |chain| - 1 ==> Continues(code, orig[chain[j]].lastPc, chain[j + 1])
    {
      var i := EmittedBoundary(code, orig, chain, j);
      if j < |chain| - 1 {
        assert Continues(code, body[i].pc, body[i + 1].pc);
      }
    }
  }

  lemma BoundaryLeaves(code: Code, orig: Blocks, chain: seq<Pc>, body: seq<IrInsn>, j: nat, i: nat, q: Pc)
    requires Boundary(orig, chain, body, j, i) && orig[chain[j]].lastPc in code && LeavesChain(code, orig, chain, j, q)
    ensures body[i].pc == orig[chain[j]].lastPc && Leaves(code, body, i, q)
  {
  }

  lemma ChainExit(code: Code, succs: Edges, orig: Blocks, em: Emitted, b: Pc, chain: seq<Pc>, j: nat, q: Pc)
    requires WellFormed(code) && GoodBlocks(code, orig) && AllIn(orig, chain) && j < |chain|
    requires FaithfulEmission(code, succs, em) && b in em.blocks && em.blocks[b] == Lifted(code, RangesOf(orig, chain))
    requires orig[chain[j]].lastPc in code && LeavesChain(code, orig, chain, j, q)
    requires q in code && q in Lookup(succs, orig[chain[j]].lastPc)
    ensures q in em.blocks
  {
    var i := EmittedBoundary(code, orig, chain, j);
    BoundaryLeaves(code, orig, chain, em.blocks[b], j, i, q);
  }

  lemma ChainExits(code: Code, succs: Edges, orig: Blocks, l: Layout, b: Pc, j: nat)
    requires WellFormed(code) && GoodBlocks(code, orig) && Chained(orig, l) && LinkedChains(code, orig, l)
    requires FaithfulEmission(code, succs, Emission(code, orig, l)) && b in l.chains && j < |l.chains[b]|
    ensures ExitsCovered(code, succs, orig, l, b, j)
  {
    forall q | q in code && q in Lookup(succs, orig[l.chains[b][j]].lastPc) && LeavesChain(code, orig, l.chains[b], j, q)
      ensures q in l.chains
    {
      ChainExit(code, succs, orig, Emission(code, orig, l), b, l.chains[b], j, q);
    }
  }

  lemma EmissionLinked(code: Code, succs: Edges, orig: Blocks, l: Layout)
    requires WellFormed(code) && GoodBlocks(code, orig) && Headed(code, orig, l)
    requires FaithfulEmission(code, succs, Emission(code, orig, l))
    ensures LinkedChains(code, orig, l)
  {
    forall b | b in l.chains
      ensures Linked(code, orig, l.chains[b])
    {
      assert FaithfulBody(code, b, Emission(code, orig, l).blocks[b]);
      ChainLinked(code, orig, l.chains[b]);
    }
  }

  lemma EmissionFaithful(code: Code, succs: Edges, orig: Blocks, l: Layout)
    requires WellFormed(code) && GoodBlocks(code, orig) && Headed(code, orig, l)
    requires FaithfulEmission(code, succs, Emission(code, orig, l)) && l.absorbed.Values <= l.chains.Keys
    ensures Faithful(code, succs, orig, l)
  {
    EmissionLinked(code, succs, orig, l);
    forall b, j | b in l.chains && 0 <= j < |l.chains[b]|
      ensures ExitsCovered(code, succs, orig, l, b, j)
    {
      ChainExits(code, succs, orig, l, b, j);
    }
  }

  lemma EmissionIsValid(code: Code, orig: Blocks, l: Layout)
    requires Sized(code) && Chained(orig, l) && l.absorbed.Values <= l.chains.Keys
    requires CodeEmission(code, Emission(code, orig, l))
    ensures ValidEmission(Emission(code, orig, l))
  {
    var em := Emission(code, orig, l);
    forall b | b in em.blocks
      ensures em.blocks[b] != []
    {
      assert CodeBody(code, b, em.blocks[b]);
    }
    forall a | a in em.absorbed
      ensures em.absorbed[a] in em.blocks
    {
      assert em.absorbed[a] in l.absorbed.Values;
    }
  }

  lemma ValidRedirects(code: Code, orig: Blocks, l: Layout)
    requires Sized(code) && Chained(orig, l) && ValidEmission(Emission(code, orig, l))
    ensures l.absorbed.Values <= l.chains.Keys
  {
    var em := Emission(code, orig, l);
    forall v | v in l.absorbed.Values
      ensures v in l.chains
    {
      var a :| a in l.absorbed && l.absorbed[a] == v;
      assert em.absorbed[a] in em.blocks;
    }
  }

  lemma KeptIsSame(code: Code, succs: Edges, orig: Blocks, l: Layout)
    requires Sized(code) && Chained(orig, l) && KeepsRuns(code, succs, orig, l)
    requires CodeEmission(code, Emission(code, orig, l))
    ensures SameRuns(code, succs, Emission(code, orig, l))
  {
    var em := Emission(code, orig, l);
    EmissionIsValid(code, orig, l);
    forall m: Machine<int>, b, n: nat | b in em.blocks && RunRecorded(code, succs, m, Running(b, 0), n)
                                        && RunLands(code, em, m, Running(b, 0), n)
      ensures SameRun(code, em, m, b, 0, n)
    {
      assert LandsIn(code, orig, l, m, b, 0, n);
      assert KeepsRun(code, orig, l, m, b, 0, n);
    }
  }

  lemma SameIsKept(code: Code, succs: Edges, orig: Blocks, l: Layout)
    requires Sized(code) && Chained(orig, l) && SameRuns(code, succs, Emission(code, orig, l))
    ensures KeepsRuns(code, succs, orig, l)
  {
    var em := Emission(code, orig, l);
    forall m: Machine<int>, b, n: nat | b in l.chains && RunRecorded(code, succs, m, Running(b, 0), n)
                                        && LandsIn(code, orig, l, m, b, 0, n)
      ensures KeepsRun(code, orig, l, m, b, 0, n)
    {
      assert SameRun(code, em, m, b, 0, n);
    }
    ValidRedirects(code, orig, l);
  }

  /** Every recorded run is kept exactly when what recorded runs reach is right and every
      block function has its slot. */
  lemma RunsExact(code: Code, succs: Edges, orig: Blocks, l: Layout)
    requires WellFormed(code) && GoodBlocks(code, orig) && Headed(code, orig, l)
    ensures KeepsRuns(code, succs, orig, l) <==> LiveLayout(code, succs, orig, l) && HasSlots(code, orig, l)
  {
    EmissionIsCode(code, orig, l);
    SameRunsExact(code, succs, Emission(code, orig, l));
    if KeepsRuns(code, succs, orig, l) {
      KeptIsSame(code, succs, orig, l);
    }
    if SameRuns(code, succs, Emission(code, orig, l)) {
      SameIsKept(code, succs, orig, l);
    }
  }

  lemma FaithfulLive(code: Code, succs: Edges, orig: Blocks, l: Layout)
    requires WellFormed(code) && GoodBlocks(code, orig) && Faithful(code, succs, orig, l)
    ensures LiveLayout(code, succs, orig, l)
  {
    FaithfulLayoutEmits(code, succs, orig, l);
    FaithfulIsLive(code, succs, Emission(code, orig, l));
  }

  lemma LiveFaithful(code: Code, succs: Edges, orig: Blocks, l: Layout)
    requires WellFormed(code) && GoodBlocks(code, orig) && Headed(code, orig, l) && LiveLayout(code, succs, orig, l)
    requires InsideRecorded(code, succs, orig) && forall b | b in l.chains :: DynamicEnds(code, orig, l.chains[b])
    ensures Faithful(code, succs, orig, l)
  {
    var em := Emission(code, orig, l);
    EmissionRecorded(code, succs, orig, l);
    forall b | b in em.blocks
      ensures DynamicLast(code, em.blocks[b])
    {
      EmissionDynamic(code, orig, l, b);
    }
    VisitedFaithful(code, succs, em);
    forall v | v in l.absorbed.Values
      ensures v in l.chains
    {
      var a :| a in l.absorbed && l.absorbed[a] == v;
      assert em.absorbed[a] in em.blocks;
    }
    EmissionFaithful(code, succs, orig, l);
  }

  /** Where every instruction of a block was visited, every recorded run is kept exactly when
      the layout is faithful and every block function has its slot. */
  lemma FaithfulExact(code: Code, succs: Edges, orig: Blocks, l: Layout)
    requires WellFormed(code) && GoodBlocks(code, orig) && Headed(code, orig, l)
    requires InsideRecorded(code, succs, orig) && forall b | b in l.chains :: DynamicEnds(code, orig, l.chains[b])
    ensures KeepsRuns(code, succs, orig, l) <==> Faithful(code, succs, orig, l) && HasSlots(code, orig, l)
  {
    RunsExact(code, succs, orig, l);
    if LiveLayout(code, succs, orig, l) {
      LiveFaithful(code, succs, orig, l);
    }
    if Faithful(code, succs, orig, l) {
      FaithfulLive(code, succs, orig, l);
    }
  }
}
