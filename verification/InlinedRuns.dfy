/**
  The taken paths chosen while superblocks are formed may all be inlined, and the
  optimized program with them inlined runs like the code.
 */
module InlinedRuns {
  import opened Code
  import opened Text
  import opened Trace
  import opened Layout
  import opened Formation
  import opened Merge
  import opened Tables
  import opened TailDup
  import opened TakenInline
  import opened Superblock
  import opened Stages
  import opened BlockTables
  import opened Inlined
  import opened Exact
  import opened InlinedLive
  import opened Kept

  // ----- chains that tail duplication has grown -----

  /** Blocks nothing was redirected to own continuations only if those end in a fall-through. */
  ghost predicate GrownFalls(code: Code, orig: Blocks, t: Tables) {
    forall b | HasStart(t.blocks, b) && b !in t.absorbed.Values && ContinuationsOf(t.continuations, b) != [] ::
      EndsFalling(code, orig, ChainOf(t.continuations, b))
  }

  ghost predicate EndsFalling(code: Code, orig: Blocks, chain: seq<Pc>) {
    && chain != [] && chain[|chain| - 1] in orig
    && orig[chain[|chain| - 1]].lastPc in code && code[orig[chain[|chain| - 1]].lastPc].term.Fall?
  }

  lemma GrownByCopies(s: Pass, b: Pc)
    requires b !in s.after.absorbed.Values && ContinuationsOf(s.after.continuations, b) != []
    ensures s.OldChain(b) == [b] && s.Copies(b) != [] && s.NewChain(b) == [b] + s.Copies(b)
  {
    if b in s.before.continuations {
      TargetsStay(s, b);
    }
    assert s.OldChain(b) == [b];
    DuplicatedChain(s, b);
    assert |s.NewChain(b)| > 1;
  }

  lemma LastCopyFalls(s: Pass, b: Pc)
    requires s.Safe() && s.Copies(b) != []
    ensures EndsFalling(s.cx.code, s.orig, [b] + s.Copies(b))
  {
    var d := s.Copies(b)[|s.Copies(b)| - 1];
    CopyFalls(s, b, d);
    LastOfBoth([b], s.Copies(b));
  }

  lemma CopyFalls(s: Pass, b: Pc, d: Pc)
    requires s.Safe() && d in s.Copies(b)
    ensures d in s.orig && s.orig[d].lastPc in s.cx.code && s.cx.code[s.orig[d].lastPc].term.Fall?
  {
    CopyFacts(s, b, d);
    DuplicateFalls(s, d);
  }

  lemma LastOfBoth(a: seq<Pc>, b: seq<Pc>)
    requires b != []
    ensures (a + b)[|a + b| - 1] == b[|b| - 1]
  {
  }

  lemma CopiesFall(s: Pass)
    requires s.Safe()
    ensures GrownFalls(s.cx.code, s.orig, s.after)
  {
    forall b: Pc | HasStart(s.after.blocks, b) && b !in s.after.absorbed.Values && ContinuationsOf(s.after.continuations, b) != []
      ensures EndsFalling(s.cx.code, s.orig, s.NewChain(b))
    {
      GrownByCopies(s, b);
      LastCopyFalls(s, b);
    }
  }

  // ----- every chosen target may be inlined -----

  /** The block whose branch is at p. */
  lemma ChosenIndex(cx: Context, blocks: seq<BasicBlock>, targets: set<Pc>, inlines: Inlines, p: Pc) returns (b: Pc)
    requires DistinctStarts(blocks) && GoodInlines(cx, blocks, targets, inlines) && p in inlines
    ensures HasStart(blocks, b) && b !in targets && BlockAt(blocks, b).lastPc == p
    ensures p in cx.code && BranchesTo(cx.code, p, inlines[p].0) && InlineTarget(cx, blocks, targets, inlines[p].0)
  {
    assert InlinedAt(cx, blocks, targets, p, inlines[p]);
    var i :| 0 <= i < |blocks| && blocks[i].lastPc == p && MayInline(cx, blocks, targets, blocks[i])
             && inlines[p].0 == cx.code[p].term.taken && inlines[p].1 == BlockAt(blocks, inlines[p].0).end;
    b := blocks[i].start;
    assert HasStart(blocks, b) && BlockAt(blocks, b) == blocks[i];
  }

  lemma ChosenBranch(s: SuperPass, inlines: Inlines, p: Pc) returns (b: Pc)
    requires GoodInlines(s.cx, s.before.blocks, s.before.absorbed.Values, inlines) && p in inlines
    ensures b in s.orig && p == s.orig[b].lastPc && p in s.cx.code && BranchesTo(s.cx.code, p, inlines[p].0)
    ensures HasStart(s.before.blocks, b) && s.OldChain(b) == [b]
    ensures InlineTarget(s.cx, s.before.blocks, s.before.absorbed.Values, inlines[p].0) && inlines[p].0 in s.cx.code
  {
    b := ChosenIndex(s.cx, s.before.blocks, s.before.absorbed.Values, inlines, p);
    OwnLast(s, b);
    OwnLast(s, inlines[p].0);
  }

  /** The target of a chosen branch is not absorbed if the branch is recorded: a chain runs
      into its members. */
  lemma TargetSurvives(s: SuperPass, inlines: Inlines, p: Pc)
    requires GoodInlines(s.cx, s.before.blocks, s.before.absorbed.Values, inlines) && p in inlines && s.Safe()
    requires inlines[p].0 in Lookup(s.succs, p)
    ensures HasStart(s.after.blocks, inlines[p].0)
  {
    var t := inlines[p].0;
    var b := ChosenBranch(s, inlines, p);
    KeptHead(s, t);
    BranchTargetKept(s, b, t);
  }

  /** Its chain does not end in a branch. */
  lemma TargetEnds(s: SuperPass, inlines: Inlines, p: Pc)
    requires GoodInlines(s.cx, s.before.blocks, s.before.absorbed.Values, inlines) && p in inlines
    requires GrownFalls(s.cx.code, s.orig, s.before)
    ensures var chain := s.NewChain(inlines[p].0);
            && chain[|chain| - 1] in s.orig && s.orig[chain[|chain| - 1]].lastPc in s.cx.code
            && !s.cx.code[s.orig[chain[|chain| - 1]].lastPc].term.Branch?
  {
    var t := inlines[p].0;
    var b := ChosenBranch(s, inlines, p);
    OwnLast(s, t);
    GrownTo(s, t);
    if t in s.plan {
      HeadAlone(s, t);
    }
    if ContinuationsOf(s.before.continuations, t) == [] {
      assert s.OldChain(t) == [t];
    } else {
      assert EndsFalling(s.cx.code, s.orig, s.OldChain(t));
    }
  }

  /** The address a chain ends in. */
  ghost function EndOf(orig: Blocks, chain: seq<Pc>): Pc
    requires chain != [] && chain[|chain| - 1] in orig
  {
    orig[chain[|chain| - 1]].lastPc
  }

  ghost predicate EndsInBranch(code: Code, orig: Blocks, chain: seq<Pc>)
    requires chain != [] && chain[|chain| - 1] in orig
  {
    EndOf(orig, chain) in code && code[EndOf(orig, chain)].term.Branch?
  }

  /** If chain b ends in a branch with an inlined target, that is the target of the branch,
      and if it is recorded a block function that does not end in a branch. */
  ghost predicate ServedChain(code: Code, succs: Edges, orig: Blocks, l: Layout, inlines: Inlines, b: Pc)
    requires Chained(orig, l) && b in l.chains
  {
    EndsInBranch(code, orig, l.chains[b]) && EndOf(orig, l.chains[b]) in inlines ==>
      var p, t := EndOf(orig, l.chains[b]), inlines[EndOf(orig, l.chains[b])].0;
      && BranchesTo(code, p, t) && t in code
      && (t in Lookup(succs, p) ==> t in l.chains && !EndsInBranch(code, orig, l.chains[t]))
  }

  /** What a chosen branch at p leads to. */
  lemma ChosenServed(s: SuperPass, inlines: Inlines, p: Pc)
    requires s.Safe() && GrownFalls(s.cx.code, s.orig, s.before) && p in inlines
    requires GoodInlines(s.cx, s.before.blocks, s.before.absorbed.Values, inlines)
    ensures var t := inlines[p].0;
            && p in s.cx.code && BranchesTo(s.cx.code, p, t) && t in s.cx.code
            && (t in Lookup(s.succs, p) ==>
                  HasStart(s.after.blocks, t) && s.NewChain(t)[|s.NewChain(t)| - 1] in s.orig
                  && !EndsInBranch(s.cx.code, s.orig, s.NewChain(t)))
  {
    var b := ChosenBranch(s, inlines, p);
    if inlines[p].0 in Lookup(s.succs, p) {
      TargetSurvives(s, inlines, p);
      TargetEnds(s, inlines, p);
    }
  }

  lemma ChainServed(s: SuperPass, inlines: Inlines, b: Pc)
    requires s.Safe() && GrownFalls(s.cx.code, s.orig, s.before) && Chained(s.orig, LayoutOf(s.after))
    requires GoodInlines(s.cx, s.before.blocks, s.before.absorbed.Values, inlines) && b in LayoutOf(s.after).chains
    ensures ServedChain(s.cx.code, s.succs, s.orig, LayoutOf(s.after), inlines, b)
  {
    var p := EndOf(s.orig, LayoutOf(s.after).chains[b]);
    if p in inlines {
      ChosenServed(s, inlines, p);
    }
  }

  /** The last instruction of a lifted chain. */
  lemma ShapeLast(code: Code, orig: Blocks, chain: seq<Pc>, body: seq<IrInsn>)
    requires Linked(code, orig, chain) && LiftedShape(code, orig, chain, body)
    ensures var last, p := body[|body| - 1], EndOf(orig, chain);
            && last.pc == p && last.size == code[p].size
            && (last.term.Branch? <==> EndsInBranch(code, orig, chain)) && (last.term.Branch? ==> last.term == code[p].term)
  {
    assert SameTerminator(code, body[|body| - 1]);
  }

  /** The bodies of an emission are those of the chains. */
  ghost predicate Bodies(code: Code, orig: Blocks, l: Layout, em: Emitted) {
    && ValidEmission(em) && em.blocks.Keys == l.chains.Keys && em.absorbed.Keys !! em.blocks.Keys
    && forall b | b in l.chains :: HasBody(code, orig, l, em, b)
  }

  ghost predicate HasBody(code: Code, orig: Blocks, l: Layout, em: Emitted, b: Pc) {
    && b in l.chains && b in em.blocks
    && Linked(code, orig, l.chains[b]) && LiftedShape(code, orig, l.chains[b], em.blocks[b])
  }

  lemma EmittedBody(code: Code, orig: Blocks, l: Layout, b: Pc)
    requires WellFormed(code) && GoodBlocks(code, orig) && LinkedChains(code, orig, l) && Chained(orig, l) && b in l.chains
    ensures HasBody(code, orig, l, Emission(code, orig, l), b)
  {
    ChainEmits(code, orig, l, b);
  }

  lemma ValidBodies(code: Code, succs: Edges, orig: Blocks, l: Layout, em: Emitted)
    requires Faithful(code, succs, orig, l) && FaithfulEmission(code, succs, em)
    requires em.blocks.Keys == l.chains.Keys && em.absorbed == l.absorbed
    requires forall b | b in l.chains :: HasBody(code, orig, l, em, b)
    ensures Bodies(code, orig, l, em)
  {
  }

  lemma AllBodies(code: Code, orig: Blocks, l: Layout)
    requires WellFormed(code) && GoodBlocks(code, orig) && LinkedChains(code, orig, l)
    ensures Chained(orig, l) && forall b | b in l.chains :: HasBody(code, orig, l, Emission(code, orig, l), b)
  {
    LinkedIsChained(code, orig, l);
    forall b | b in l.chains
      ensures HasBody(code, orig, l, Emission(code, orig, l), b)
    {
      EmittedBody(code, orig, l, b);
    }
  }

  lemma EmissionBodies(code: Code, succs: Edges, orig: Blocks, l: Layout)
    requires WellFormed(code) && GoodBlocks(code, orig) && Faithful(code, succs, orig, l)
    ensures Chained(orig, l) && Bodies(code, orig, l, Emission(code, orig, l))
  {
    AllBodies(code, orig, l);
    EmissionKeys(code, orig, l);
    FaithfulLayoutEmits(code, succs, orig, l);
    ValidBodies(code, succs, orig, l, Emission(code, orig, l));
  }

  /** The last instruction of a block function is that of its chain. */
  lemma BodyLast(code: Code, orig: Blocks, l: Layout, em: Emitted, b: Pc)
    requires Chained(orig, l) && Bodies(code, orig, l, em) && b in l.chains
    ensures var last, p := LastInsn(em, b), EndOf(orig, l.chains[b]);
            && last.pc == p && p in code && last.size == code[p].size
            && (last.term.Branch? <==> EndsInBranch(code, orig, l.chains[b])) && (last.term.Branch? ==> last.term == code[p].term)
  {
    assert HasBody(code, orig, l, em, b);
    ShapeLast(code, orig, l.chains[b], em.blocks[b]);
  }

  lemma BodyServed(code: Code, succs: Edges, orig: Blocks, l: Layout, em: Emitted, inlines: Inlines, b: Pc, t: Pc)
    requires PlainFalls(code) && Chained(orig, l) && Bodies(code, orig, l, em) && b in l.chains
    requires ServedChain(code, succs, orig, l, inlines, b) && InlinesAt(em, inlines, b, t)
    ensures FallServed(em, inlines, b) && LastInsn(em, b).term.taken in code
    ensures LastInsn(em, b).term.taken in Lookup(succs, LastInsn(em, b).pc) ==> TakenServed(em, inlines, b)
  {
    BodyLast(code, orig, l, em, b);
    assert PlainFall(code, LastInsn(em, b).pc);
    if t in Lookup(succs, LastInsn(em, b).pc) {
      BodyLast(code, orig, l, em, t);
    }
  }

  /** Every chosen target may be inlined as far as recorded runs go. */
  lemma AllServed(s: SuperPass, inlines: Inlines, em: Emitted)
    requires PlainFalls(s.cx.code) && s.Safe() && GrownFalls(s.cx.code, s.orig, s.before)
    requires GoodInlines(s.cx, s.before.blocks, s.before.absorbed.Values, inlines)
    requires Chained(s.orig, LayoutOf(s.after)) && Bodies(s.cx.code, s.orig, LayoutOf(s.after), em)
    ensures ServedOn(s.cx.code, s.succs, em, inlines)
  {
    var l := LayoutOf(s.after);
    forall b, t | InlinesAt(em, inlines, b, t)
      ensures FallServed(em, inlines, b) && LastInsn(em, b).term.taken in s.cx.code
      ensures LastInsn(em, b).term.taken in Lookup(s.succs, LastInsn(em, b).pc) ==> TakenServed(em, inlines, b)
    {
      ChainServed(s, inlines, b);
      BodyServed(s.cx.code, s.succs, s.orig, l, em, inlines, b, t);
    }
  }

  // ----- the whole optimization -----

  /** The passes as the lemmas about them see them. */
  lemma OptimizedPasses(run: Optimization, succs: Edges, after: Tables)
    requires Analysed(run.g.cx, succs, run.g.blocks)
    requires run.Computes(succs, ByStart(run.g.blocks), FreshTables(run.g.blocks), after)
    requires run.Safe(succs, ByStart(run.g.blocks))
    ensures var d := run.TailDuplication(succs, ByStart(run.g.blocks)); d.Ready() && d.Computes() && d.Safe()
    ensures var f := run.Superblocks(succs, ByStart(run.g.blocks)); f.Ready() && f.Grows() && f.Safe()
  {
    GoodIsSound(run.g.cx.code, ByStart(run.g.blocks));
    MergeStage(run.g, succs, run.chains, run.merged);
    TailStage(run.TailDuplication(succs, ByStart(run.g.blocks)));
    ComputesGrows(run.Superblocks(succs, ByStart(run.g.blocks)));
  }

  /** The table after the passes, as the lemmas about inlined branches see it. */
  lemma OptimizedBodies(run: Optimization, succs: Edges, after: Tables)
    requires Analysed(run.g.cx, succs, run.g.blocks)
    requires run.Computes(succs, ByStart(run.g.blocks), FreshTables(run.g.blocks), after)
    requires run.Safe(succs, ByStart(run.g.blocks))
    ensures after == run.formed && LiveLayout(run.g.cx.code, succs, ByStart(run.g.blocks), LayoutOf(after))
    ensures Bodies(run.g.cx.code, ByStart(run.g.blocks), LayoutOf(after),
                   Emission(run.g.cx.code, ByStart(run.g.blocks), LayoutOf(after)))
  {
    OptimizeIsFaithful(run, succs, after);
    EmissionBodies(run.g.cx.code, succs, ByStart(run.g.blocks), LayoutOf(after));
    FaithfulLive(run.g.cx.code, succs, ByStart(run.g.blocks), LayoutOf(after));
  }

  /** Safe passes leave inlined branches that lead right. */
  lemma OptimizedBranches(run: Optimization, succs: Edges, after: Tables)
    requires Analysed(run.g.cx, succs, run.g.blocks)
    requires run.Computes(succs, ByStart(run.g.blocks), FreshTables(run.g.blocks), after)
    requires run.Safe(succs, ByStart(run.g.blocks))
    ensures LiveLayout(run.g.cx.code, succs, ByStart(run.g.blocks), LayoutOf(after))
    ensures LiveBranches(run.g.cx.code, succs, ByStart(run.g.blocks), LayoutOf(after), run.inlines)
  {
    var code, orig := run.g.cx.code, ByStart(run.g.blocks);
    OptimizedPasses(run, succs, after);
    OptimizedBodies(run, succs, after);
    CopiesFall(run.TailDuplication(succs, orig));
    AllServed(run.Superblocks(succs, orig), run.inlines, Emission(code, orig, LayoutOf(after)));
    ServedLive(code, succs, Emission(code, orig, LayoutOf(after)), run.inlines);
  }

  /** The whole optimization with its taken paths inlined, repair included, keeps every
      recorded run exactly when what those runs reach in the repaired tables is right,
      inlined branches included, and every block function has its slot. Safe passes over an
      analysed table make it right. */
  lemma OptimizeInlinedExact(run: Optimization, succs: Edges, after: Tables)
    requires WellFormed(run.g.cx.code) && GoodBlocks(run.g.cx.code, ByStart(run.g.blocks))
    requires run.Computes(succs, ByStart(run.g.blocks), FreshTables(run.g.blocks), after)
    ensures KeepsInlinedRuns(run.g.cx.code, succs, ByStart(run.g.blocks), LayoutOf(after), run.inlines) <==>
            LiveLayout(run.g.cx.code, succs, ByStart(run.g.blocks), LayoutOf(after))
            && HasSlots(run.g.cx.code, ByStart(run.g.blocks), LayoutOf(after))
            && LiveBranches(run.g.cx.code, succs, ByStart(run.g.blocks), LayoutOf(after), run.inlines)
    ensures Analysed(run.g.cx, succs, run.g.blocks) && run.Safe(succs, ByStart(run.g.blocks)) ==>
            LiveLayout(run.g.cx.code, succs, ByStart(run.g.blocks), LayoutOf(after))
            && LiveBranches(run.g.cx.code, succs, ByStart(run.g.blocks), LayoutOf(after), run.inlines)
  {
    OptimizedHeaded(run, succs, after);
    InlinedRunsExact(run.g.cx.code, succs, ByStart(run.g.blocks), LayoutOf(after), run.inlines);
    if Analysed(run.g.cx, succs, run.g.blocks) && run.Safe(succs, ByStart(run.g.blocks)) {
      OptimizedBranches(run, succs, after);
    }
  }

  /** The whole optimization: from an entry point, a recorded run executes the same
      instructions with the same states through the optimized block functions, with the
      chosen taken paths inlined, if what recorded runs reach is right and the block
      functions have their slots, exactly when its computed jumps off the code find traps. */
  lemma OptimizeKeepsInlinedRuns<S(!new)>(run: Optimization, succs: Edges, after: Tables, m: Machine<S>, e: Pc, s: S, n: nat)
    requires PlainFalls(run.g.cx.code)
    requires run.Computes(succs, ByStart(run.g.blocks), FreshTables(run.g.blocks), after)
    requires || (Analysed(run.g.cx, succs, run.g.blocks) && run.Safe(succs, ByStart(run.g.blocks)))
             || (LiveLayout(run.g.cx.code, succs, ByStart(run.g.blocks), LayoutOf(after))
                 && LiveBranches(run.g.cx.code, succs, ByStart(run.g.blocks), LayoutOf(after), run.inlines))
    requires HasSlots(run.g.cx.code, ByStart(run.g.blocks), LayoutOf(after))
    requires e in run.g.cx.entries && HasStart(run.g.blocks, e)
    requires RunRecorded(run.g.cx.code, succs, m, Running(e, s), n)
    ensures KeepsInlinedRun(run.g.cx.code, ByStart(run.g.blocks), LayoutOf(after), run.inlines, m, e, s, n) <==>
            LandsIn(run.g.cx.code, ByStart(run.g.blocks), LayoutOf(after), m, e, s, n)
  {
    if Analysed(run.g.cx, succs, run.g.blocks) && run.Safe(succs, ByStart(run.g.blocks)) {
      OptimizedBranches(run, succs, after);
    }
    EntryKept(run, succs, ByStart(run.g.blocks), FreshTables(run.g.blocks), after, e);
    LiveLayoutInlined(run.g.cx.code, succs, ByStart(run.g.blocks), LayoutOf(after), run.inlines, m, e, s, n);
  }
}
