/**
  From the analysis of a table to the runs of its optimized block functions.
 */
module EndToEnd {
  import opened Code
  import opened Text
  import opened Trace
  import opened Layout
  import opened Formation
  import opened Merge
  import opened Tables
  import opened TailDup
  import opened Stages
  import opened BlockTables
  import opened Values
  import opened Registers
  import opened Analysis
  import opened Graph
  import opened Exact
  import opened InlinedLive
  import opened InlinedRuns

  /** The machine runs the table's instructions on the registers it shows. */
  ghost predicate ConformsAt<S>(t: Setup, m: Machine<S>, view: S -> Regs, p: Word, s: S)
    requires WellEncoded(t) && p in t.slots
  {
    var d := t.slots[p].decoded;
    && (exists w :: Computes(t, p, t.slots[p].size, d, view(s), w) && view(m.effect(p, s)) == Write(view(s), d.rd, w))
    && (d.kind.Jalr? ==> m.dynamic(p, s) == ClearLow(AddSigned(view(s)[d.rs1.value], d.imm)))
  }

  ghost predicate Conforms<S(!new)>(t: Setup, m: Machine<S>, view: S -> Regs)
    requires WellEncoded(t)
  {
    forall p, s | p in t.slots :: ConformsAt(t, m, view, p, s)
  }

  lemma StepConforms<S(!new)>(t: Setup, code: Code, m: Machine<S>, view: S -> Regs, p: Word, s: S, q: Pc, s': S)
    requires WellEncoded(t) && Conforms(t, m, view) && Agrees(t, code) && PlainFalls(code)
    requires p in code && Step(code, m, Running(p, s)) == Running(q, s')
    ensures q in t.slots && Steps(t, p, view(s), q, view(s'))
  {
    assert ConformsAt(t, m, view, p, s) && PlainFall(code, p);
    assert q in code && p + code[p].size < WORD;
  }

  /** The next n instructions are within the analyser's limits. */
  ghost predicate TractableRun<S>(t: Setup, code: Code, m: Machine<S>, facts: map<Word, Facts>, c: Config<S>, n: nat)
    requires WellEncoded(t)
    decreases n
  {
    n == 0 || c.Halted? || ((c.pc < WORD ==> Tractable(t, facts, c.pc)) && TractableRun(t, code, m, facts, Step(code, m, c), n - 1))
  }

  /** The machine stands at an instruction whose facts its registers meet. */
  ghost predicate Within<S>(code: Code, facts: map<Word, Facts>, view: S -> Regs, c: Config<S>) {
    c.Running? ==> c.pc in code && c.pc in facts && InFacts(facts[c.pc], view(c.state))
  }

  /** An analysed table and a machine that runs its instructions. */
  ghost predicate Setting<S(!new)>(t: Setup, code: Code, facts: map<Word, Facts>, succs: map<Word, set<Word>>,
                                   m: Machine<S>, view: S -> Regs)
  {
    WellEncoded(t) && Agrees(t, code) && PlainFalls(code) && Conforms(t, m, view) && PostFixpoint(t, facts, succs)
  }

  /** The machine stands within the facts and has n tractable steps to go. */
  ghost predicate OnTrack<S>(t: Setup, code: Code, facts: map<Word, Facts>, m: Machine<S>, view: S -> Regs, c: Config<S>, n: int) {
    n >= 0 && WellEncoded(t) && Within(code, facts, view, c) && TractableRun(t, code, m, facts, c, n)
  }

  /** One step of a tractable run is recorded and stays within the facts. */
  lemma StepRecorded<S(!new)>(t: Setup, code: Code, facts: map<Word, Facts>, succs: map<Word, set<Word>>,
                              m: Machine<S>, view: S -> Regs, c: Config<S>, n: int)
    requires Setting(t, code, facts, succs, m, view) && c.Running? && n > 0 && OnTrack(t, code, facts, m, view, c, n)
    ensures OnTrack(t, code, facts, m, view, Step(code, m, c), n - 1) && StepOnEdge(code, succs, m, c)
  {
    var d := Step(code, m, c);
    if d.Running? {
      assert Settled(t, facts, succs, c.pc) && Tractable(t, facts, c.pc);
      StepConforms(t, code, m, view, c.pc, c.state, d.pc, d.state);
      StepSound(t, facts, succs, c.pc, view(c.state), d.pc, view(d.state));
    }
  }

  /** Every step of a tractable run is recorded and stays within the facts. */
  ghost predicate KeepsTrack<S(!new)>(t: Setup, code: Code, facts: map<Word, Facts>, succs: map<Word, set<Word>>,
                                      m: Machine<S>, view: S -> Regs)
  {
    forall c: Config<S>, n: int | OnTrack(t, code, facts, m, view, c, n) && c.Running? && n > 0 ::
      OnTrack(t, code, facts, m, view, Step(code, m, c), n - 1) && StepOnEdge(code, succs, m, c)
  }

  lemma AlwaysTracked<S(!new)>(t: Setup, code: Code, facts: map<Word, Facts>, succs: map<Word, set<Word>>,
                               m: Machine<S>, view: S -> Regs)
    requires Setting(t, code, facts, succs, m, view)
    ensures KeepsTrack(t, code, facts, succs, m, view)
  {
    forall c: Config<S>, n: int | OnTrack(t, code, facts, m, view, c, n) && c.Running? && n > 0
      ensures OnTrack(t, code, facts, m, view, Step(code, m, c), n - 1) && StepOnEdge(code, succs, m, c)
    {
      StepRecorded(t, code, facts, succs, m, view, c, n);
    }
  }

  lemma {:induction false} TrackRecorded<S(!new)>(t: Setup, code: Code, facts: map<Word, Facts>, succs: map<Word, set<Word>>,
                                                  m: Machine<S>, view: S -> Regs, c: Config<S>, n: nat)
    requires KeepsTrack(t, code, facts, succs, m, view) && OnTrack(t, code, facts, m, view, c, n)
    ensures RunRecorded(code, succs, m, c, n)
    decreases n
  {
    if n > 0 && c.Running? {
      TrackRecorded(t, code, facts, succs, m, view, Step(code, m, c), n - 1);
    }
  }

  /** The analyser records every transfer of a tractable run. */
  lemma AnalysisRecordsRuns<S(!new)>(t: Setup, code: Code, facts: map<Word, Facts>, succs: map<Word, set<Word>>,
                                     m: Machine<S>, view: S -> Regs, c: Config<S>, n: nat)
    requires Setting(t, code, facts, succs, m, view) && OnTrack(t, code, facts, m, view, c, n)
    ensures RunRecorded(code, succs, m, c, n)
  {
    AlwaysTracked(t, code, facts, succs, m, view);
    TrackRecorded(t, code, facts, succs, m, view, c, n);
  }

  lemma EntryRecorded<S(!new)>(t: Setup, code: Code, facts: map<Word, Facts>, succs: map<Word, set<Word>>,
                               m: Machine<S>, view: S -> Regs, e: Word, s: S, n: nat)
    requires WellEncoded(t) && Agrees(t, code) && WellFormed(code) && Conforms(t, m, view)
    requires PostFixpoint(t, facts, succs) && TractableRun(t, code, m, facts, Running(e, s), n)
    requires e in code && e in t.functionEntries
    ensures RunRecorded(code, succs, m, Running(e, s), n)
  {
    NothingKnownHolds(view(s));
    BelowKeeps(NothingKnown(), facts[e], view(s));
    AnalysisRecordsRuns(t, code, facts, succs, m, view, Running(e, s), n);
  }

  /** What the analyser hands to the block table. */
  ghost predicate AnalysisOf(t: Setup, code: Code, facts: map<Word, Facts>, succs: map<Word, set<Word>>,
                             leaders: set<Word>, preds: Edges)
  {
    && WellEncoded(t) && Agrees(t, code) && WellFormed(code) && PostFixpoint(t, facts, succs)
    && (forall q :: q in leaders <==> IsLeader(t, succs, q))
    && Transposes(succs, preds)
  }

  lemma TransposeRecords(succs: Edges, preds: Edges)
    requires Transposes(succs, preds)
    ensures Recorded(succs, preds)
  {
    forall p, q | p in succs && q in succs[p]
      ensures q in preds && p in preds[q]
    {
      assert q in Lookup(succs, p);
      assert p in Lookup(preds, q);
    }
  }

  /** A straight line whose first instruction was visited was visited to its end. */
  lemma {:induction false} LineVisited(t: Setup, code: Code, facts: map<Word, Facts>, succs: map<Word, set<Word>>,
                                       lo: Pc, last: Pc, hi: Pc, p: Pc)
    requires WellEncoded(t) && Agrees(t, code) && WellFormed(code) && PostFixpoint(t, facts, succs)
    requires StraightLine(code, lo, last, hi) && lo in facts && p in code && lo <= p < hi
    ensures p in facts
    decreases hi - lo
  {
    if lo != p {
      assert Clear(code, lo);
      assert Settled(t, facts, succs, lo) && PlainFall(code, lo);
      LastInCode(code, NextPc(code, lo), last, hi);
      StaticEdgesRecorded(t, code, facts, succs, lo, NextPc(code, lo));
      LineVisited(t, code, facts, succs, NextPc(code, lo), last, hi, p);
    }
  }

  /** Visited blocks have the static successors of all their instructions recorded. */
  lemma VisitedInside(t: Setup, code: Code, facts: map<Word, Facts>, succs: map<Word, set<Word>>, orig: Blocks)
    requires WellEncoded(t) && Agrees(t, code) && WellFormed(code) && PostFixpoint(t, facts, succs)
    requires GoodBlocks(code, orig) && forall b | b in orig :: b in facts
    ensures InsideRecorded(code, succs, orig) && StaticRecorded(code, succs, orig)
  {
    forall b, p, q | b in orig && b <= p < orig[b].end && p in code && q in code && StaticSuccessor(code, p, q)
      ensures q in Lookup(succs, p)
    {
      LineVisited(t, code, facts, succs, b, orig[b].lastPc, orig[b].end, p);
      assert Settled(t, facts, succs, p);
      StaticEdgesRecorded(t, code, facts, succs, p, q);
    }
    GoodIsSound(code, orig);
    forall b | b in orig
      ensures b <= orig[b].lastPc < orig[b].end
    {
      LastInCode(code, b, orig[b].lastPc, orig[b].end);
    }
  }

  /** The analyser's output makes a block table ready for the passes. */
  lemma AnalysisReady(t: Setup, code: Code, facts: map<Word, Facts>, succs: map<Word, set<Word>>, leaders: set<Word>,
                      preds: Edges, entries: set<Pc>, blocks: seq<BasicBlock>)
    requires AnalysisOf(t, code, facts, succs, leaders, preds)
    requires FormedBlocks(code, leaders, blocks) && LeadersAligned(code, leaders, blocks)
    ensures Analysed(Context(code, entries, preds), succs, blocks)
  {
    FormedDistinct(code, leaders, blocks);
    FormedBlocksGood(code, leaders, blocks);
    LeadersCoverEdges(t, code, succs, leaders);
    FreshEdges(code, succs, leaders, blocks);
    TransposeRecords(succs, preds);
  }

  /** From the analysis to the optimized program with its taken paths inlined: every recorded
      run is kept exactly when what those runs reach is right, inlined branches included, and
      every block function has its slot. With aligned leaders, safe passes make it right. */
  lemma CompiledExact(t: Setup, code: Code, facts: map<Word, Facts>, succs: map<Word, set<Word>>, leaders: set<Word>,
                      preds: Edges, run: Optimization, after: Tables)
    requires AnalysisOf(t, code, facts, succs, leaders, preds)
    requires run.g.cx.code == code && run.g.cx.preds == preds && FormedBlocks(code, leaders, run.g.blocks)
    requires run.Computes(succs, ByStart(run.g.blocks), FreshTables(run.g.blocks), after)
    ensures KeepsInlinedRuns(code, succs, ByStart(run.g.blocks), LayoutOf(after), run.inlines) <==>
            HasSlots(code, ByStart(run.g.blocks), LayoutOf(after)) && RightFor(code, succs, run, after)
    ensures LeadersAligned(code, leaders, run.g.blocks) && run.Safe(succs, ByStart(run.g.blocks)) ==>
            RightFor(code, succs, run, after)
  {
    FormedBlocksGood(code, leaders, run.g.blocks);
    OptimizeInlinedExact(run, succs, after);
    if LeadersAligned(code, leaders, run.g.blocks) && run.Safe(succs, ByStart(run.g.blocks)) {
      AnalysisReady(t, code, facts, succs, leaders, preds, run.g.cx.entries, run.g.blocks);
    }
  }

  /** What recorded runs reach in the optimized program is right, inlined branches included. */
  ghost predicate RightFor(code: Code, succs: Edges, run: Optimization, after: Tables) {
    && LiveLayout(code, succs, ByStart(run.g.blocks), LayoutOf(after))
    && LiveBranches(code, succs, ByStart(run.g.blocks), LayoutOf(after), run.inlines)
  }

  /** Then a tractable run from an entry point executes the same instructions with the same
      states through the block functions that the passes leave, with the chosen taken paths
      inlined, exactly when its computed jumps off the code find traps. */
  lemma CompiledRuns<S(!new)>(t: Setup, code: Code, facts: map<Word, Facts>, succs: map<Word, set<Word>>, leaders: set<Word>,
                              preds: Edges, run: Optimization, after: Tables, m: Machine<S>, view: S -> Regs,
                              e: Word, s: S, n: nat)
    requires AnalysisOf(t, code, facts, succs, leaders, preds)
    requires run.g.cx.code == code && run.g.cx.preds == preds && FormedBlocks(code, leaders, run.g.blocks)
    requires run.Computes(succs, ByStart(run.g.blocks), FreshTables(run.g.blocks), after)
    requires || (LeadersAligned(code, leaders, run.g.blocks) && run.Safe(succs, ByStart(run.g.blocks)))
             || RightFor(code, succs, run, after)
    requires HasSlots(code, ByStart(run.g.blocks), LayoutOf(after))
    requires e in code && e in t.functionEntries && e in run.g.cx.entries
    requires Conforms(t, m, view) && TractableRun(t, code, m, facts, Running(e, s), n)
    ensures KeepsInlinedRun(code, ByStart(run.g.blocks), LayoutOf(after), run.inlines, m, e, s, n) <==>
            LandsIn(code, ByStart(run.g.blocks), LayoutOf(after), m, e, s, n)
  {
    CompiledExact(t, code, facts, succs, leaders, preds, run, after);
    EntryRecorded(t, code, facts, succs, m, view, e, s, n);
    EntryIsBlock(t, code, succs, leaders, run.g.blocks, e);
    OptimizeKeepsInlinedRuns(run, succs, after, m, e, s, n);
  }

  lemma EntryIsBlock(t: Setup, code: Code, succs: map<Word, set<Word>>, leaders: set<Word>, blocks: seq<BasicBlock>, e: Word)
    requires FormedBlocks(code, leaders, blocks) && (forall q :: q in leaders <==> IsLeader(t, succs, q))
    requires e in code && e in t.functionEntries
    ensures HasStart(blocks, e)
  {
    assert IsLeader(t, succs, e);
  }
}
