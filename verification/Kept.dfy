/**
  When block formation and the passes over the table keep every recorded run.
 */
module Kept {
  import opened Code
  import opened Layout
  import opened Formation
  import opened Merge
  import opened Tables
  import opened TailDup
  import opened Superblock
  import opened Stages
  import opened Stale
  import opened BlockTables
  import opened Exact

  lemma TablesHeaded(code: Code, orig: Blocks, t: Tables)
    requires WholeBlocks(orig, t.continuations) && KeysGone(t) && t.absorbed.Keys <= code.Keys
    requires forall b | HasStart(t.blocks, b) :: b in orig
    ensures Headed(code, orig, LayoutOf(t))
  {
    var l := LayoutOf(t);
    forall b | b in l.chains
      ensures AllIn(orig, l.chains[b])
    {
      assert HasStart(t.blocks, b);
    }
  }

  lemma FaithfulKeysGone(code: Code, succs: Edges, orig: Blocks, t: Tables)
    requires Faithful(code, succs, orig, LayoutOf(t))
    ensures KeysGone(t) && t.absorbed.Keys <= code.Keys
  {
    forall a | a in t.absorbed
      ensures !HasStart(t.blocks, a)
    {
      FaithfulRedirect(code, succs, orig, t, a);
    }
  }

  lemma FaithfulHeaded(code: Code, succs: Edges, orig: Blocks, l: Layout)
    requires Faithful(code, succs, orig, l)
    ensures Headed(code, orig, l)
  {
    LinkedIsChained(code, orig, l);
  }

  /** A faithful layout keeps every recorded run exactly when its block functions have
      their slots. */
  lemma FaithfulKept(code: Code, succs: Edges, orig: Blocks, l: Layout)
    requires WellFormed(code) && GoodBlocks(code, orig) && Faithful(code, succs, orig, l)
    ensures KeepsRuns(code, succs, orig, l) <==> HasSlots(code, orig, l)
  {
    FaithfulHeaded(code, succs, orig, l);
    FaithfulLive(code, succs, orig, l);
    RunsExact(code, succs, orig, l);
  }

  /** A linked chain has computed jumps at its end only. */
  lemma LinkedDynamic(code: Code, orig: Blocks, chain: seq<Pc>)
    requires Linked(code, orig, chain)
    ensures DynamicEnds(code, orig, chain)
  {
    forall j | 0 <= j < |chain| - 1
      ensures !EndsDynamic(code, orig, chain[j])
    {
      assert Continues(code, orig[chain[j]].lastPc, chain[j + 1]);
    }
  }

  lemma InsideIsStatic(code: Code, succs: Edges, orig: Blocks)
    requires WellFormed(code) && GoodBlocks(code, orig) && InsideRecorded(code, succs, orig)
    ensures StaticRecorded(code, succs, orig)
  {
    forall b | b in orig
      ensures RecordedAt(code, succs, orig[b].lastPc)
    {
      assert GoodBlock(code, orig[b]);
      LastInCode(code, orig[b].start, orig[b].lastPc, orig[b].end);
    }
  }

  // ----- merging -----

  /** Merging keeps every recorded run exactly when the merged block functions have their slots. */
  lemma MergeKeepsRuns(g: GreedyChoice, succs: Edges, chains: map<Pc, seq<Pc>>, t: Tables)
    requires WellFormed(g.cx.code) && GoodBlocks(g.cx.code, ByStart(g.blocks))
    requires EdgesReachBlocks(g.cx.code, succs, ByStart(g.blocks)) && Recorded(succs, g.cx.preds)
    requires AllChains(g.cx, ByStart(g.blocks), g.absorbed, chains) && MergedTables(ByStart(g.blocks), chains, t)
    ensures KeepsRuns(g.cx.code, succs, ByStart(g.blocks), LayoutOf(t)) <==>
            HasSlots(g.cx.code, ByStart(g.blocks), LayoutOf(t))
  {
    MergedFaithful(g, succs, chains, t);
    FaithfulKept(g.cx.code, succs, ByStart(g.blocks), LayoutOf(t));
  }

  // ----- tail duplication -----

  lemma DuplicatedHeaded(s: Pass)
    ensures Headed(s.cx.code, s.orig, LayoutOf(s.after))
  {
    FaithfulKeysGone(s.cx.code, s.succs, s.orig, s.before);
    DuplicatedKeysGone(s);
    KeptStarts(s.before.blocks, s.dups, s.after.blocks);
    forall a | a in s.after.absorbed
      ensures a in s.cx.code
    {
      assert a in s.before.absorbed || a in s.dups;
    }
    TablesHeaded(s.cx.code, s.orig, s.after);
  }

  /** A duplicated block does not end in a computed jump. */
  lemma DuplicateStatic(s: Pass, d: Pc)
    requires d in s.dups
    ensures !EndsDynamic(s.cx.code, s.orig, d)
  {
    if d in s.before.continuations {
      assert s.IsCandidate(d);
      FaithfulLinked(s.cx.code, s.succs, s.orig, s.before, d);
      assert s.OldChain(d)[0] == d;
      assert Continues(s.cx.code, s.orig[s.OldChain(d)[0]].lastPc, s.OldChain(d)[1]);
    } else {
      DuplicateFalls(s, d);
    }
  }

  /** Nor does the end of a chain that receives a copy. */
  lemma ReceiverStatic(s: Pass, i: nat, d: Pc)
    requires i < |s.before.blocks| && d in s.Copies(s.before.blocks[i].start)
    ensures var chain := s.OldChain(s.before.blocks[i].start); !EndsDynamic(s.cx.code, s.orig, chain[|chain| - 1])
  {
    CopyFacts(s, s.before.blocks[i].start, d);
    var k := ReceiverSurvives(s, d, s.before.blocks[i].start);
    assert k == i;
    assert EndsChain(s.orig, s.before.continuations, s.before.blocks[i]);
  }

  lemma AppendDynamic(code: Code, orig: Blocks, chain: seq<Pc>, more: seq<Pc>)
    requires chain != [] && DynamicEnds(code, orig, chain) && (more != [] ==> !EndsDynamic(code, orig, chain[|chain| - 1]))
    requires forall d | d in more :: !EndsDynamic(code, orig, d)
    ensures DynamicEnds(code, orig, chain + more)
  {
    var all := chain + more;
    forall j | 0 <= j < |all| - 1
      ensures !EndsDynamic(code, orig, all[j])
    {
      if j >= |chain| {
        assert all[j] in more;
      }
    }
  }

  lemma DuplicatedDynamic(s: Pass, i: nat)
    requires i < |s.before.blocks|
    ensures DynamicEnds(s.cx.code, s.orig, s.NewChain(s.before.blocks[i].start))
  {
    var b := s.before.blocks[i].start;
    DuplicatedChain(s, b);
    OldDynamic(s, b);
    CopiesStatic(s, b);
    if s.Copies(b) != [] {
      ReceiverEnds(s, i);
    }
    AppendDynamic(s.cx.code, s.orig, s.OldChain(b), s.Copies(b));
  }

  lemma ReceiverEnds(s: Pass, i: nat)
    requires i < |s.before.blocks| && s.Copies(s.before.blocks[i].start) != []
    ensures var chain := s.OldChain(s.before.blocks[i].start); !EndsDynamic(s.cx.code, s.orig, chain[|chain| - 1])
  {
    ReceiverStatic(s, i, s.Copies(s.before.blocks[i].start)[0]);
  }

  lemma OldDynamic(s: Pass, b: Pc)
    requires HasStart(s.before.blocks, b)
    ensures DynamicEnds(s.cx.code, s.orig, s.OldChain(b))
  {
    FaithfulLinked(s.cx.code, s.succs, s.orig, s.before, b);
    LinkedDynamic(s.cx.code, s.orig, s.OldChain(b));
  }

  lemma CopiesStatic(s: Pass, b: Pc)
    ensures forall d | d in s.Copies(b) :: !EndsDynamic(s.cx.code, s.orig, d)
  {
    forall d | d in s.Copies(b)
      ensures !EndsDynamic(s.cx.code, s.orig, d)
    {
      CopyFacts(s, b, d);
      DuplicateStatic(s, d);
    }
  }

  lemma DuplicatedAllDynamic(s: Pass)
    ensures forall b | b in LayoutOf(s.after).chains :: DynamicEnds(s.cx.code, s.orig, LayoutOf(s.after).chains[b])
  {
    forall b | HasStart(s.after.blocks, b)
      ensures DynamicEnds(s.cx.code, s.orig, ChainOf(s.after.continuations, b))
    {
      KeptDynamic(s, b);
    }
  }

  lemma KeptDynamic(s: Pass, b: Pc)
    requires HasStart(s.after.blocks, b)
    ensures DynamicEnds(s.cx.code, s.orig, ChainOf(s.after.continuations, b))
  {
    KeptBlocks(s);
    var i :| 0 <= i < |s.before.blocks| && s.before.blocks[i].start == b;
    DuplicatedDynamic(s, i);
  }

  /** Tail duplication keeps every recorded run exactly when what those runs reach is right
      and every block function has its slot. Safe, it is right; where all blocks were
      visited it is right only if safe: no duplicated block owns continuations and every
      block that receives a copy ends in a jump to it. */
  lemma DuplicationKeepsRuns(s: Pass)
    requires WellFormed(s.cx.code) && GoodBlocks(s.cx.code, s.orig)
    ensures KeepsRuns(s.cx.code, s.succs, s.orig, LayoutOf(s.after)) <==>
            LiveLayout(s.cx.code, s.succs, s.orig, LayoutOf(s.after)) && HasSlots(s.cx.code, s.orig, LayoutOf(s.after))
    ensures s.Safe() ==> LiveLayout(s.cx.code, s.succs, s.orig, LayoutOf(s.after))
    ensures InsideRecorded(s.cx.code, s.succs, s.orig) ==>
            (LiveLayout(s.cx.code, s.succs, s.orig, LayoutOf(s.after)) <==> s.OwnJumps())
  {
    var code, orig, l := s.cx.code, s.orig, LayoutOf(s.after);
    DuplicatedHeaded(s);
    TailDuplicationExact(s);
    RunsExact(code, s.succs, orig, l);
    if s.Safe() {
      FaithfulLive(code, s.succs, orig, l);
    }
    if InsideRecorded(code, s.succs, orig) {
      InsideIsStatic(code, s.succs, orig);
      VisitedDuplication(s);
      if LiveLayout(code, s.succs, orig, l) {
        DuplicatedAllDynamic(s);
        LiveFaithful(code, s.succs, orig, l);
      }
    }
  }

  // ----- superblocks -----

  lemma FormedHeaded(s: SuperPass)
    ensures Headed(s.cx.code, s.orig, LayoutOf(s.after))
  {
    FaithfulKeysGone(s.cx.code, s.succs, s.orig, s.before);
    forall a | a in s.after.absorbed
      ensures a in s.cx.code && !HasStart(s.after.blocks, a)
    {
      FormedKey(s, a);
    }
    TablesHeaded(s.cx.code, s.orig, s.after);
  }

  lemma FormedKey(s: SuperPass, a: Pc)
    requires a in s.after.absorbed && KeysGone(s.before) && s.before.absorbed.Keys <= s.cx.code.Keys
    ensures a in s.cx.code && !HasStart(s.after.blocks, a)
  {
    assert GrownRedirect(s.before, s.home, s.plan.Keys, s.after.(blocks := s.before.blocks), a);
  }

  lemma FormedDynamic(s: SuperPass)
    ensures forall b | b in LayoutOf(s.after).chains :: DynamicEnds(s.cx.code, s.orig, LayoutOf(s.after).chains[b])
  {
    forall b | HasStart(s.after.blocks, b)
      ensures DynamicEnds(s.cx.code, s.orig, s.NewChain(b))
    {
      NewChainLinked(s, b);
      LinkedDynamic(s.cx.code, s.orig, s.NewChain(b));
    }
  }

  /** Forming superblocks keeps every recorded run exactly when what those runs reach is
      right and every block function has its slot. Safe, it is right; where all blocks were
      visited it is right only if safe: no head branches to its own fall-through and no
      absorbed block owns continuations. */
  lemma SuperblocksKeepRuns(s: SuperPass)
    requires WellFormed(s.cx.code) && GoodBlocks(s.cx.code, s.orig)
    ensures KeepsRuns(s.cx.code, s.succs, s.orig, LayoutOf(s.after)) <==>
            LiveLayout(s.cx.code, s.succs, s.orig, LayoutOf(s.after)) && HasSlots(s.cx.code, s.orig, LayoutOf(s.after))
    ensures s.Safe() ==> LiveLayout(s.cx.code, s.succs, s.orig, LayoutOf(s.after))
    ensures InsideRecorded(s.cx.code, s.succs, s.orig) ==>
            (LiveLayout(s.cx.code, s.succs, s.orig, LayoutOf(s.after)) <==> s.OwnExits())
  {
    var code, orig, l := s.cx.code, s.orig, LayoutOf(s.after);
    FormedHeaded(s);
    SuperblocksExact(s);
    RunsExact(code, s.succs, orig, l);
    if s.Safe() {
      FaithfulLive(code, s.succs, orig, l);
    }
    if InsideRecorded(code, s.succs, orig) {
      InsideIsStatic(code, s.succs, orig);
      VisitedSuperblocks(s);
      if LiveLayout(code, s.succs, orig, l) {
        FormedDynamic(s);
        LiveFaithful(code, s.succs, orig, l);
      }
    }
  }

  // ----- the whole optimization -----

  /** The tables consist of blocks of the fresh table, and so do their redirections. */
  ghost predicate OfBlocks(orig: Blocks, t: Tables) {
    SoundTables(orig, t) && t.absorbed.Keys <= orig.Keys
  }

  lemma MergedOfBlocks(g: GreedyChoice, chains: map<Pc, seq<Pc>>, t: Tables)
    requires Merges(FreshTables(g.blocks), g, chains, t)
    ensures OfBlocks(ByStart(g.blocks), t)
  {
    if g.absorbed == {} {
      FreshTablesTidy(g.blocks);
    } else {
      MergedTidy(g, chains, t);
      MergedKeys(ByStart(g.blocks), chains, t);
    }
  }

  lemma MergedKeys(orig: Blocks, chains: map<Pc, seq<Pc>>, t: Tables)
    requires MergedTables(orig, chains, t)
    ensures t.absorbed.Keys <= orig.Keys
  {
    forall c | c in t.absorbed
      ensures c in orig
    {
      var chain := chains[t.absorbed[c]];
      var j :| 0 <= j < |chain[1..]| && chain[1..][j] == c;
      assert chain[j + 1] == c;
    }
  }

  lemma DuplicatedOfBlocks(s: Duplication)
    requires s.Computes() && OfBlocks(s.orig, s.before)
    ensures OfBlocks(s.orig, s.after)
  {
    KeptWithin(s.orig, s.before.blocks, s.dups, s.after.blocks);
    forall a | a in s.after.absorbed
      ensures a in s.orig
    {
      assert a in s.dups || a in s.before.absorbed;
    }
  }

  lemma FormedOfBlocks(s: Forming)
    requires s.Computes() && OfBlocks(s.orig, s.before)
    ensures OfBlocks(s.orig, s.after)
  {
    KeptWithin(s.orig, s.before.blocks, s.home.Keys, s.after.blocks);
    forall a | a in s.after.absorbed
      ensures a in s.orig
    {
      assert GrownRedirect(s.before, s.home, s.plan.Keys, s.after.(blocks := s.before.blocks), a);
      if a in s.home {
        assert Planned(s.cx, s.before.blocks, s.before.absorbed.Values, s.maxDepth, s.home[a], s.plan[s.home[a]], s.home);
      }
    }
  }

  lemma RepairedOfBlocks(orig: Blocks, before: Tables, after: Tables)
    requires Repairs(before, after) && OfBlocks(orig, before)
    ensures OfBlocks(orig, after)
  {
    WholeByRanges(orig, before.continuations);
    WholeByRanges(orig, after.continuations);
    RepairedTargets(before.absorbed, Starts(before.blocks), after.absorbed);
  }

  /** So do those of the whole optimization, safe or not. */
  lemma OptimizedOfBlocks(run: Optimization, succs: Edges, after: Tables)
    requires run.Computes(succs, ByStart(run.g.blocks), FreshTables(run.g.blocks), after)
    ensures OfBlocks(ByStart(run.g.blocks), after)
  {
    var orig := ByStart(run.g.blocks);
    MergedOfBlocks(run.g, run.chains, run.merged);
    DuplicatedOfBlocks(run.TailDuplication(succs, orig));
    FormedOfBlocks(run.Superblocks(succs, orig));
    RepairedOfBlocks(orig, run.formed, after);
  }

  lemma FreshKeysGone(blocks: seq<BasicBlock>)
    ensures KeysGone(FreshTables(blocks))
  {
  }

  lemma OptimizedHeaded(run: Optimization, succs: Edges, after: Tables)
    requires WellFormed(run.g.cx.code) && GoodBlocks(run.g.cx.code, ByStart(run.g.blocks))
    requires run.Computes(succs, ByStart(run.g.blocks), FreshTables(run.g.blocks), after)
    ensures Headed(run.g.cx.code, ByStart(run.g.blocks), LayoutOf(after))
  {
    var code, orig := run.g.cx.code, ByStart(run.g.blocks);
    GoodIsSound(code, orig);
    OptimizedOfBlocks(run, succs, after);
    FreshKeysGone(run.g.blocks);
    OptimizedRedirects(run, succs, orig, FreshTables(run.g.blocks), after);
    TablesHeaded(code, orig, after);
  }

  /** The whole optimization, repair included, keeps every recorded run exactly when what
      those runs reach in the repaired tables is right and every block function has its
      slot. Safe passes over an analysed table make it right. */
  lemma OptimizeExact(run: Optimization, succs: Edges, after: Tables)
    requires WellFormed(run.g.cx.code) && GoodBlocks(run.g.cx.code, ByStart(run.g.blocks))
    requires run.Computes(succs, ByStart(run.g.blocks), FreshTables(run.g.blocks), after)
    ensures KeepsRuns(run.g.cx.code, succs, ByStart(run.g.blocks), LayoutOf(after)) <==>
            LiveLayout(run.g.cx.code, succs, ByStart(run.g.blocks), LayoutOf(after))
            && HasSlots(run.g.cx.code, ByStart(run.g.blocks), LayoutOf(after))
    ensures Analysed(run.g.cx, succs, run.g.blocks) && run.Safe(succs, ByStart(run.g.blocks)) ==>
            LiveLayout(run.g.cx.code, succs, ByStart(run.g.blocks), LayoutOf(after))
  {
    OptimizedHeaded(run, succs, after);
    RunsExact(run.g.cx.code, succs, ByStart(run.g.blocks), LayoutOf(after));
    if Analysed(run.g.cx, succs, run.g.blocks) && run.Safe(succs, ByStart(run.g.blocks)) {
      OptimizeIsFaithful(run, succs, after);
      FaithfulLive(run.g.cx.code, succs, ByStart(run.g.blocks), LayoutOf(after));
    }
  }

  // ----- fresh blocks -----

  lemma FreshHeaded(code: Code, leaders: set<Pc>, blocks: seq<BasicBlock>)
    requires FormedBlocks(code, leaders, blocks) && DistinctStarts(blocks)
    ensures Headed(code, ByStart(blocks), FreshLayout(ByStart(blocks)))
  {
  }

  /** In a faithful fresh layout, falling off a block leads to a block. */
  lemma FaithfulFalls(code: Code, succs: Edges, leaders: set<Pc>, blocks: seq<BasicBlock>)
    requires WellFormed(code) && FormedBlocks(code, leaders, blocks) && DistinctStarts(blocks)
    requires GoodBlocks(code, ByStart(blocks)) && InsideRecorded(code, succs, ByStart(blocks))
    requires Faithful(code, succs, ByStart(blocks), FreshLayout(ByStart(blocks)))
    ensures FallsCovered(code, blocks)
  {
    var orig, l := ByStart(blocks), FreshLayout(ByStart(blocks));
    forall i | 0 <= i < |blocks| && blocks[i].lastPc in code && !code[blocks[i].lastPc].term.IsControlFlow()
               && blocks[i].end in code
      ensures HasStart(blocks, blocks[i].end)
    {
      var b, p := blocks[i].start, blocks[i].lastPc;
      assert HasStart(blocks, b) && orig[b] == blocks[i] && l.chains[b] == [b];
      LastInCode(code, b, p, blocks[i].end);
      assert RecordedAt(code, succs, p) && StaticSuccessor(code, p, blocks[i].end);
      assert ExitsCovered(code, succs, orig, l, b, 0) && LeavesChain(code, orig, [b], 0, blocks[i].end);
    }
  }

  /** Fresh blocks keep every recorded run exactly when no leader lies inside an instruction
      of a block that is followed by an instruction but by no leader, and every block has
      its slot. */
  lemma FreshKeepsRuns(code: Code, succs: Edges, leaders: set<Pc>, blocks: seq<BasicBlock>)
    requires WellFormed(code) && FormedBlocks(code, leaders, blocks) && LeadersCover(code, succs, leaders)
    requires DistinctStarts(blocks) && InsideRecorded(code, succs, ByStart(blocks))
    ensures KeepsRuns(code, succs, ByStart(blocks), FreshLayout(ByStart(blocks))) <==>
            LeadersAligned(code, leaders, blocks) && HasSlots(code, ByStart(blocks), FreshLayout(ByStart(blocks)))
  {
    FormedBlocksGood(code, leaders, blocks);
    FreshHeaded(code, leaders, blocks);
    CoveredIffAligned(code, leaders, blocks);
    FaithfulExact(code, succs, ByStart(blocks), FreshLayout(ByStart(blocks)));
    if LeadersAligned(code, leaders, blocks) {
      FreshIsFaithful(code, succs, leaders, blocks);
    }
    if Faithful(code, succs, ByStart(blocks), FreshLayout(ByStart(blocks))) {
      FaithfulFalls(code, succs, leaders, blocks);
    }
  }
}
