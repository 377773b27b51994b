/**
  The block table and its passes.
 */
module BlockTables {
  import opened Code
  import opened Text
  import opened Trace
  import opened Layout
  import opened Formation
  import opened Merge
  import opened Tables
  import opened TailDup
  import opened TakenInline
  import opened Superblock
  import opened Stages
  import opened Stale

  const DEFAULT_SUPERBLOCK_DEPTH: nat := 100
  const DEFAULT_TAIL_DUP_SIZE: nat := 100

  ghost predicate SoundTables(orig: Blocks, t: Tables) {
    && DistinctStarts(t.blocks) && DistinctLast(t.blocks)
    && Within(orig, t.blocks) && WholeBlocks(orig, t.continuations)
  }

  /** What merging does to the tables. */
  ghost predicate Merges(before: Tables, g: GreedyChoice, chains: map<Pc, seq<Pc>>, after: Tables) {
    && g.blocks == before.blocks && AllChains(g.cx, ByStart(g.blocks), g.absorbed, chains)
    && if g.absorbed == {} then after == before else MergedTables(ByStart(g.blocks), chains, after)
  }

  /** The tables after each pass of an optimization, and what each pass chose. */
  datatype Optimization = Optimization(
    g: GreedyChoice, chains: map<Pc, seq<Pc>>, merged: Tables,
    dups: set<Pc>, duplicated: Tables,
    plan: map<Pc, seq<Pc>>, home: map<Pc, Pc>, formed: Tables, inlines: map<Pc, Range>)
  {
    ghost function TailDuplication(succs: Edges, orig: Blocks): Duplication {
      Duplication(g.cx, DEFAULT_TAIL_DUP_SIZE, succs, orig, merged, dups, duplicated)
    }

    ghost function Superblocks(succs: Edges, orig: Blocks): Forming {
      Forming(g.cx, DEFAULT_SUPERBLOCK_DEPTH, succs, orig, duplicated, plan, home, formed)
    }

    ghost predicate Computes(succs: Edges, orig: Blocks, before: Tables, after: Tables) {
      && Merges(before, g, chains, merged)
      && TailDuplication(succs, orig).Computes()
      && Superblocks(succs, orig).Computes()
      && GoodInlines(g.cx, duplicated.blocks, duplicated.absorbed.Values, inlines)
      && Repairs(formed, after)
    }

    ghost predicate Safe(succs: Edges, orig: Blocks) {
      TailDuplication(succs, orig).Safe() && Superblocks(succs, orig).Safe()
    }
  }

  lemma AllComputes(run: Optimization, succs: Edges, orig: Blocks, before: Tables, after: Tables, heads: set<Pc>)
    requires Merges(before, run.g, run.chains, run.merged) && Repairs(run.formed, after)
    requires Duplication(run.g.cx, DEFAULT_TAIL_DUP_SIZE, succs, orig, run.merged, run.dups, run.duplicated).Computes()
    requires Forming(run.g.cx, DEFAULT_SUPERBLOCK_DEPTH, succs, orig, run.duplicated, run.plan, run.home, run.formed).Computes()
    requires Greedy(run.g.cx, run.duplicated, DEFAULT_SUPERBLOCK_DEPTH, run.plan, run.home, heads, run.inlines)
    ensures run.Computes(succs, orig, before, after)
  {
  }

  ghost predicate Adds(before: map<Pc, Range>, more: map<Pc, Range>, after: map<Pc, Range>) {
    after == before + more
  }

  /** Superblock formation takes all it can: chains could not be longer, and taken paths
      are inlined wherever they may be. */
  ghost predicate Greedy(cx: Context, t: Tables, maxDepth: nat, plan: map<Pc, seq<Pc>>, home: map<Pc, Pc>, heads: set<Pc>,
                         inlines: map<Pc, Range>)
  {
    && Searched(cx, t.blocks, t.absorbed.Values, maxDepth, Starts(t.blocks), heads, home.Keys, plan)
    && GoodInlines(cx, t.blocks, t.absorbed.Values, inlines)
    && AllInlined(cx, t.blocks, t.absorbed.Values, |t.blocks|, home.Keys, inlines)
  }

  /** What the repair of redirections does to the tables. */
  ghost predicate Repairs(before: Tables, after: Tables) {
    && after.blocks == before.blocks
    && Repaired(before.absorbed, Starts(before.blocks), after.absorbed)
    && AllRanges(after.continuations) == AllRanges(before.continuations)
    && (before.absorbed.Values <= Starts(before.blocks) ==> after == before)
  }

  lemma NothingMerged(g: GreedyChoice) returns (chains: map<Pc, seq<Pc>>)
    requires g.absorbed == {}
    ensures AllChains(g.cx, ByStart(g.blocks), g.absorbed, chains)
  {
    chains := map b | b in ByStart(g.blocks) :: [b];
    NothingClaimed(g.cx, ByStart(g.blocks), chains);
  }

  lemma MergeKept(g: GreedyChoice, orig: Blocks, chains: map<Pc, seq<Pc>>, t: Tables)
    requires Within(orig, g.blocks)
    requires MergeProgress(g.cx, ByStart(g.blocks), g.absorbed, ByStart(g.blocks).Keys, chains, t)
    ensures AllChains(g.cx, ByStart(g.blocks), g.absorbed, chains) && MergedTables(ByStart(g.blocks), chains, t)
    ensures DistinctStarts(t.blocks) && DistinctLast(t.blocks)
    ensures Within(orig, t.blocks) && WholeBlocks(orig, t.continuations)
  {
    MergedTidy(g, chains, t);
    TidyWithin(orig, g.blocks, t);
  }

  method MergeTables(cx: Context, ghost orig: Blocks, t: Tables)
    returns (t': Tables, ghost g: GreedyChoice, ghost chains: map<Pc, seq<Pc>>)
    requires SoundTables(orig, t)
    ensures g.cx == cx && Merges(t, g, chains, t')
    ensures SoundTables(orig, t') && |t'.blocks| <= |t.blocks|
  {
    var index := IndexByStart(t.blocks);
    var claimed;
    ghost var absorber;
    claimed, absorber := FindAbsorbed(cx, t.blocks);
    g := Choice(cx, t.blocks, index, claimed, absorber);
    if claimed == {} {
      chains := NothingMerged(g);
      return t, g, chains;
    }
    t', chains := BuildChains(cx, t.blocks, index, claimed, g);
    MergeKept(g, orig, chains, t');
  }

  method DuplicateTables(cx: Context, ghost orig: Blocks, t: Tables, maxSize: nat) returns (t': Tables, ghost dups: set<Pc>)
    requires SoundTables(orig, t)
    ensures Duplicated(cx, orig, t, dups, t'.(blocks := t.blocks))
    ensures forall d :: d in dups <==> exists i | 0 <= i < |t.blocks| :: t.blocks[i].start == d && Candidate(cx, maxSize, t.blocks[i])
    ensures Keeps(t.blocks, dups, t'.blocks) && |t'.blocks| <= |t.blocks|
    ensures Within(orig, t'.blocks)
  {
    var index := IndexByStart(t.blocks);
    var last := IndexByLast(t.blocks);
    var candidates := CollectCandidates(cx, maxSize, t.blocks);
    dups := candidates;
    if candidates == {} {
      NothingDuplicated(cx, orig, t);
      return t, dups;
    }
    t' := DuplicateAll(cx, orig, t, candidates, index, last);
    var kept := Remaining(t.blocks, candidates);
    KeptWithin(orig, t.blocks, candidates, kept);
    assert t'.(blocks := kept).(blocks := t.blocks) == t';
    t' := t'.(blocks := kept);
  }

  method SuperblockTables(cx: Context, ghost orig: Blocks, t: Tables, maxDepth: nat)
    returns (t': Tables, inlines: map<Pc, Range>, ghost plan: map<Pc, seq<Pc>>, ghost home: map<Pc, Pc>, ghost heads: set<Pc>)
    requires SoundTables(orig, t)
    ensures GoodPlan(cx, t.blocks, t.absorbed.Values, maxDepth, plan, home)
    ensures Greedy(cx, t, maxDepth, plan, home, heads, inlines)
    ensures Applied(orig, t, plan, home, plan.Keys, t'.(blocks := t.blocks))
    ensures Keeps(t.blocks, home.Keys, t'.blocks) && |t'.blocks| <= |t.blocks|
    ensures Within(orig, t'.blocks)
  {
    var index := IndexByStart(t.blocks);
    var absorbed, chains;
    absorbed, chains, inlines, home, heads := CollectSuperblockChains(cx, t.blocks, index, t.absorbed.Values, maxDepth);
    plan := chains;
    if absorbed == {} {
      NothingPlanned(cx, maxDepth, orig, t, plan, home);
      return t, inlines, plan, home, heads;
    }
    PlanIndexed(cx, t.blocks, index, t.absorbed.Values, maxDepth, chains, home);
    t' := ApplySuperblockChains(orig, t, index, chains, home);
    var kept := Remaining(t.blocks, absorbed);
    KeptWithin(orig, t.blocks, absorbed, kept);
    assert t'.(blocks := kept).(blocks := t.blocks) == t';
    t' := t'.(blocks := kept);
  }

  class BlockTable {
    const code: Code
    const entryPoints: seq<Pc>
    const predecessors: Edges
    const successors: Edges
    /** The blocks as first formed. */
    ghost const orig: Blocks
    var blocks: seq<BasicBlock>
    var absorbedToMerged: map<Pc, Pc>
    var blockContinuations: map<Pc, seq<Range>>
    var takenInlines: map<Pc, Range>

    ghost predicate Valid()
      reads this
    {
      SoundTables(orig, State())
    }

    ghost function State(): Tables
      reads this
    {
      Tables(blocks, absorbedToMerged, blockContinuations)
    }

    function Entries(): set<Pc> {
      set p | p in entryPoints
    }

    function MergeContext(): Context {
      Context(code, Entries(), predecessors)
    }

    /** Blocks of the given leaders over an analysed table. */
    constructor FromLeaders(code: Code, end: Pc, entryPoints: seq<Pc>, successors: Edges, predecessors: Edges,
                            leaders: set<Pc>)
      requires WellFormed(code) && (forall p | p in code :: p < end)
      ensures this.code == code && this.entryPoints == entryPoints
      ensures this.successors == successors && this.predecessors == predecessors
      ensures Valid() && FormedBlocks(code, leaders, blocks) && orig == ByStart(blocks)
      ensures absorbedToMerged == map[] && blockContinuations == map[] && takenInlines == map[]
    {
      this.code, this.entryPoints := code, entryPoints;
      this.successors, this.predecessors := successors, predecessors;
      absorbedToMerged, blockContinuations, takenInlines := map[], map[], map[];
      var formed := CreateBlocksFromLeaders(code, end, leaders);
      FormedDistinct(code, leaders, formed);
      blocks := formed;
      orig := ByStart(formed);
    }

    method Store(t: Tables)
      modifies this`blocks, this`absorbedToMerged, this`blockContinuations
      ensures State() == t
    {
      blocks, absorbedToMerged, blockContinuations := t.blocks, t.absorbed, t.continuations;
    }

    /** Merge blocks whose successor has a single predecessor: g is the greedy choice
        of blocks to absorb, chains are those of the heads nobody absorbed. */
    method MergeBlocks() returns (absorbedCount: nat, ghost g: GreedyChoice, ghost chains: map<Pc, seq<Pc>>)
      requires Valid()
      modifies this`blocks, this`absorbedToMerged, this`blockContinuations
      ensures Valid()
      ensures unchanged(this`takenInlines)
      ensures g.cx == MergeContext() && Merges(old(State()), g, chains, State())
      ensures absorbedCount == |old(blocks)| - |blocks|
    {
      var t;
      t, g, chains := MergeTables(MergeContext(), orig, Tables(blocks, absorbedToMerged, blockContinuations));
      absorbedCount := |blocks| - |t.blocks|;
      Store(t);
    }

    /** Copy small blocks that are only jumped to into the blocks that jump there. */
    method TailDuplicate(maxSize: nat) returns (eliminated: nat, ghost dups: set<Pc>)
      requires Valid()
      modifies this`blocks, this`absorbedToMerged, this`blockContinuations
      ensures Valid()
      ensures unchanged(this`takenInlines)
      ensures Duplication(MergeContext(), maxSize, successors, orig, old(State()), dups, State()).Computes()
      ensures eliminated == |old(blocks)| - |blocks|
    {
      var t;
      t, dups := DuplicateTables(MergeContext(), orig, Tables(blocks, absorbedToMerged, blockContinuations), maxSize);
      eliminated := |blocks| - |t.blocks|;
      Store(t);
    }

    /** Let blocks that end in a branch absorb what their fall-through runs into, and
        choose the taken paths to inline. */
    method FormSuperblocks(maxDepth: nat)
      returns (absorbedCount: nat, ghost plan: map<Pc, seq<Pc>>, ghost home: map<Pc, Pc>, ghost heads: set<Pc>,
               ghost inlines: map<Pc, Range>)
      requires Valid()
      modifies this`blocks, this`absorbedToMerged, this`blockContinuations, this`takenInlines
      ensures Valid()
      ensures Forming(MergeContext(), maxDepth, successors, orig, old(State()), plan, home, State()).Computes()
      ensures Greedy(MergeContext(), old(State()), maxDepth, plan, home, heads, inlines)
      ensures Adds(old(takenInlines), inlines, takenInlines)
      ensures absorbedCount == |old(blocks)| - |blocks|
    {
      var t, chosen;
      t, chosen, plan, home, heads :=
        SuperblockTables(MergeContext(), orig, Tables(blocks, absorbedToMerged, blockContinuations), maxDepth);
      inlines := chosen;
      takenInlines := takenInlines + chosen;
      absorbedCount := |blocks| - |t.blocks|;
      Store(t);
    }

    /** Point every redirection to a block that is still there. */
    method FixStaleMappings()
      requires Valid()
      modifies this`absorbedToMerged, this`blockContinuations
      ensures unchanged(this`takenInlines)
      ensures Valid() && Repairs(old(State()), State())
    {
      var remaining := set i | 0 <= i < |blocks| :: blocks[i].start;
      assert remaining == Starts(blocks);
      var t, _, _ := RepairTables(Tables(blocks, absorbedToMerged, blockContinuations), remaining);
      WholeByRanges(orig, blockContinuations);
      WholeByRanges(orig, t.continuations);
      absorbedToMerged, blockContinuations := t.absorbed, t.continuations;
    }

    /** All passes in order. */
    method Optimize() returns (merged: nat, tailDuped: nat, superblocked: nat, ghost run: Optimization)
      requires Valid()
      modifies this`blocks, this`absorbedToMerged, this`blockContinuations, this`takenInlines
      ensures Valid()
      ensures run.g.cx == MergeContext() && run.Computes(successors, orig, old(State()), State())
      ensures Adds(old(takenInlines), run.inlines, takenInlines)
      ensures |blocks| + merged + tailDuped + superblocked == |old(blocks)|
    {
      ghost var g, chains, dups, plan, home, heads, inlines;
      merged, g, chains := MergeBlocks();
      ghost var first := State();
      tailDuped, dups := TailDuplicate(DEFAULT_TAIL_DUP_SIZE);
      ghost var second := State();
      superblocked, plan, home, heads, inlines := FormSuperblocks(DEFAULT_SUPERBLOCK_DEPTH);
      ghost var third := State();
      run := Optimization(g, chains, first, dups, second, plan, home, third, inlines);
      FixStaleMappings();
      AllComputes(run, successors, orig, old(State()), State(), heads);
    }
  }

  // ----- what the passes keep -----

  /** Tables tidy over the current blocks hold whole blocks of the first table. */
  lemma TidyWithin(orig: Blocks, blocks: seq<BasicBlock>, t: Tables)
    requires DistinctStarts(blocks) && Within(orig, blocks) && Tidy(ByStart(blocks), t)
    ensures Within(orig, t.blocks) && WholeBlocks(orig, t.continuations)
  {
    forall b | b in ByStart(blocks)
      ensures b in orig && RangeOf(orig, b) == RangeOf(ByStart(blocks), b)
    {
      var i :| 0 <= i < |blocks| && blocks[i].start == b;
    }
  }

  lemma NothingPlanned(cx: Context, maxDepth: nat, orig: Blocks, t: Tables, plan: map<Pc, seq<Pc>>, home: map<Pc, Pc>)
    requires DistinctStarts(t.blocks) && DistinctLast(t.blocks) && WholeBlocks(orig, t.continuations)
    requires GoodPlan(cx, t.blocks, t.absorbed.Values, maxDepth, plan, home) && home.Keys == {}
    ensures Applied(orig, t, plan, home, plan.Keys, t) && Keeps(t.blocks, home.Keys, t.blocks)
  {
    if h :| h in plan {
      PlannedHome(cx, t.blocks, t.absorbed.Values, maxDepth, h, plan[h], home);
    }
  }

  lemma PlannedHome(cx: Context, blocks: seq<BasicBlock>, targets: set<Pc>, maxDepth: nat, h: Pc, chain: seq<Pc>,
                    home: map<Pc, Pc>)
    requires Planned(cx, blocks, targets, maxDepth, h, chain, home)
    ensures home.Keys != {}
  {
    assert chain[0] in home.Keys;
  }

  lemma PlanIndexed(cx: Context, blocks: seq<BasicBlock>, index: map<Pc, nat>, targets: set<Pc>, maxDepth: nat,
                    plan: map<Pc, seq<Pc>>, home: map<Pc, Pc>)
    requires GoodPlan(cx, blocks, targets, maxDepth, plan, home) && Indexes(blocks, index)
    ensures Members(plan, home) && forall h, k | h in plan && 0 <= k < |plan[h]| :: plan[h][k] in index
  {
    PlanMembers(cx, blocks, targets, maxDepth, plan, home);
    forall h, k | h in plan && 0 <= k < |plan[h]|
      ensures plan[h][k] in index
    {
      PlannedMember(cx, blocks, targets, maxDepth, h, plan[h], home, k);
    }
  }

  // ----- redirections -----

  /** No redirected address is a block function. */
  ghost predicate KeysGone(t: Tables) {
    forall a | a in t.absorbed :: !HasStart(t.blocks, a)
  }

  lemma MergedKeysGone(before: Tables, g: GreedyChoice, chains: map<Pc, seq<Pc>>, after: Tables)
    requires Merges(before, g, chains, after) && KeysGone(before)
    ensures KeysGone(after)
  {
    if g.absorbed != {} {
      RedirectsAbsorbed(g.cx, ByStart(g.blocks), g.absorbed, chains, after);
      forall a | a in after.absorbed
        ensures !HasStart(after.blocks, a)
      {
        assert a in g.absorbed && a !in chains;
      }
    }
  }

  lemma DuplicatedKeysGone(s: Duplication)
    requires s.Computes() && KeysGone(s.before)
    ensures KeysGone(s.after)
  {
    KeptStarts(s.before.blocks, s.dups, s.after.blocks);
  }

  lemma FormedKeysGone(s: Forming)
    requires s.Computes() && KeysGone(s.before)
    ensures KeysGone(s.after)
  {
    KeptStarts(s.before.blocks, s.home.Keys, s.after.blocks);
    forall a | a in s.after.absorbed
      ensures !HasStart(s.after.blocks, a)
    {
      assert GrownRedirect(s.before, s.home, s.plan.Keys, s.after.(blocks := s.before.blocks), a);
    }
  }

  /** Optimizing keeps redirected addresses and block functions apart, and every
      redirection leads to a block function. */
  lemma OptimizedRedirects(run: Optimization, succs: Edges, orig: Blocks, before: Tables, after: Tables)
    requires run.Computes(succs, orig, before, after) && KeysGone(before)
    ensures KeysGone(after) && after.absorbed.Values <= Starts(after.blocks)
  {
    MergedKeysGone(before, run.g, run.chains, run.merged);
    DuplicatedKeysGone(run.TailDuplication(succs, orig));
    FormedKeysGone(run.Superblocks(succs, orig));
    RepairedTargets(run.formed.absorbed, Starts(run.formed.blocks), after.absorbed);
  }

  // ----- behaviour -----

  /** A block table whose recorded edges reach blocks, with predecessors for all of them. */
  ghost predicate Analysed(cx: Context, succs: Edges, blocks: seq<BasicBlock>) {
    && WellFormed(cx.code) && DistinctStarts(blocks) && DistinctLast(blocks) && GoodBlocks(cx.code, ByStart(blocks))
    && EdgesReachBlocks(cx.code, succs, ByStart(blocks))
    && Recorded(succs, cx.preds)
  }

  lemma MergeStage(g: GreedyChoice, succs: Edges, chains: map<Pc, seq<Pc>>, merged: Tables)
    requires Analysed(g.cx, succs, g.blocks) && Merges(FreshTables(g.blocks), g, chains, merged)
    ensures Tidy(ByStart(g.blocks), merged) && Faithful(g.cx.code, succs, ByStart(g.blocks), LayoutOf(merged))
  {
    if g.absorbed == {} {
      FreshTablesTidy(g.blocks);
      FreshFromEdges(g.cx.code, succs, ByStart(g.blocks));
    } else {
      MergedTidy(g, chains, merged);
      MergedFaithful(g, succs, chains, merged);
    }
  }

  lemma TailStage(s: Duplication)
    requires WellFormed(s.cx.code) && GoodBlocks(s.cx.code, s.orig) && Recorded(s.succs, s.cx.preds)
    requires Tidy(s.orig, s.before)
    requires Faithful(s.cx.code, s.succs, s.orig, LayoutOf(s.before)) && s.Computes() && s.Safe()
    ensures Untangled(s.cx.code, s.orig, s.after) && Faithful(s.cx.code, s.succs, s.orig, LayoutOf(s.after))
  {
    GoodIsSound(s.cx.code, s.orig);
    var p: Pass := s;
    UntangledAfter(p);
    TailDuplicationExact(p);
  }

  lemma SuperblockStage(s: Forming)
    requires WellFormed(s.cx.code) && GoodBlocks(s.cx.code, s.orig) && Recorded(s.succs, s.cx.preds)
    requires Untangled(s.cx.code, s.orig, s.before)
    requires Faithful(s.cx.code, s.succs, s.orig, LayoutOf(s.before)) && s.Computes() && s.Safe()
    ensures Faithful(s.cx.code, s.succs, s.orig, LayoutOf(s.after))
  {
    GoodIsSound(s.cx.code, s.orig);
    ComputesGrows(s);
    var p: SuperPass := s;
    SuperblocksExact(p);
  }

  lemma RepairStage(code: Code, succs: Edges, orig: Blocks, before: Tables, after: Tables)
    requires Faithful(code, succs, orig, LayoutOf(before)) && Repairs(before, after)
    ensures after == before
  {
    forall a | a in before.absorbed
      ensures before.absorbed[a] in Starts(before.blocks)
    {
      FaithfulRedirect(code, succs, orig, before, a);
    }
  }

  /** Safe passes over a fresh table keep the layout faithful, and leave nothing to repair. */
  lemma OptimizeIsFaithful(run: Optimization, succs: Edges, after: Tables)
    requires Analysed(run.g.cx, succs, run.g.blocks)
    requires run.Computes(succs, ByStart(run.g.blocks), FreshTables(run.g.blocks), after)
    requires run.Safe(succs, ByStart(run.g.blocks))
    ensures after == run.formed && Faithful(run.g.cx.code, succs, ByStart(run.g.blocks), LayoutOf(after))
  {
    var orig := ByStart(run.g.blocks);
    MergeStage(run.g, succs, run.chains, run.merged);
    TailStage(run.TailDuplication(succs, orig));
    SuperblockStage(run.Superblocks(succs, orig));
    RepairStage(run.g.cx.code, succs, orig, run.formed, after);
  }

  /** An entry point stays a block function through all passes. */
  lemma EntryKept(run: Optimization, succs: Edges, orig: Blocks, before: Tables, after: Tables, e: Pc)
    requires run.Computes(succs, orig, before, after) && e in run.g.cx.entries && HasStart(before.blocks, e)
    ensures HasStart(after.blocks, e)
  {
    EntryMerged(before, run.g, run.chains, run.merged, e);
    KeptStarts(run.merged.blocks, run.dups, run.duplicated.blocks);
    KeptStarts(run.duplicated.blocks, run.home.Keys, run.formed.blocks);
    HomeNoEntry(run.g.cx, run.duplicated.blocks, run.duplicated.absorbed.Values, DEFAULT_SUPERBLOCK_DEPTH,
                run.plan, run.home, e);
  }

  lemma HomeNoEntry(cx: Context, blocks: seq<BasicBlock>, targets: set<Pc>, maxDepth: nat, plan: map<Pc, seq<Pc>>,
                    home: map<Pc, Pc>, e: Pc)
    requires GoodPlan(cx, blocks, targets, maxDepth, plan, home) && e in cx.entries
    ensures e !in home
  {
  }

  lemma EntryNotClaimed(g: GreedyChoice, e: Pc)
    requires e in g.cx.entries
    ensures e !in g.absorbed
  {
  }

  lemma EntryMerged(before: Tables, g: GreedyChoice, chains: map<Pc, seq<Pc>>, merged: Tables, e: Pc)
    requires Merges(before, g, chains, merged) && e in g.cx.entries && HasStart(before.blocks, e)
    ensures HasStart(merged.blocks, e)
  {
    if g.absorbed != {} {
      EntryNotClaimed(g, e);
      assert e in chains;
    }
  }

  /** The whole optimization: from an entry point, a recorded run executes the same
      instructions with the same states through the optimized block functions, if those
      have their slots in the dispatch table, exactly when its computed jumps off the code
      find traps. */
  lemma OptimizeKeepsRuns<S(!new)>(run: Optimization, succs: Edges, after: Tables, m: Machine<S>, e: Pc, s: S, n: nat)
    requires Analysed(run.g.cx, succs, run.g.blocks)
    requires run.Computes(succs, ByStart(run.g.blocks), FreshTables(run.g.blocks), after)
    requires run.Safe(succs, ByStart(run.g.blocks))
    requires HasSlots(run.g.cx.code, ByStart(run.g.blocks), LayoutOf(after))
    requires e in run.g.cx.entries && HasStart(run.g.blocks, e)
    requires RunRecorded(run.g.cx.code, succs, m, Running(e, s), n)
    ensures KeepsRun(run.g.cx.code, ByStart(run.g.blocks), LayoutOf(after), m, e, s, n) <==>
            LandsIn(run.g.cx.code, ByStart(run.g.blocks), LayoutOf(after), m, e, s, n)
  {
    OptimizeIsFaithful(run, succs, after);
    EntryKept(run, succs, ByStart(run.g.blocks), FreshTables(run.g.blocks), after, e);
    FaithfulLayoutTrace(run.g.cx.code, succs, ByStart(run.g.blocks), LayoutOf(after), m, e, s, n);
  }
}
