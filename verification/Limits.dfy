/**
  Inputs on which a pass does not do what one would expect, next to the exact
  conditions proved elsewhere.
 */
module Limits {
  import opened Code
  import opened Layout
  import opened Formation
  import opened Merge
  import opened Tables
  import opened TailDup
  import opened Superblock
  import opened Stages
  import opened Bits
  import opened Values
  import opened Registers
  import opened Analysis
  import opened Sets
  import opened Text
  import opened Trace
  import opened Exact
  import opened Kept
  import opened Slots
  import opened Singles
  import T = InstructionTables

  // ----- merging: a block that jumps to itself and that nothing else reaches -----

  lemma SelfLoopDropped() returns (g: GreedyChoice, chains: map<Pc, seq<Pc>>, t: Tables)
    ensures AllChains(g.cx, ByStart(g.blocks), g.absorbed, chains) && MergedTables(ByStart(g.blocks), chains, t)
    ensures TotalCount(g.blocks) == 1 && TotalCount(t.blocks) == 0
  {
    var b := BasicBlock(0, 4, 1, 0);
    var cx := Context(map[0 := Insn(4, Jump(0))], {}, map[0 := {0}]);
    StartsFromPairs([b]);
    LastFromPairs([b]);
    assert MergeTarget(cx, b) == Some(0);
    g := Choice(cx, [b], map[0 := 0], {0}, map[0 := 0]);
    chains, t := map[], Tables([], map[], map[]);
    assert ByStart([b]).Keys == {0};
    StartsFromPairs(t.blocks);
  }

  // ----- blocks: a leader inside an instruction -----

  ghost function FallCode(): Code {
    map[0 := Insn(4, Fall(None)), 4 := Insn(4, Exit)]
  }

  const FALL_EDGES: Edges := map[0 := {4}]

  lemma FallFormed(b: BasicBlock)
    requires b == BasicBlock(0, 4, 1, 0)
    ensures WellFormed(FallCode()) && FormedBlocks(FallCode(), {0, 2}, [b]) && !FallsCovered(FallCode(), [b])
  {
    var code, leaders, blocks := FallCode(), {0, 2}, [b];
    assert InstructionCount(code, 4, 4) == 0;
    assert StraightLine(code, 0, 0, 4) && InstructionCount(code, 0, 4) == 1;
    assert 2 in leaders;
    assert FormedBlock(code, leaders, b);
    assert blocks[0].start == 0;
    assert HasStart(blocks, 0);
  }

  lemma FallRecorded(b: BasicBlock)
    requires b == BasicBlock(0, 4, 1, 0)
    ensures DistinctStarts([b]) && LeadersCover(FallCode(), FALL_EDGES, {0, 2})
    ensures InsideRecorded(FallCode(), FALL_EDGES, ByStart([b]))
  {
    StartsFromPairs([b]);
    assert RecordedAt(FallCode(), FALL_EDGES, 0);
  }

  /** The block ends before the leader, and what it falls through to is in no block. */
  lemma LostFallThrough() returns (code: Code, succs: Edges, leaders: set<Pc>, blocks: seq<BasicBlock>)
    ensures WellFormed(code) && FormedBlocks(code, leaders, blocks) && LeadersCover(code, succs, leaders)
    ensures DistinctStarts(blocks) && !KeepsRuns(code, succs, ByStart(blocks), FreshLayout(ByStart(blocks)))
  {
    var b := BasicBlock(0, 4, 1, 0);
    code, succs, leaders, blocks := FallCode(), FALL_EDGES, {0, 2}, [b];
    FallFormed(b);
    FallRecorded(b);
    CoveredIffAligned(code, leaders, blocks);
    FreshKeepsRuns(code, succs, leaders, blocks);
  }

  // ----- loads: only the least of several bases is read -----

  lemma LoadMisread() returns (t: Setup, d: Decoded, f: Facts)
    ensures d.Encodable() && d.kind.Load? && !LoadCovered(t, 0, 4, d, f)
  {
    d := Decoded(InstrKind.Load, Some(5), Some(1), None, 0, 1, true);
    t := Setup(map[], [RoSegment(0, 2, [1, 2])], 0, {}, {}, {}, [], map[], map[]);
    var base := OneOf({0, 1});
    f := PutFact(NothingKnown(), 1, base);
    var least := Least(base.words);
    assert 0 in base.words && least == 0;
    ReadBytes(t);
    assert 1 in base.words && !LoadsAs(t, d, 1, 1);
    assert !LoadSettled(t, d, base);
    LoadExact(t, 0, 4, d, f);
  }

  lemma ReadBytes(t: Setup)
    requires t.segments == [RoSegment(0, 2, [1, 2])]
    ensures ReadReadonly(t.segments, 0, 1) == Some(1) && ReadReadonly(t.segments, 1, 1) == Some(2)
  {
    var s := t.segments[0];
    assert s.data[0..1] == [1] && s.data[1..2] == [2];
    assert Bits.LittleEndian([1]) == 1 && Bits.LittleEndian([2]) == 2;
  }

  // ----- superblocks over single-instruction blocks -----

  /** Heads absorb the instruction after them. */
  ghost function PlanOf(heads: set<Pc>): map<Pc, seq<Pc>> {
    map h | h in heads :: [h + 4]
  }

  ghost function TailsOf(heads: set<Pc>): map<Pc, seq<Range>> {
    map h | h in heads :: [(h + 4, h + 8)]
  }

  /** The pass that lets `heads` absorb what follows them, leaving the blocks at `kept`. */
  ghost function FormingOf(cx: Context, succs: Edges, addrs: seq<Pc>, heads: set<Pc>, home: map<Pc, Pc>, kept: seq<Pc>): Forming
    requires SingleCode(cx.code, addrs)
  {
    SingleTable(cx.code, addrs);
    Forming(cx, 100, succs, ByStart(SingleBlocks(addrs)), FreshTables(SingleBlocks(addrs)), PlanOf(heads), home,
            Tables(SingleBlocks(kept), home, TailsOf(heads)))
  }

  /** Head h ends in a branch, and the instruction after it, c, may be absorbed. */
  ghost predicate Absorbs(cx: Context, addrs: seq<Pc>, home: map<Pc, Pc>, h: Pc, c: Pc) {
    && h in addrs && h in cx.code && cx.code[h].term.Branch? && h !in home
    && c == h + 4 && c in addrs && c in cx.code && Absorbable(cx, {}, c) && c in home && home[c] == h
  }

  ghost predicate Absorbing(cx: Context, addrs: seq<Pc>, heads: set<Pc>, home: map<Pc, Pc>) {
    && (forall h | h in heads :: Absorbs(cx, addrs, home, h, h + 4))
    && (forall c | c in home :: home[c] in heads && c == home[c] + 4)
  }

  lemma PlannedSingle(cx: Context, blocks: seq<BasicBlock>, home: map<Pc, Pc>, h: Pc, c: Pc)
    requires HasStart(blocks, h) && HasStart(blocks, c) && BlockAt(blocks, h) == Single(h) && BlockAt(blocks, c) == Single(c)
    requires h in cx.code && cx.code[h].term.Branch? && h !in home
    requires c == h + 4 && c in cx.code && Absorbable(cx, {}, c) && c in home && home[c] == h
    ensures Planned(cx, blocks, {}, 100, h, [c], home)
  {
  }

  lemma SingleAt(code: Code, addrs: seq<Pc>, p: Pc)
    requires SingleCode(code, addrs) && p in addrs
    ensures HasStart(SingleBlocks(addrs), p) && BlockAt(SingleBlocks(addrs), p) == Single(p)
  {
    SingleStarts(addrs);
  }

  lemma SingleChain(heads: set<Pc>, b: Pc)
    ensures ChainOf(TailsOf(heads), b) == if b in heads then [b] + [b + 4] else [b]
  {
    assert StartsOf([(b + 4, b + 8)]) == [b + 4];
  }

  lemma WholeSingles(code: Code, addrs: seq<Pc>, heads: set<Pc>)
    requires SingleCode(code, addrs) && forall h | h in heads :: h + 4 in addrs
    ensures DistinctStarts(SingleBlocks(addrs)) && WholeBlocks(ByStart(SingleBlocks(addrs)), TailsOf(heads))
  {
    SingleStarts(addrs);
    var orig := ByStart(SingleBlocks(addrs));
    forall h | h in heads
      ensures h + 4 in orig && RangeOf(orig, h + 4) == (h + 4, h + 8)
    {
      SingleOrig(code, addrs, h + 4);
    }
    TailsWhole(orig, heads);
  }

  lemma TailsWhole(orig: Blocks, heads: set<Pc>)
    requires forall h | h in heads :: h + 4 in orig && RangeOf(orig, h + 4) == (h + 4, h + 8)
    ensures WholeBlocks(orig, TailsOf(heads))
  {
  }

  lemma AppliedSingle(orig: Blocks, blocks: seq<BasicBlock>, heads: set<Pc>, home: map<Pc, Pc>)
    requires WholeBlocks(orig, TailsOf(heads)) && forall c | c in home :: home[c] in heads
    ensures Applied(orig, FreshTables(blocks), PlanOf(heads), home, heads, Tables(blocks, home, TailsOf(heads)))
  {
    var t, t' := FreshTables(blocks), Tables(blocks, home, TailsOf(heads));
    forall b: Pc
      ensures GrownChain(t, PlanOf(heads), heads, t', b)
    {
      SingleChain(heads, b);
    }
  }

  /** The addresses that are not removed, in order. */
  ghost predicate KeptFrom(addrs: seq<Pc>, removed: set<Pc>, kept: seq<Pc>) {
    && (forall p :: p in kept <==> p in addrs && p !in removed)
    && Ascending(kept)
  }

  lemma KeptSingles(addrs: seq<Pc>, removed: set<Pc>, kept: seq<Pc>)
    requires KeptFrom(addrs, removed, kept)
    ensures Keeps(SingleBlocks(addrs), removed, SingleBlocks(kept))
  {
    SingleStarts(kept);
    forall b
      ensures b in SingleBlocks(kept) <==> b in SingleBlocks(addrs) && b.start !in removed
    {
      SingleMember(kept, b);
      SingleMember(addrs, b);
    }
  }

  lemma SingleMember(addrs: seq<Pc>, b: BasicBlock)
    ensures b in SingleBlocks(addrs) <==> b.start in addrs && b == Single(b.start)
  {
    if b.start in addrs && b == Single(b.start) {
      var i :| 0 <= i < |addrs| && addrs[i] == b.start;
      assert SingleBlocks(addrs)[i] == b;
    }
  }

  lemma FormingReady(cx: Context, succs: Edges, addrs: seq<Pc>, heads: set<Pc>, home: map<Pc, Pc>, kept: seq<Pc>)
    requires SingleCode(cx.code, addrs) && Recorded(succs, cx.preds)
    ensures FormingOf(cx, succs, addrs, heads, home, kept).Ready()
  {
    SingleFresh(cx.code, succs, addrs);
  }

  lemma ComputesFrom(s: Forming, heads: set<Pc>, members: set<Pc>, targets: set<Pc>)
    requires targets == s.before.absorbed.Values && GoodPlan(s.cx, s.before.blocks, targets, s.maxDepth, s.plan, s.home)
    requires heads == s.plan.Keys && Applied(s.orig, s.before, s.plan, s.home, heads, s.after.(blocks := s.before.blocks))
    requires members == s.home.Keys && Keeps(s.before.blocks, members, s.after.blocks)
    ensures s.Computes()
  {
  }

  lemma PlannedSingles(cx: Context, addrs: seq<Pc>, heads: set<Pc>, home: map<Pc, Pc>)
    requires SingleCode(cx.code, addrs) && Absorbing(cx, addrs, heads, home)
    ensures GoodPlan(cx, SingleBlocks(addrs), {}, 100, PlanOf(heads), home)
  {
    forall h | h in heads
      ensures Planned(cx, SingleBlocks(addrs), {}, 100, h, [h + 4], home)
    {
      assert Absorbs(cx, addrs, home, h, h + 4);
      SingleAt(cx.code, addrs, h);
      SingleAt(cx.code, addrs, h + 4);
      PlannedSingle(cx, SingleBlocks(addrs), home, h, h + 4);
    }
    AllPlanned(cx, SingleBlocks(addrs), heads, home);
  }

  lemma AllPlanned(cx: Context, blocks: seq<BasicBlock>, heads: set<Pc>, home: map<Pc, Pc>)
    requires forall h | h in heads :: Planned(cx, blocks, {}, 100, h, [h + 4], home)
    requires forall c | c in home :: home[c] in heads && c == home[c] + 4
    ensures GoodPlan(cx, blocks, {}, 100, PlanOf(heads), home)
  {
  }

  lemma AppliedTo(cx: Context, succs: Edges, addrs: seq<Pc>, heads: set<Pc>, home: map<Pc, Pc>, kept: seq<Pc>)
    requires SingleCode(cx.code, addrs) && Absorbing(cx, addrs, heads, home)
    ensures var s := FormingOf(cx, succs, addrs, heads, home, kept);
            Applied(s.orig, s.before, s.plan, s.home, heads, s.after.(blocks := s.before.blocks))
  {
    forall h | h in heads
      ensures h + 4 in addrs
    {
      assert Absorbs(cx, addrs, home, h, h + 4);
    }
    WholeSingles(cx.code, addrs, heads);
    AppliedSingle(ByStart(SingleBlocks(addrs)), SingleBlocks(addrs), heads, home);
  }

  lemma FormingParts(cx: Context, succs: Edges, addrs: seq<Pc>, heads: set<Pc>, home: map<Pc, Pc>, kept: seq<Pc>)
    requires SingleCode(cx.code, addrs) && Absorbing(cx, addrs, heads, home) && KeptFrom(addrs, home.Keys, kept)
    ensures var s := FormingOf(cx, succs, addrs, heads, home, kept);
            && s.before.absorbed.Values == {} && s.plan.Keys == heads
            && GoodPlan(s.cx, s.before.blocks, {}, s.maxDepth, s.plan, s.home)
            && Keeps(s.before.blocks, home.Keys, s.after.blocks)
  {
    PlannedSingles(cx, addrs, heads, home);
    KeptSingles(addrs, home.Keys, kept);
  }

  lemma FormingComputes(cx: Context, succs: Edges, addrs: seq<Pc>, heads: set<Pc>, home: map<Pc, Pc>, kept: seq<Pc>)
    requires SingleCode(cx.code, addrs) && Absorbing(cx, addrs, heads, home) && KeptFrom(addrs, home.Keys, kept)
    ensures FormingOf(cx, succs, addrs, heads, home, kept).Computes()
  {
    FormingParts(cx, succs, addrs, heads, home, kept);
    AppliedTo(cx, succs, addrs, heads, home, kept);
    ComputesFrom(FormingOf(cx, succs, addrs, heads, home, kept), heads, home.Keys, {});
  }

  lemma FormingGood(cx: Context, succs: Edges, addrs: seq<Pc>, heads: set<Pc>, home: map<Pc, Pc>, kept: seq<Pc>)
    requires SingleCode(cx.code, addrs) && Ascending(kept)
    ensures var s := FormingOf(cx, succs, addrs, heads, home, kept);
            && WellFormed(s.cx.code) && GoodBlocks(s.cx.code, s.orig)
            && (forall b | b in s.orig :: s.orig[b] == Single(b)) && (forall b :: b in s.orig <==> b in addrs)
            && (forall b :: HasStart(s.after.blocks, b) <==> b in kept)
  {
    SingleApart(cx.code, addrs);
    SingleTable(cx.code, addrs);
    SingleStarts(kept);
  }

  /** Where all blocks were visited, an unsafe pass loses a run. */
  lemma UnsafeForming(s: Forming)
    requires s.Ready() && s.Computes() && !s.OwnExits()
    requires WellFormed(s.cx.code) && GoodBlocks(s.cx.code, s.orig) && InsideRecorded(s.cx.code, s.succs, s.orig)
    ensures !KeepsRuns(s.cx.code, s.succs, s.orig, LayoutOf(s.after))
  {
    ComputesGrows(s);
    SuperblocksKeepRuns(s);
  }

  /** A head that branches to the instruction after it. */
  lemma BranchesAhead(cx: Context, succs: Edges, addrs: seq<Pc>, heads: set<Pc>, home: map<Pc, Pc>, kept: seq<Pc>, h: Pc)
    requires SingleCode(cx.code, addrs) && Recorded(succs, cx.preds)
    requires Absorbing(cx, addrs, heads, home) && KeptFrom(addrs, home.Keys, kept)
    requires AllStatic(cx.code, succs)
    requires h in heads && h in cx.code && BranchesTo(cx.code, h, h + 4)
    ensures var s := FormingOf(cx, succs, addrs, heads, home, kept);
            s.Ready() && s.Computes() && !KeepsRuns(s.cx.code, s.succs, s.orig, LayoutOf(s.after))
  {
    var s := FormingOf(cx, succs, addrs, heads, home, kept);
    FormingReady(cx, succs, addrs, heads, home, kept);
    FormingComputes(cx, succs, addrs, heads, home, kept);
    FormingGood(cx, succs, addrs, heads, home, kept);
    FormingInside(cx, succs, addrs, heads, home, kept);
    HeadAhead(cx, succs, addrs, heads, home, kept, h);
    UnsafeForming(s);
  }

  lemma HeadAhead(cx: Context, succs: Edges, addrs: seq<Pc>, heads: set<Pc>, home: map<Pc, Pc>, kept: seq<Pc>, h: Pc)
    requires SingleCode(cx.code, addrs) && h in heads && h in cx.code && BranchesTo(cx.code, h, h + 4)
    ensures !FormingOf(cx, succs, addrs, heads, home, kept).OwnExits()
  {
    SingleOrig(cx.code, addrs, h);
    NotOwnExits(FormingOf(cx, succs, addrs, heads, home, kept), h);
  }

  lemma FormingInside(cx: Context, succs: Edges, addrs: seq<Pc>, heads: set<Pc>, home: map<Pc, Pc>, kept: seq<Pc>)
    requires SingleCode(cx.code, addrs) && AllStatic(cx.code, succs)
    ensures var s := FormingOf(cx, succs, addrs, heads, home, kept); InsideRecorded(s.cx.code, s.succs, s.orig)
  {
    SingleInside(cx.code, succs, addrs);
  }

  lemma NotOwnExits(s: Forming, h: Pc)
    requires h in s.plan && s.plan[h] == [h + 4] && (h in s.orig ==> s.orig[h] == Single(h))
    requires h in s.cx.code && BranchesTo(s.cx.code, h, h + 4)
    ensures !s.OwnExits()
  {
    assert !s.SideExitLeaves(h);
  }

  /** No head branches to the instruction after it. */
  ghost predicate BranchPast(code: Code, heads: set<Pc>) {
    forall h | h in heads && h in code :: !BranchesTo(code, h, h + 4)
  }

  lemma LeavesPast(s: Forming, h: Pc)
    requires h in s.plan && s.plan[h] == [h + 4] && h in s.orig && s.orig[h] == Single(h)
    requires h in s.cx.code && !BranchesTo(s.cx.code, h, h + 4)
    ensures s.SideExitLeaves(h)
  {
  }

  lemma PastOwnExits(cx: Context, succs: Edges, addrs: seq<Pc>, heads: set<Pc>, home: map<Pc, Pc>, kept: seq<Pc>)
    requires SingleCode(cx.code, addrs) && Absorbing(cx, addrs, heads, home) && BranchPast(cx.code, heads)
    ensures FormingOf(cx, succs, addrs, heads, home, kept).OwnExits()
  {
    var s := FormingOf(cx, succs, addrs, heads, home, kept);
    forall h | h in s.plan
      ensures s.SideExitLeaves(h)
    {
      assert Absorbs(cx, addrs, home, h, h + 4);
      HeadPast(cx, succs, addrs, heads, home, kept, h);
    }
    AllLeave(s);
  }

  lemma HeadPast(cx: Context, succs: Edges, addrs: seq<Pc>, heads: set<Pc>, home: map<Pc, Pc>, kept: seq<Pc>, h: Pc)
    requires SingleCode(cx.code, addrs) && h in heads && h in addrs && h in cx.code && !BranchesTo(cx.code, h, h + 4)
    ensures FormingOf(cx, succs, addrs, heads, home, kept).SideExitLeaves(h)
  {
    SingleOrig(cx.code, addrs, h);
    LeavesPast(FormingOf(cx, succs, addrs, heads, home, kept), h);
  }

  lemma AllLeave(s: Forming)
    requires s.before.continuations == map[] && forall h | h in s.plan :: s.SideExitLeaves(h)
    ensures s.OwnExits()
  {
  }

  /** A layout that keeps runs has a block function for every recorded target of a branch
      that starts one. */
  lemma BranchTargetNeeded(code: Code, succs: Edges, orig: Blocks, l: Layout, b: Pc, q: Pc)
    requires WellFormed(code) && GoodBlocks(code, orig) && Headed(code, orig, l) && KeepsRuns(code, succs, orig, l)
    requires b in l.chains && b in code && q in code && q in Lookup(succs, b) && BranchesTo(code, b, q)
    ensures q in l.chains
  {
    RunsExact(code, succs, orig, l);
    EmissionIsCode(code, orig, l);
    var em := Emission(code, orig, l);
    LiveStart(code, succs, em, b);
    assert RightAt(code, succs, em, b, 0);
    assert Leaves(code, em.blocks[b], 0, q);
  }

  /** A pass after which a branch at the start of a block leads to no block function. */
  lemma LostBranch(s: Forming, b: Pc, q: Pc)
    requires s.Ready() && s.Computes() && WellFormed(s.cx.code) && GoodBlocks(s.cx.code, s.orig)
    requires HasStart(s.after.blocks, b) && !HasStart(s.after.blocks, q)
    requires b in s.cx.code && q in s.cx.code && q in Lookup(s.succs, b) && BranchesTo(s.cx.code, b, q)
    ensures !KeepsRuns(s.cx.code, s.succs, s.orig, LayoutOf(s.after))
  {
    ComputesGrows(s);
    FormedHeaded(s);
    if KeepsRuns(s.cx.code, s.succs, s.orig, LayoutOf(s.after)) {
      BranchTargetNeeded(s.cx.code, s.succs, s.orig, LayoutOf(s.after), b, q);
    }
  }

  /** A member that a recorded branch of another block leads to, heads branching further. */
  lemma BranchesInto(cx: Context, succs: Edges, addrs: seq<Pc>, heads: set<Pc>, home: map<Pc, Pc>, kept: seq<Pc>, b: Pc, q: Pc)
    requires SingleCode(cx.code, addrs) && Recorded(succs, cx.preds)
    requires Absorbing(cx, addrs, heads, home) && KeptFrom(addrs, home.Keys, kept)
    requires BranchPast(cx.code, heads)
    requires b in kept && q !in kept && b in cx.code && q in cx.code && q in Lookup(succs, b) && BranchesTo(cx.code, b, q)
    ensures var s := FormingOf(cx, succs, addrs, heads, home, kept);
            s.Ready() && s.Computes() && s.OwnExits() && !KeepsRuns(s.cx.code, s.succs, s.orig, LayoutOf(s.after))
  {
    var s := FormingOf(cx, succs, addrs, heads, home, kept);
    FormingReady(cx, succs, addrs, heads, home, kept);
    FormingComputes(cx, succs, addrs, heads, home, kept);
    FormingGood(cx, succs, addrs, heads, home, kept);
    PastOwnExits(cx, succs, addrs, heads, home, kept);
    LostBranch(s, b, q);
  }

  // ----- superblocks: a branch to its own fall-through -----

  ghost function BranchContext(): Context {
    Context(map[0 := Insn(4, Terminator.Branch(4, None)), 4 := Insn(4, Exit)], {}, map[4 := {0}])
  }

  const BRANCH_EDGES: Edges := map[0 := {4}, 4 := {}]
  const BRANCH_ADDRS: seq<Pc> := [0, 4]
  const BRANCH_HOME: map<Pc, Pc> := map[4 := 0]

  lemma BranchAbsorbing()
    ensures SingleCode(BranchContext().code, BRANCH_ADDRS) && Recorded(BRANCH_EDGES, BranchContext().preds)
    ensures Absorbing(BranchContext(), BRANCH_ADDRS, {0}, BRANCH_HOME) && KeptFrom(BRANCH_ADDRS, BRANCH_HOME.Keys, [0])
  {
    assert BRANCH_ADDRS[0] == 0 && BRANCH_ADDRS[1] == 4;
    assert Lookup(BranchContext().preds, 4) == {0};
  }

  lemma BranchStatic()
    ensures AllStatic(BranchContext().code, BRANCH_EDGES)
    ensures 0 in BranchContext().code && BranchesTo(BranchContext().code, 0, 4)
  {
  }

  /** Merging, which comes first, leaves these blocks as they are. */
  ghost predicate NothingToMerge(cx: Context, blocks: seq<BasicBlock>) {
    forall i | 0 <= i < |blocks| :: MergeTarget(cx, blocks[i]) == None
  }

  lemma SinglesUnmerged(cx: Context, addrs: seq<Pc>)
    requires forall p | p in addrs :: MergeTarget(cx, Single(p)) == None
    ensures NothingToMerge(cx, SingleBlocks(addrs))
  {
  }

  lemma BranchUnmerged()
    ensures NothingToMerge(BranchContext(), SingleBlocks(BRANCH_ADDRS))
  {
    SinglesUnmerged(BranchContext(), BRANCH_ADDRS);
  }

  /** The pass absorbs the block after the branch, and the taken branch runs the head again. */
  lemma BranchToFallThrough() returns (s: Forming)
    ensures s.Ready() && s.Computes() && NothingToMerge(s.cx, s.before.blocks)
    ensures !KeepsRuns(s.cx.code, s.succs, s.orig, LayoutOf(s.after))
  {
    BranchUnmerged();
    BranchAbsorbing();
    BranchStatic();
    s := FormingOf(BranchContext(), BRANCH_EDGES, BRANCH_ADDRS, {0}, BRANCH_HOME, [0]);
    BranchesAhead(BranchContext(), BRANCH_EDGES, BRANCH_ADDRS, {0}, BRANCH_HOME, [0], 0);
  }

  // ----- superblocks: the one recorded predecessor is another block -----

  ghost function SideContext(): Context {
    Context(map[0 := Insn(4, Terminator.Branch(12, None)), 4 := Insn(4, Exit), 8 := Insn(4, Terminator.Branch(16, None)),
                12 := Insn(4, Exit), 16 := Insn(4, Exit)],
            {0}, map[4 := {0}, 12 := {0}])
  }

  const SIDE_EDGES: Edges := map[0 := {4, 12}, 4 := {}, 12 := {}]
  const SIDE_ADDRS: seq<Pc> := [0, 4, 8, 12, 16]
  const SIDE_HOME: map<Pc, Pc> := map[4 := 0, 12 := 8]
  const SIDE_KEPT: seq<Pc> := [0, 8, 16]

  lemma SideSingles()
    ensures SingleCode(SideContext().code, SIDE_ADDRS) && Recorded(SIDE_EDGES, SideContext().preds)
  {
    var addrs := SIDE_ADDRS;
    assert addrs[0] == 0 && addrs[1] == 4 && addrs[2] == 8 && addrs[3] == 12 && addrs[4] == 16;
  }

  lemma SideAbsorbing()
    ensures Absorbing(SideContext(), SIDE_ADDRS, {0, 8}, SIDE_HOME)
  {
    var addrs := SIDE_ADDRS;
    assert addrs[0] == 0 && addrs[1] == 4 && addrs[2] == 8 && addrs[3] == 12;
    assert Lookup(SideContext().preds, 4) == {0} && Lookup(SideContext().preds, 12) == {0};
  }

  lemma SideKept()
    ensures KeptFrom(SIDE_ADDRS, SIDE_HOME.Keys, SIDE_KEPT) && 0 in SIDE_KEPT && 12 !in SIDE_KEPT
  {
    var addrs, kept := SIDE_ADDRS, SIDE_KEPT;
    assert addrs[0] == 0 && addrs[2] == 8 && addrs[4] == 16;
    assert kept[0] == 0 && kept[1] == 8 && kept[2] == 16;
  }

  lemma SideBranches()
    ensures var code := SideContext().code;
            && 0 in code && 12 in code && 12 in Lookup(SIDE_EDGES, 0) && BranchesTo(code, 0, 12)
            && BranchPast(code, {0, 8})
  {
  }

  lemma SideUnmerged()
    ensures NothingToMerge(SideContext(), SingleBlocks(SIDE_ADDRS))
  {
    SinglesUnmerged(SideContext(), SIDE_ADDRS);
  }

  /** The unvisited branch at 8 absorbs the block at 12, which the branch at 0 leads to. */
  lemma SideEntrance() returns (s: Forming)
    ensures s.Ready() && s.Computes() && NothingToMerge(s.cx, s.before.blocks)
    ensures s.OwnExits() && !KeepsRuns(s.cx.code, s.succs, s.orig, LayoutOf(s.after))
  {
    SideUnmerged();
    SideSingles();
    SideAbsorbing();
    SideKept();
    SideBranches();
    s := FormingOf(SideContext(), SIDE_EDGES, SIDE_ADDRS, {0, 8}, SIDE_HOME, SIDE_KEPT);
    BranchesInto(SideContext(), SIDE_EDGES, SIDE_ADDRS, {0, 8}, SIDE_HOME, SIDE_KEPT, 0, 12);
  }

  // ----- tail duplication: a call whose return site is duplicated -----

  ghost function CallCode(): Code {
    map[0 := Insn(4, Jump(12)), 4 := Insn(4, Fall(None)), 8 := Insn(4, Jump(4)), 12 := Insn(4, Exit)]
  }

  const CALL_EDGES: Edges := map[0 := {12, 4}, 4 := {8}, 8 := {4}, 12 := {}]
  const CALL_ADDRS: seq<Pc> := [0, 4, 8, 12]

  ghost function CallContext(): Context {
    Context(CallCode(), {0, 12}, map[12 := {0}, 4 := {0, 8}, 8 := {4}])
  }

  ghost function CallAfter(): Tables {
    Tables(SingleBlocks([0, 8, 12]), map[4 := 0], map[0 := [(4, 8)], 8 := [(4, 8)]])
  }

  lemma CallSingles()
    ensures SingleCode(CallCode(), CALL_ADDRS)
  {
    var addrs := CALL_ADDRS;
    assert addrs[0] == 0 && addrs[1] == 4 && addrs[2] == 8 && addrs[3] == 12;
  }

  ghost function CallDuplication(): Duplication {
    CallSingles();
    SingleTable(CallCode(), CALL_ADDRS);
    Duplication(CallContext(), 100, CALL_EDGES, ByStart(SingleBlocks(CALL_ADDRS)), FreshTables(SingleBlocks(CALL_ADDRS)), {4},
                CallAfter())
  }

  lemma CallReady()
    ensures CallDuplication().Ready()
  {
    CallSingles();
    CallRecorded();
    SingleFresh(CallCode(), CALL_EDGES, CALL_ADDRS);
  }

  lemma CallRecorded()
    ensures Recorded(CALL_EDGES, CallContext().preds)
  {
  }

  lemma CallCandidate(p: Pc)
    requires p in CALL_ADDRS
    ensures Candidate(CallContext(), 100, Single(p)) <==> p == 4
  {
    assert |{4}| == 1 && |{0}| == 1 && |{0, 8}| == 2;
  }

  lemma CallCandidates(d: Pc)
    ensures d in {4} <==> CallDuplication().IsCandidate(d)
  {
    CallSingles();
    var blocks := SingleBlocks(CALL_ADDRS);
    if d == 4 {
      CallCandidate(4);
      assert blocks[1].start == d && Candidate(CallContext(), 100, blocks[1]);
    }
    if i :| 0 <= i < |blocks| && blocks[i].start == d && Candidate(CallContext(), 100, blocks[i]) {
      CallCandidate(CALL_ADDRS[i]);
    }
  }

  lemma CallReceivers(r: Pc)
    ensures Receives(CallContext(), SingleBlocks(CALL_ADDRS), 4, r) <==> r == 0 || r == 8
  {
    var cx, blocks := CallContext(), SingleBlocks(CALL_ADDRS);
    assert Lookup(cx.preds, 4) == {0, 8};
    assert blocks[0] == Single(0) && blocks[2] == Single(8);
    if r == 0 {
      assert blocks[0].start == r && blocks[0].lastPc in Lookup(cx.preds, 4) && IsDirect(cx.code, blocks[0].lastPc);
    }
    if r == 8 {
      assert blocks[2].start == r && blocks[2].lastPc in Lookup(cx.preds, 4) && IsDirect(cx.code, blocks[2].lastPc);
    }
  }

  lemma CallCopies(b: Pc)
    ensures HasCopies(CallContext(), FreshTables(SingleBlocks(CALL_ADDRS)), {4}, CallAfter().continuations, b)
  {
    CallReceivers(b);
    assert StartsOf([(4, 8)]) == [4];
    var after := ChainOf(CallAfter().continuations, b);
    assert after == if b == 0 || b == 8 then [b, 4] else [b];
    assert after[1..] == if b == 0 || b == 8 then [4] else [];
  }

  lemma CallDuplicated()
    ensures DistinctStarts(SingleBlocks(CALL_ADDRS))
    ensures Duplicated(CallContext(), ByStart(SingleBlocks(CALL_ADDRS)), FreshTables(SingleBlocks(CALL_ADDRS)), {4},
                       CallAfter().(blocks := SingleBlocks(CALL_ADDRS)))
  {
    CallSingles();
    SingleTable(CallCode(), CALL_ADDRS);
    CallReceivers(0);
    forall b
      ensures HasCopies(CallContext(), FreshTables(SingleBlocks(CALL_ADDRS)), {4}, CallAfter().continuations, b)
    {
      CallCopies(b);
    }
  }

  lemma CallKept()
    ensures Keeps(SingleBlocks(CALL_ADDRS), {4}, CallAfter().blocks)
  {
    var addrs, kept := CALL_ADDRS, [0, 8, 12];
    assert addrs[0] == 0 && addrs[2] == 8 && addrs[3] == 12;
    assert kept[0] == 0 && kept[1] == 8 && kept[2] == 12;
    KeptSingles(addrs, {4}, kept);
  }

  lemma CallComputes()
    ensures CallDuplication().Computes()
  {
    CallDuplicated();
    CallKept();
    forall d
      ensures d in {4} <==> CallDuplication().IsCandidate(d)
    {
      CallCandidates(d);
    }
  }

  lemma CallUnsafe()
    ensures !CallDuplication().OwnJumps()
  {
    var s := CallDuplication();
    assert s.before.blocks[0] == Single(0) && 0 in Lookup(s.cx.preds, 4) && s.cx.code[0].term == Jump(12);
    assert !JumpedTo(s.cx, s.before.blocks, 4);
  }

  lemma CallInside()
    ensures var s := CallDuplication();
            WellFormed(s.cx.code) && GoodBlocks(s.cx.code, s.orig) && InsideRecorded(s.cx.code, s.succs, s.orig)
  {
    CallSingles();
    SingleApart(CallCode(), CALL_ADDRS);
    SingleTable(CallCode(), CALL_ADDRS);
    CallStatic();
    SingleInside(CallCode(), CALL_EDGES, CALL_ADDRS);
  }

  lemma CallStatic()
    ensures AllStatic(CallCode(), CALL_EDGES)
  {
    forall p, q | p in CallCode() && q in CallCode() && StaticSuccessor(CallCode(), p, q)
      ensures q in Lookup(CALL_EDGES, p)
    {
      CallEdge(p, q);
    }
  }

  lemma CallEdge(p: Pc, q: Pc)
    requires p in CallCode() && q in CallCode() && StaticSuccessor(CallCode(), p, q)
    ensures q in Lookup(CALL_EDGES, p)
  {
  }

  /** Where all blocks were visited, an unsafe pass loses a run. */
  lemma UnsafeDuplication(s: Duplication)
    requires s.Ready() && s.Computes() && !s.OwnJumps()
    requires WellFormed(s.cx.code) && GoodBlocks(s.cx.code, s.orig) && InsideRecorded(s.cx.code, s.succs, s.orig)
    ensures !KeepsRuns(s.cx.code, s.succs, s.orig, LayoutOf(s.after))
  {
    DuplicationKeepsRuns(s);
  }

  lemma CallUnmerged()
    ensures NothingToMerge(CallContext(), SingleBlocks(CALL_ADDRS))
  {
    SinglesUnmerged(CallContext(), CALL_ADDRS);
  }

  /** The pass appends the return site to the call, where it runs in place of the callee. */
  lemma CallSkipped() returns (s: Duplication)
    ensures s.Ready() && s.Computes() && NothingToMerge(s.cx, s.before.blocks)
    ensures !KeepsRuns(s.cx.code, s.succs, s.orig, LayoutOf(s.after))
  {
    CallUnmerged();
    CallReady();
    CallComputes();
    CallUnsafe();
    CallInside();
    s := CallDuplication();
    UnsafeDuplication(s);
  }

  // ----- dispatch: a chain that ends below its start -----

  ghost function BackCode(): Code {
    map[0 := Insn(4, Exit), 4 := Insn(4, Jump(0))]
  }

  const BACK_ADDRS: seq<Pc> := [0, 4]
  const BACK_EDGES: Edges := map[4 := {0}]
  const BACK_CHAINS: map<Pc, seq<Pc>> := map[4 := [4, 0]]

  ghost function BackContext(): Context {
    Context(BackCode(), {4}, map[0 := {4}])
  }

  ghost function BackTables(): Tables {
    Tables([BasicBlock(4, 8, 2, 0)], map[0 := 4], map[4 := [(0, 4)]])
  }

  lemma BackSingles()
    ensures SingleCode(BackCode(), BACK_ADDRS)
  {
    assert BACK_ADDRS[0] == 0 && BACK_ADDRS[1] == 4;
  }

  lemma BackChosen() returns (g: GreedyChoice)
    ensures g.cx == BackContext() && g.blocks == SingleBlocks(BACK_ADDRS) && g.absorbed == {0}
  {
    BackSingles();
    SingleTable(BackCode(), BACK_ADDRS);
    var cx, blocks := BackContext(), SingleBlocks(BACK_ADDRS);
    assert blocks[0] == Single(0) && blocks[1] == Single(4);
    assert MergeTarget(cx, blocks[0]) == None && MergeTarget(cx, blocks[1]) == Some(0);
    g := Choice(cx, blocks, map[0 := 0, 4 := 1], {0}, map[0 := 1]);
  }

  lemma BackChains()
    ensures DistinctStarts(SingleBlocks(BACK_ADDRS))
    ensures AllChains(BackContext(), ByStart(SingleBlocks(BACK_ADDRS)), {0}, BACK_CHAINS)
  {
    BackSingles();
    SingleStarts(BACK_ADDRS);
    SingleOrig(BackCode(), BACK_ADDRS, 0);
    SingleOrig(BackCode(), BACK_ADDRS, 4);
    BackFollows(ByStart(SingleBlocks(BACK_ADDRS)));
  }

  lemma BackFollows(orig: Blocks)
    requires orig.Keys == {0, 4} && orig[0] == Single(0) && orig[4] == Single(4)
    ensures AllChains(BackContext(), orig, {0}, BACK_CHAINS)
  {
    var cx := BackContext();
    assert MergeTarget(cx, orig[4]) == Some(0) && MergeTarget(cx, orig[0]) == None;
    assert Follows(cx, orig, {0}, 4, 0);
    assert orig.Keys - {0} == {4};
  }

  lemma BackMerged()
    ensures DistinctStarts(SingleBlocks(BACK_ADDRS))
    ensures MergedTables(ByStart(SingleBlocks(BACK_ADDRS)), BACK_CHAINS, BackTables())
  {
    BackSingles();
    SingleOrig(BackCode(), BACK_ADDRS, 0);
    SingleOrig(BackCode(), BACK_ADDRS, 4);
    BackBlocks(ByStart(SingleBlocks(BACK_ADDRS)));
    BackRanges(ByStart(SingleBlocks(BACK_ADDRS)));
  }

  lemma BackBlocks(orig: Blocks)
    requires 0 in orig && orig[0] == Single(0) && 4 in orig && orig[4] == Single(4)
    ensures MergedBlocks(orig, BACK_CHAINS, BackTables().blocks)
  {
    var blocks := BackTables().blocks;
    StartsFromPairs(blocks);
    var one, both := [0], [4, 0];
    assert one[1..] == [] && SumCounts(orig, one) == 1;
    assert both[1..] == one && SumCounts(orig, both) == 1 + SumCounts(orig, one);
    assert blocks[0].start == 4;
  }

  lemma BackRanges(orig: Blocks)
    requires 0 in orig && orig[0] == Single(0) && 4 in orig && orig[4] == Single(4)
    ensures MergedContinuations(orig, BACK_CHAINS, BackTables().continuations)
    ensures MergedRedirects(BACK_CHAINS, BackTables().absorbed)
  {
    assert [4, 0][1..] == [0] && RangesOf(orig, [0]) == [(0, 4)];
  }

  lemma BackSlot()
    ensures DistinctStarts(SingleBlocks(BACK_ADDRS))
    ensures var orig, l := ByStart(SingleBlocks(BACK_ADDRS)), Layout(BACK_CHAINS, map[0 := 4]);
            Chained(orig, l) && !SlotOf(orig, l, 4)
  {
    BackSingles();
    SingleTable(BackCode(), BACK_ADDRS);
    var orig, l := ByStart(SingleBlocks(BACK_ADDRS)), Layout(BACK_CHAINS, map[0 := 4]);
    assert l.chains[4][0] == 4 && l.chains[4][1] == 0;
    assert ChainEnd(orig, l.chains[4]) == 4;
    assert Least(l.chains.Keys) == 4;
  }

  /** Merging that leaves a block function without its slot. */
  lemma MergeLosesSlot(g: GreedyChoice, succs: Edges, chains: map<Pc, seq<Pc>>, t: Tables, l: Layout, b: Pc)
    requires WellFormed(g.cx.code) && EvenCode(g.cx.code) && GoodBlocks(g.cx.code, ByStart(g.blocks))
    requires EdgesReachBlocks(g.cx.code, succs, ByStart(g.blocks)) && Recorded(succs, g.cx.preds)
    requires AllChains(g.cx, ByStart(g.blocks), g.absorbed, chains) && MergedTables(ByStart(g.blocks), chains, t)
    requires l == LayoutOf(t) && Chained(ByStart(g.blocks), l) && b in l.chains && !SlotOf(ByStart(g.blocks), l, b)
    ensures Faithful(g.cx.code, succs, ByStart(g.blocks), LayoutOf(t))
    ensures !KeepsRuns(g.cx.code, succs, ByStart(g.blocks), LayoutOf(t))
  {
    MergedFaithful(g, succs, chains, t);
    MergeKeepsRuns(g, succs, chains, t);
    FaithfulHeaded(g.cx.code, succs, ByStart(g.blocks), l);
    SlotsExact(g.cx.code, ByStart(g.blocks), l);
  }

  lemma BackLayout()
    ensures LayoutOf(BackTables()) == Layout(BACK_CHAINS, map[0 := 4])
  {
    BackSingles();
    SingleTable(BackCode(), BACK_ADDRS);
    BackMerged();
    MergedLayout(ByStart(SingleBlocks(BACK_ADDRS)), BACK_CHAINS, BackTables());
  }

  lemma BackEven()
    ensures EvenCode(BackCode()) && Recorded(BACK_EDGES, BackContext().preds)
  {
  }

  lemma BackTable()
    ensures WellFormed(BackCode()) && EvenCode(BackCode()) && DistinctStarts(SingleBlocks(BACK_ADDRS))
    ensures GoodBlocks(BackCode(), ByStart(SingleBlocks(BACK_ADDRS))) && Recorded(BACK_EDGES, BackContext().preds)
    ensures EdgesReachBlocks(BackCode(), BACK_EDGES, ByStart(SingleBlocks(BACK_ADDRS)))
  {
    BackSingles();
    BackEven();
    SingleApart(BackCode(), BACK_ADDRS);
    SingleTable(BackCode(), BACK_ADDRS);
    SingleEdges(BackCode(), BACK_EDGES, BACK_ADDRS);
  }

  /** Merging leaves a block function that starts where its text ends: the dispatch table is
      empty and even the entry is not found. */
  lemma BackwardChain() returns (g: GreedyChoice, chains: map<Pc, seq<Pc>>, t: Tables)
    ensures AllChains(g.cx, ByStart(g.blocks), g.absorbed, chains) && MergedTables(ByStart(g.blocks), chains, t)
    ensures Faithful(g.cx.code, BACK_EDGES, ByStart(g.blocks), LayoutOf(t))
    ensures 4 in g.cx.entries && !KeepsRuns(g.cx.code, BACK_EDGES, ByStart(g.blocks), LayoutOf(t))
  {
    g := BackChosen();
    chains, t := BACK_CHAINS, BackTables();
    BackTable();
    BackChains();
    BackMerged();
    BackLayout();
    BackSlot();
    MergeLosesSlot(g, BACK_EDGES, chains, t, Layout(BACK_CHAINS, map[0 := 4]), 4);
  }

  // ----- dispatch: an address masked to another slot -----

  ghost function FarCode(): Code {
    map[0x1_0000 := Insn(4, Exit), 0x2_0004 := Insn(4, Exit)]
  }

  const FAR_ADDRS: seq<Pc> := [0x1_0000, 0x2_0004]

  lemma FarStart()
    ensures IsPowerOfTwo(0x1_0000)
  {
    assert Pow2(4) == 16;
    Pow2Add(4, 4);
    Pow2Add(8, 8);
  }

  lemma FarSingles()
    ensures SingleCode(FarCode(), FAR_ADDRS) && EvenCode(FarCode())
  {
    assert FAR_ADDRS[0] == 0x1_0000 && FAR_ADDRS[1] == 0x2_0004;
  }

  /** Fresh blocks of which one lies beyond twice the start of the text. */
  lemma MaskedBlock(code: Code, succs: Edges, orig: Blocks, l: Layout, start: Pc, b: Pc)
    requires WellFormed(code) && EvenCode(code) && GoodBlocks(code, orig) && Faithful(code, succs, orig, l)
    requires l.absorbed == map[] && (forall c | c in l.chains :: l.chains[c] == [c])
    requires IsPowerOfTwo(start) && IsLeast(l.chains.Keys, start) && b in l.chains && b >= 2 * start
    ensures !KeepsRuns(code, succs, orig, l)
  {
    FaithfulHeaded(code, succs, orig, l);
    FaithfulKept(code, succs, orig, l);
    FreshSlots(code, orig, l);
    assert Least(l.chains.Keys) == start;
  }

  lemma FreshChains(addrs: seq<Pc>)
    requires Ascending(addrs)
    ensures var l := LayoutOf(FreshTables(SingleBlocks(addrs)));
            && l.absorbed == map[] && (forall b | b in l.chains :: l.chains[b] == [b])
            && (forall b :: b in l.chains <==> b in addrs)
  {
    SingleStarts(addrs);
  }

  lemma MaskedSingles(code: Code, succs: Edges, addrs: seq<Pc>, start: Pc, b: Pc)
    requires SingleCode(code, addrs) && EvenCode(code) && IsPowerOfTwo(start)
    requires start in addrs && (forall a | a in addrs :: start <= a) && b in addrs && b >= 2 * start
    ensures DistinctStarts(SingleBlocks(addrs))
    ensures !KeepsRuns(code, succs, ByStart(SingleBlocks(addrs)), LayoutOf(FreshTables(SingleBlocks(addrs))))
  {
    SingleApart(code, addrs);
    SingleTable(code, addrs);
    SingleFresh(code, succs, addrs);
    FreshChains(addrs);
    MaskedBlock(code, succs, ByStart(SingleBlocks(addrs)), LayoutOf(FreshTables(SingleBlocks(addrs))), start, b);
  }

  lemma FarAddresses()
    ensures 0x1_0000 in FAR_ADDRS && 0x2_0004 in FAR_ADDRS && forall a | a in FAR_ADDRS :: 0x1_0000 <= a
  {
    assert FAR_ADDRS[0] == 0x1_0000 && FAR_ADDRS[1] == 0x2_0004;
  }

  /** The text starts at a power of two and reaches beyond twice that: the block there is
      looked up in the slot of another address. */
  lemma FarBlockMasked() returns (code: Code, addrs: seq<Pc>)
    ensures SingleCode(code, addrs) && DistinctStarts(SingleBlocks(addrs))
    ensures Faithful(code, map[], ByStart(SingleBlocks(addrs)), LayoutOf(FreshTables(SingleBlocks(addrs))))
    ensures !KeepsRuns(code, map[], ByStart(SingleBlocks(addrs)), LayoutOf(FreshTables(SingleBlocks(addrs))))
  {
    code, addrs := FarCode(), FAR_ADDRS;
    FarSingles();
    FarAddresses();
    FarStart();
    SingleFresh(code, map[], addrs);
    MaskedSingles(code, map[], addrs, 0x1_0000, 0x2_0004);
  }

  // ----- dispatch: a computed jump past the table -----

  ghost function JumpCode(): Code {
    map[0 := Insn(4, JumpDyn)]
  }

  const JUMP_ADDRS: seq<Pc> := [0]

  lemma JumpSingles()
    ensures SingleCode(JumpCode(), JUMP_ADDRS) && EvenCode(JumpCode())
  {
    assert JUMP_ADDRS[0] == 0;
  }

  ghost function JumpsTo(q: Pc): Machine<int> {
    Machine((p: Pc, s: int) => s, (p: Pc, s: int) => false, (p: Pc, s: int) => q)
  }

  /** An even address past a text that starts at 0 has no slot. */
  lemma PastText(em: Emitted, q: Pc)
    requires 0 in em.blocks && q % 2 == 0 && q >= PcEnd(em)
    ensures Dispatched(em, q) == None
  {
    assert TextStart(em) == 0;
  }

  lemma JumpSlots(l: Layout)
    requires DistinctStarts(SingleBlocks(JUMP_ADDRS)) && l == LayoutOf(FreshTables(SingleBlocks(JUMP_ADDRS)))
    requires Faithful(JumpCode(), map[], ByStart(SingleBlocks(JUMP_ADDRS)), l)
    ensures HasSlots(JumpCode(), ByStart(SingleBlocks(JUMP_ADDRS)), l) && 0 in l.chains
  {
    var code, orig := JumpCode(), ByStart(SingleBlocks(JUMP_ADDRS));
    JumpSingles();
    SingleApart(code, JUMP_ADDRS);
    SingleTable(code, JUMP_ADDRS);
    FreshChains(JUMP_ADDRS);
    assert JUMP_ADDRS[0] == 0;
    FaithfulHeaded(code, map[], orig, l);
    FreshSlots(code, orig, l);
    assert Least(l.chains.Keys) == 0;
  }

  /** The layout is faithful and the block function has its slot, but the computed jump goes
      past the table, where the code stops. */
  lemma JumpAstray() returns (code: Code, addrs: seq<Pc>, m: Machine<int>)
    ensures SingleCode(code, addrs) && DistinctStarts(SingleBlocks(addrs)) && RunRecorded(code, map[], m, Running(0, 0), 1)
    ensures KeepsRuns(code, map[], ByStart(SingleBlocks(addrs)), LayoutOf(FreshTables(SingleBlocks(addrs))))
    ensures !KeepsRun(code, ByStart(SingleBlocks(addrs)), LayoutOf(FreshTables(SingleBlocks(addrs))), m, 0, 0, 1)
  {
    code, addrs := JumpCode(), JUMP_ADDRS;
    JumpSingles();
    SingleApart(code, addrs);
    SingleTable(code, addrs);
    SingleFresh(code, map[], addrs);
    var orig, l := ByStart(SingleBlocks(addrs)), LayoutOf(FreshTables(SingleBlocks(addrs)));
    JumpSlots(l);
    FaithfulKept(code, map[], orig, l);
    m := JumpsPast(code, orig, l);
    assert RunRecorded(code, map[], m, Step(code, m, Running(0, 0)), 0);
    FaithfulLayoutTrace(code, map[], orig, l, m, 0, 0, 1);
  }

  /** Its run stops after the jump and does not land. */
  lemma StopsOff(code: Code, em: Emitted, q: Pc)
    requires code == JumpCode() && q !in code && Dispatched(em, q) == None
    ensures Step(code, JumpsTo(q), Running(0, 0)).Halted? && !RunLands(code, em, JumpsTo(q), Running(0, 0), 1)
  {
    assert !LandsAt(code, em, JumpsTo(q), Running(0, 0));
  }

  lemma JumpsPast(code: Code, orig: Blocks, l: Layout) returns (m: Machine<int>)
    requires code == JumpCode() && Sized(code) && Chained(orig, l) && 0 in l.chains
    ensures Step(code, m, Running(0, 0)).Halted? && !LandsIn(code, orig, l, m, 0, 0, 1)
  {
    var em := Emission(code, orig, l);
    assert 0 in em.blocks;
    var q := 2 * (PcEnd(em) + 1);
    m := JumpsTo(q);
    PastText(em, q);
    StopsOff(code, em, q);
  }

  // ----- decoding: segments that overlap -----

  /** Long instructions start with 1, short ones with 2. */
  function TwoKinds(bytes: seq<Byte>, pc: nat): Option<T.Decoding> {
    if |bytes| >= 4 && bytes[0] == 1 then Some(T.Decoding(4, 0))
    else if |bytes| >= 2 && bytes[0] == 2 then Some(T.Decoding(2, 0))
    else None
  }

  const LONG_SEGMENT := T.Segment(0, [1, 0, 0, 0])
  const SHORT_SEGMENT := T.Segment(2, [2, 0])

  ghost function AfterSweep(g: T.Segment, first: nat, before: seq<T.Slot>): seq<T.Slot> {
    seq(|before|, i requires 0 <= i < |before| => T.SlotAfter(TwoKinds, g, first, before[i], i))
  }

  lemma LongFound()
    ensures T.Found(TwoKinds, LONG_SEGMENT, 0) && T.IsLong(T.InstrAt(TwoKinds, LONG_SEGMENT, 0))
    ensures T.InstrAt(TwoKinds, LONG_SEGMENT, 1) == None
  {
    var code: seq<Byte> := [1, 0, 0, 0];
    assert code[2 * 0..] == code && code[2 * 1..] == [0, 0];
  }

  lemma ShortFound()
    ensures T.Found(TwoKinds, SHORT_SEGMENT, 0)
  {
    var code: seq<Byte> := [2, 0];
    assert code[2 * 0..] == code;
  }

  /** The second segment starts inside the last instruction of the first. */
  lemma SegmentsOverlap() returns (decode: T.Decoder, a: T.Segment, b: T.Segment, mid: seq<T.Slot>, after: seq<T.Slot>)
    ensures T.Sound(decode) && T.Swept(decode, a, 0, [T.EMPTY_SLOT, T.EMPTY_SLOT], mid) && T.NoneInside(mid)
    ensures b.start == a.start + 2 && T.Swept(decode, b, 1, mid, after) && !T.NoneInside(after)
  {
    decode, a, b := TwoKinds, LONG_SEGMENT, SHORT_SEGMENT;
    mid := AfterSweep(a, 0, [T.EMPTY_SLOT, T.EMPTY_SLOT]);
    after := AfterSweep(b, 1, mid);
    LongFound();
    ShortFound();
    assert T.IsLong(mid[0].instr) && mid[1].instr.None?;
    assert T.CutsInto(decode, b, 1, mid, 0);
    T.SweepApart(decode, b, 1, mid, after);
  }
}
