/**
  How the passes fit together: what each one leaves is what the next one expects.
 */
module Stages {
  import opened Code
  import opened Layout
  import opened Formation
  import opened Merge
  import opened Tables
  import opened TailDup
  import opened Superblock

  /** The tables of a fresh block table. */
  ghost function FreshTables(blocks: seq<BasicBlock>): Tables {
    Tables(blocks, map[], map[])
  }

  lemma FreshTablesTidy(blocks: seq<BasicBlock>)
    requires DistinctStarts(blocks) && DistinctLast(blocks)
    ensures Tidy(ByStart(blocks), FreshTables(blocks))
    ensures LayoutOf(FreshTables(blocks)) == FreshLayout(ByStart(blocks))
  {
    FreshTablesLayout(blocks);
  }

  lemma FreshTablesLayout(blocks: seq<BasicBlock>)
    requires DistinctStarts(blocks)
    ensures LayoutOf(FreshTables(blocks)) == FreshLayout(ByStart(blocks))
  {
    var l := LayoutOf(FreshTables(blocks));
    assert forall b | b in l.chains :: b in ByStart(blocks) && l.chains[b] == [b];
    assert l.chains == FreshLayout(ByStart(blocks)).chains;
  }

  // ----- merging leaves tidy tables -----

  lemma MergedWithin(orig: Blocks, chains: map<Pc, seq<Pc>>, merged: seq<BasicBlock>)
    requires MergedBlocks(orig, chains, merged)
    requires forall b | b in chains :: chains[b] != [] && chains[b][0] == b
    requires forall b | b in orig :: orig[b].start == b
    ensures Within(orig, merged)
  {
  }

  lemma MergedEnds(orig: Blocks, chains: map<Pc, seq<Pc>>, t: Tables, i: nat)
    requires MergedTables(orig, chains, t) && i < |t.blocks|
    requires forall b | b in chains :: chains[b] != [] && chains[b][0] == b
    requires forall b | b in orig :: orig[b].start == b
    ensures EndsChain(orig, t.continuations, t.blocks[i])
  {
    ChainOfMerged(orig, chains, t.continuations, t.blocks[i].start);
  }

  /** Blocks of a chain other than its head were absorbed. */
  lemma TailAbsorbed(cx: Context, orig: Blocks, absorbed: set<Pc>, chains: map<Pc, seq<Pc>>, h: Pc, j: nat)
    requires AllChains(cx, orig, absorbed, chains) && h in chains && 0 < j < |chains[h]|
    ensures chains[h][j] in absorbed && chains[h][j] in orig && chains[h][j] !in chains
  {
    assert Follows(cx, orig, absorbed, chains[h][j - 1], chains[h][j - 1 + 1]);
  }

  lemma MergedNested(cx: Context, orig: Blocks, absorbed: set<Pc>, chains: map<Pc, seq<Pc>>, t: Tables)
    requires AllChains(cx, orig, absorbed, chains) && MergedTables(orig, chains, t)
    requires forall b | b in orig :: orig[b].start == b
    ensures Nested(t)
  {
    forall b, i | b in t.continuations && 0 <= i < |t.continuations[b]|
      ensures !HasStart(t.blocks, t.continuations[b][i].0)
    {
      assert t.continuations[b][i].0 == chains[b][i + 1];
      TailAbsorbed(cx, orig, absorbed, chains, b, i + 1);
    }
  }

  /** The head of a chain is what its second block is redirected to. */
  lemma HeadIsTarget(cx: Context, orig: Blocks, absorbed: set<Pc>, chains: map<Pc, seq<Pc>>, redirect: map<Pc, Pc>, b: Pc)
    requires DistinctLastPcs(orig) && AllChains(cx, orig, absorbed, chains) && MergedRedirects(chains, redirect)
    requires b in chains && |chains[b]| > 1
    ensures b in redirect.Values
  {
    var c := chains[b][1];
    assert c == chains[b][1..][0];
    var h := redirect[c];
    var j :| 0 <= j < |chains[h][1..]| && chains[h][1..][j] == c;
    ChainsMeetAtHead(cx, orig, absorbed, chains[b], 1, chains[h], j + 1);
  }

  lemma MergedTargets(cx: Context, orig: Blocks, absorbed: set<Pc>, chains: map<Pc, seq<Pc>>, t: Tables)
    requires DistinctLastPcs(orig) && AllChains(cx, orig, absorbed, chains) && MergedTables(orig, chains, t)
    ensures t.continuations.Keys == t.absorbed.Values
  {
    forall b | b in t.continuations
      ensures b in t.absorbed.Values
    {
      HeadIsTarget(cx, orig, absorbed, chains, t.absorbed, b);
    }
  }

  lemma MergedTidy(g: GreedyChoice, chains: map<Pc, seq<Pc>>, t: Tables)
    requires AllChains(g.cx, ByStart(g.blocks), g.absorbed, chains) && MergedTables(ByStart(g.blocks), chains, t)
    ensures Tidy(ByStart(g.blocks), t)
  {
    var orig := ByStart(g.blocks);
    StartsMatch(g.blocks);
    DistinctLastByStart(g.blocks);
    MergedDistinctLast(g.cx, orig, g.absorbed, chains, t.blocks);
    MergedWithin(orig, chains, t.blocks);
    MergedWhole(orig, chains, t.continuations);
    forall i | 0 <= i < |t.blocks|
      ensures EndsChain(orig, t.continuations, t.blocks[i])
    {
      MergedEnds(orig, chains, t, i);
    }
    MergedNested(g.cx, orig, g.absorbed, chains, t);
    MergedTargets(g.cx, orig, g.absorbed, chains, t);
  }

  lemma StartsMatch(blocks: seq<BasicBlock>)
    requires DistinctStarts(blocks)
    ensures forall b | b in ByStart(blocks) :: ByStart(blocks)[b].start == b
  {
    forall b | b in ByStart(blocks)
      ensures ByStart(blocks)[b].start == b
    {
      var i :| 0 <= i < |blocks| && blocks[i].start == b;
    }
  }

  // ----- and a faithful layout -----

  lemma ChoiceClaimed(g: GreedyChoice)
    ensures AllClaimed(g.cx, ByStart(g.blocks), g.absorbed)
  {
    var orig := ByStart(g.blocks);
    forall t | t in g.absorbed
      ensures exists a | a in orig :: MergeTarget(g.cx, orig[a]) == Some(t)
    {
      var b := g.blocks[g.absorber[t]];
      assert b.start in orig && orig[b.start] == b;
    }
  }

  lemma RedirectsAbsorbed(cx: Context, orig: Blocks, absorbed: set<Pc>, chains: map<Pc, seq<Pc>>, t: Tables)
    requires AllChains(cx, orig, absorbed, chains) && MergedRedirects(chains, t.absorbed)
    ensures t.absorbed.Keys <= absorbed * orig.Keys && t.absorbed.Values <= chains.Keys
  {
    forall c | c in t.absorbed
      ensures c in absorbed && c in orig
    {
      var h := t.absorbed[c];
      var j :| 0 <= j < |chains[h][1..]| && chains[h][1..][j] == c;
      TailAbsorbed(cx, orig, absorbed, chains, h, j + 1);
    }
  }

  /** Merging a fresh table whose recorded edges reach blocks keeps every recorded run. */
  lemma MergedFaithful(g: GreedyChoice, succs: Edges, chains: map<Pc, seq<Pc>>, t: Tables)
    requires WellFormed(g.cx.code) && GoodBlocks(g.cx.code, ByStart(g.blocks))
    requires EdgesReachBlocks(g.cx.code, succs, ByStart(g.blocks)) && Recorded(succs, g.cx.preds)
    requires AllChains(g.cx, ByStart(g.blocks), g.absorbed, chains) && MergedTables(ByStart(g.blocks), chains, t)
    ensures Faithful(g.cx.code, succs, ByStart(g.blocks), LayoutOf(t))
  {
    var orig := ByStart(g.blocks);
    ChoiceClaimed(g);
    RedirectsAbsorbed(g.cx, orig, g.absorbed, chains, t);
    MergeIsFaithful(g.cx, succs, orig, g.absorbed, chains, t.absorbed);
    StartsMatch(g.blocks);
    MergedLayout(orig, chains, t);
  }

  // ----- tail duplication leaves untangled tables -----

  lemma KeptWithin(orig: Blocks, blocks: seq<BasicBlock>, removed: set<Pc>, kept: seq<BasicBlock>)
    requires Within(orig, blocks) && Keeps(blocks, removed, kept)
    ensures Within(orig, kept)
  {
    forall i | 0 <= i < |kept|
      ensures kept[i].start in orig && RangeOf(orig, kept[i].start) == (kept[i].start, kept[i].end)
    {
      assert kept[i] in blocks;
    }
  }

  lemma DuplicatedNested(s: Pass)
    ensures Nested(s.after)
  {
    forall b, i | b in s.after.continuations && 0 <= i < |s.after.continuations[b]|
      ensures !HasStart(s.after.blocks, s.after.continuations[b][i].0)
    {
      InsideDuplicated(s, b, i + 1);
      assert s.NewChain(b)[i + 1] == s.after.continuations[b][i].0;
    }
  }

  /** Appended blocks of before are no block functions after. */
  lemma AppendedGone(s: Pass, b: Pc, j: nat)
    requires 0 < j < |s.OldChain(b)|
    ensures !HasStart(s.after.blocks, s.OldChain(b)[j])
  {
    KeptBlocks(s);
    assert s.OldChain(b)[j] == s.before.continuations[b][j - 1].0;
  }

  lemma CopyGone(s: Pass, b: Pc, c: Pc)
    requires AreCopies(s.cx, s.before.blocks, s.dups, b, s.Copies(b)) && c in s.Copies(b)
    ensures !HasStart(s.after.blocks, c)
  {
    KeptBlocks(s);
  }

  lemma InsideDuplicated(s: Pass, b: Pc, j: nat)
    requires 0 < j < |s.NewChain(b)|
    ensures !HasStart(s.after.blocks, s.NewChain(b)[j])
  {
    DuplicatedChain(s, b);
    if j < |s.OldChain(b)| {
      AppendedGone(s, b, j);
    } else {
      CopyAt(s.OldChain(b), s.Copies(b), j);
      CopyGone(s, b, s.NewChain(b)[j]);
    }
  }

  lemma CopyAt(chain: seq<Pc>, copies: seq<Pc>, j: nat)
    requires |chain| <= j < |chain + copies|
    ensures (chain + copies)[j] in copies
  {
  }

  /** Targets of redirections stay targets. */
  lemma TargetsStay(s: Pass, b: Pc)
    requires b in s.before.absorbed.Values
    ensures b in s.after.absorbed.Values
  {
    var a :| a in s.before.absorbed && s.before.absorbed[a] == b;
    FaithfulRedirect(s.cx.code, s.succs, s.orig, s.before, a);
    NotDuplicated(s, a);
    assert a in s.after.absorbed && s.after.absorbed[a] == b;
  }

  lemma NotDuplicated(s: Pass, a: Pc)
    requires !HasStart(s.before.blocks, a)
    ensures a !in s.dups
  {
  }

  /** A block without continuations ends in its own last instruction. */
  lemma AloneEnds(s: Pass, k: nat)
    requires k < |s.before.blocks| && s.before.blocks[k].start !in s.before.continuations
    ensures var b := s.before.blocks[k];
            b.start in s.orig && b.lastPc == s.orig[b.start].lastPc && s.OldChain(b.start) == [b.start]
  {
    assert s.OldChain(s.before.blocks[k].start) == [s.before.blocks[k].start];
    assert EndsChain(s.orig, s.before.continuations, s.before.blocks[k]);
  }

  lemma DuplicatedUntangled(s: Pass, i: nat)
    requires i < |s.after.blocks| && s.after.blocks[i].start !in s.after.absorbed.Values
    ensures s.after.blocks[i].start in s.orig
    ensures s.after.blocks[i].lastPc == s.orig[s.after.blocks[i].start].lastPc
    ensures ContinuationsOf(s.after.continuations, s.after.blocks[i].start) != [] ==>
              IsJumpAt(s.cx.code, s.after.blocks[i].lastPc)
  {
    var b := s.after.blocks[i];
    assert b in s.after.blocks && b in s.before.blocks;
    var k :| 0 <= k < |s.before.blocks| && s.before.blocks[k] == b;
    if b.start in s.before.continuations {
      TargetsStay(s, b.start);
    }
    AloneEnds(s, k);
    DuplicatedChain(s, b.start);
    if s.Copies(b.start) != [] {
      ReceiverJumps(s, k, s.Copies(b.start)[0]);
    }
  }

  lemma ReceiverJumps(s: Pass, k: nat, d: Pc)
    requires k < |s.before.blocks| && d in s.dups && Receives(s.cx, s.before.blocks, d, s.before.blocks[k].start)
    ensures IsJumpAt(s.cx.code, s.before.blocks[k].lastPc)
  {
    var i := ReceiverSurvives(s, d, s.before.blocks[k].start);
    assert StartIndex(s.before.blocks, s.before.blocks[k].start) == k;
    assert StartIndex(s.before.blocks, s.before.blocks[i].start) == i;
  }

  /** What tail duplication leaves is what superblock formation expects. */
  lemma UntangledAfter(s: Pass)
    ensures Untangled(s.cx.code, s.orig, s.after)
  {
    KeptWithin(s.orig, s.before.blocks, s.dups, s.after.blocks);
    DuplicatedNested(s);
    forall i | 0 <= i < |s.after.blocks| && s.after.blocks[i].start !in s.after.absorbed.Values
      ensures s.after.blocks[i].lastPc == s.orig[s.after.blocks[i].start].lastPc
      ensures ContinuationsOf(s.after.continuations, s.after.blocks[i].start) != [] ==>
                IsJumpAt(s.cx.code, s.after.blocks[i].lastPc)
    {
      DuplicatedUntangled(s, i);
    }
  }

  // ----- instruction counts -----

  function TotalCount(blocks: seq<BasicBlock>): nat {
    if blocks == [] then 0 else blocks[0].count + TotalCount(blocks[1..])
  }

  ghost function StartSeq(blocks: seq<BasicBlock>): (r: seq<Pc>)
    ensures |r| == |blocks| && forall i | 0 <= i < |r| :: r[i] == blocks[i].start
  {
    if blocks == [] then [] else [blocks[0].start] + StartSeq(blocks[1..])
  }

  lemma {:induction false} TotalOfFresh(orig: Blocks, blocks: seq<BasicBlock>)
    requires forall i | 0 <= i < |blocks| :: blocks[i].start in orig && orig[blocks[i].start] == blocks[i]
    ensures AllIn(orig, StartSeq(blocks)) && TotalCount(blocks) == SumCounts(orig, StartSeq(blocks))
  {
    if blocks != [] {
      TotalOfFresh(orig, blocks[1..]);
      assert StartSeq(blocks)[1..] == StartSeq(blocks[1..]);
    }
  }

  lemma {:induction false} TotalOfMerged(orig: Blocks, chains: map<Pc, seq<Pc>>, merged: seq<BasicBlock>)
    requires forall k | 0 <= k < |merged| :: merged[k].start in chains && MergedBlock(orig, chains[merged[k].start], merged[k])
    ensures AllIn(orig, Flatten(chains, StartSeq(merged)))
    ensures TotalCount(merged) == SumCounts(orig, Flatten(chains, StartSeq(merged)))
  {
    if merged != [] {
      TotalOfMerged(orig, chains, merged[1..]);
      assert StartSeq(merged)[1..] == StartSeq(merged[1..]);
      assert MergedBlock(orig, chains[merged[0].start], merged[0]);
      SumConcat(orig, chains[merged[0].start], Flatten(chains, StartSeq(merged[1..])));
    }
  }

  lemma {:induction false} SumOfSome(orig: Blocks, a: seq<Pc>, b: seq<Pc>)
    requires NoDuplicates(a) && NoDuplicates(b)
    requires AllIn(orig, a) && AllIn(orig, b)
    requires forall c | c in a :: c in b
    ensures SumCounts(orig, a) <= SumCounts(orig, b)
    decreases |a|
  {
    if a != [] {
      assert a[0] in a && a[0] in b;
      var k :| 0 <= k < |b| && b[k] == a[0];
      var rest := b[..k] + b[k + 1..];
      SumRemove(orig, b, k);
      SplitOff(b, k, rest);
      SplitOff(a, 0, a[1..]);
      SumOfSome(orig, a[1..], rest);
    }
  }

  lemma SumWithout(orig: Blocks, a: seq<Pc>, b: seq<Pc>, x: Pc)
    requires NoDuplicates(a) && NoDuplicates(b) && AllIn(orig, a) && AllIn(orig, b)
    requires (forall c | c in a :: c in b) && x in b && x !in a && x in orig && orig[x].count > 0
    ensures SumCounts(orig, a) < SumCounts(orig, b)
  {
    SumOfSome(orig, a + [x], b);
    SumConcat(orig, a, [x]);
  }

  lemma StartSeqs(blocks: seq<BasicBlock>)
    requires DistinctStarts(blocks)
    ensures NoDuplicates(StartSeq(blocks)) && forall b :: b in StartSeq(blocks) <==> HasStart(blocks, b)
  {
  }

  lemma SomeBlockLost(orig: Blocks, chains: map<Pc, seq<Pc>>) returns (c: Pc)
    requires PairwiseDisjoint(chains) && !Partitions(orig, chains)
    ensures c in orig && forall h | h in chains :: c !in chains[h]
  {
    c :| c in orig && !exists h :: InChain(chains, h, c);
    forall h | h in chains
      ensures c !in chains[h]
    {
      assert !InChain(chains, h, c);
    }
  }

  lemma LessWhenLost(orig: Blocks, chains: map<Pc, seq<Pc>>, starts: seq<Pc>, heads: seq<Pc>)
    requires PairwiseDisjoint(chains) && !Partitions(orig, chains)
    requires AllIn(orig, starts) && NoDuplicates(starts) && (forall c | c in orig :: c in starts && orig[c].count > 0)
    requires NoDuplicates(heads) && (forall h | h in heads :: h in chains) && AllIn(orig, Flatten(chains, heads))
    ensures SumCounts(orig, Flatten(chains, heads)) < SumCounts(orig, starts)
  {
    var c := SomeBlockLost(orig, chains);
    FlattenNoDuplicates(chains, heads);
    FlattenElements(chains, heads);
    SumWithout(orig, Flatten(chains, heads), starts, c);
  }

  lemma CountsIffPartition(orig: Blocks, chains: map<Pc, seq<Pc>>, starts: seq<Pc>, heads: seq<Pc>)
    requires PairwiseDisjoint(chains) && (forall h | h in chains :: AllIn(orig, chains[h]))
    requires NoDuplicates(starts) && (forall c :: c in starts <==> c in orig) && (forall c | c in orig :: orig[c].count > 0)
    requires NoDuplicates(heads) && (forall h :: h in heads <==> h in chains)
    requires AllIn(orig, Flatten(chains, heads)) && AllIn(orig, starts)
    ensures SumCounts(orig, Flatten(chains, heads)) == SumCounts(orig, starts) <==> Partitions(orig, chains)
    ensures SumCounts(orig, Flatten(chains, heads)) <= SumCounts(orig, starts)
  {
    if Partitions(orig, chains) {
      CountsConserved(orig, chains, starts, heads);
    } else {
      LessWhenLost(orig, chains, starts, heads);
    }
  }

  lemma HeadSeq(orig: Blocks, chains: map<Pc, seq<Pc>>, merged: seq<BasicBlock>)
    requires MergedBlocks(orig, chains, merged)
    ensures NoDuplicates(StartSeq(merged)) && (forall h :: h in StartSeq(merged) <==> h in chains)
    ensures forall h | h in chains :: AllIn(orig, chains[h])
    ensures AllIn(orig, Flatten(chains, StartSeq(merged)))
    ensures TotalCount(merged) == SumCounts(orig, Flatten(chains, StartSeq(merged)))
  {
    StartSeqs(merged);
    TotalOfMerged(orig, chains, merged);
    ChainsIn(orig, chains, merged);
  }

  lemma ChainsIn(orig: Blocks, chains: map<Pc, seq<Pc>>, merged: seq<BasicBlock>)
    requires MergedBlocks(orig, chains, merged)
    ensures forall h | h in chains :: AllIn(orig, chains[h])
  {
    forall h | h in chains
      ensures AllIn(orig, chains[h])
    {
      var k :| 0 <= k < |merged| && merged[k].start == h;
    }
  }

  lemma FreshSeq(blocks: seq<BasicBlock>)
    requires DistinctStarts(blocks) && forall i | 0 <= i < |blocks| :: blocks[i].count > 0
    ensures NoDuplicates(StartSeq(blocks)) && (forall c :: c in StartSeq(blocks) <==> c in ByStart(blocks))
    ensures forall c | c in ByStart(blocks) :: ByStart(blocks)[c].count > 0
    ensures AllIn(ByStart(blocks), StartSeq(blocks)) && TotalCount(blocks) == SumCounts(ByStart(blocks), StartSeq(blocks))
  {
    StartSeqs(blocks);
    TotalOfFresh(ByStart(blocks), blocks);
    CountsPositive(blocks);
  }

  lemma CountsPositive(blocks: seq<BasicBlock>)
    requires DistinctStarts(blocks) && forall i | 0 <= i < |blocks| :: blocks[i].count > 0
    ensures forall c | c in ByStart(blocks) :: ByStart(blocks)[c].count > 0
  {
    forall c | c in ByStart(blocks)
      ensures ByStart(blocks)[c].count > 0
    {
      var i :| 0 <= i < |blocks| && blocks[i].start == c;
    }
  }

  lemma ChoicePartition(g: GreedyChoice, chains: map<Pc, seq<Pc>>)
    requires AllChains(g.cx, ByStart(g.blocks), g.absorbed, chains)
    ensures PairwiseDisjoint(chains) && (Partitions(ByStart(g.blocks), chains) <==> NoSelfTarget(g.cx, ByStart(g.blocks)))
  {
    DistinctLastByStart(g.blocks);
    PartitionExact(g.cx, g.blocks, g.absorbed, g.absorber, chains);
    ChainsDisjoint(g.cx, ByStart(g.blocks), g.absorbed, chains);
  }

  /** Merging keeps the number of instructions exactly when no block is its own merge target. */
  lemma CountsExact(g: GreedyChoice, chains: map<Pc, seq<Pc>>, t: Tables)
    requires AllChains(g.cx, ByStart(g.blocks), g.absorbed, chains) && MergedTables(ByStart(g.blocks), chains, t)
    requires forall i | 0 <= i < |g.blocks| :: g.blocks[i].count > 0
    ensures TotalCount(t.blocks) == TotalCount(g.blocks) <==> NoSelfTarget(g.cx, ByStart(g.blocks))
    ensures TotalCount(t.blocks) <= TotalCount(g.blocks)
  {
    ChoicePartition(g, chains);
    FreshSeq(g.blocks);
    HeadSeq(ByStart(g.blocks), chains, t.blocks);
    CountsIffPartition(ByStart(g.blocks), chains, StartSeq(g.blocks), StartSeq(t.blocks));
  }
}
