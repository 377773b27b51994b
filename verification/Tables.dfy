/**
  The mutable part of a block table as a value, and the layout it stands for.
 */
module Tables {
  import opened Code
  import opened Layout
  import opened Formation
  import opened Merge

  datatype Tables = Tables(blocks: seq<BasicBlock>, absorbed: map<Pc, Pc>, continuations: map<Pc, seq<Range>>)

  function StartsOf(ranges: seq<Range>): (s: seq<Pc>)
    ensures |s| == |ranges| && forall i | 0 <= i < |s| :: s[i] == ranges[i].0
  {
    if ranges == [] then [] else [ranges[0].0] + StartsOf(ranges[1..])
  }

  function ContinuationsOf(continuations: map<Pc, seq<Range>>, b: Pc): seq<Range> {
    if b in continuations then continuations[b] else []
  }

  /** The block and the blocks appended to it. */
  function ChainOf(continuations: map<Pc, seq<Range>>, b: Pc): seq<Pc> {
    [b] + StartsOf(ContinuationsOf(continuations, b))
  }

  ghost function LayoutOf(t: Tables): Layout {
    Layout(map b | b in Starts(t.blocks) :: ChainOf(t.continuations, b), t.absorbed)
  }

  /** Continuations are whole blocks of the fresh table. */
  ghost predicate WholeBlocks(orig: Blocks, continuations: map<Pc, seq<Range>>) {
    forall b, i | b in continuations && 0 <= i < |continuations[b]| ::
      continuations[b][i].0 in orig && continuations[b][i] == RangeOf(orig, continuations[b][i].0)
  }

  /** Blocks keep start and end of the fresh table. */
  ghost predicate Within(orig: Blocks, blocks: seq<BasicBlock>) {
    forall i | 0 <= i < |blocks| :: blocks[i].start in orig && RangeOf(orig, blocks[i].start) == (blocks[i].start, blocks[i].end)
  }

  /** The tables between merging and tail duplication: every block knows the last
      instruction of its chain, blocks inside chains are no block functions, and
      exactly the blocks that own continuations are targets of redirections. */
  ghost predicate Tidy(orig: Blocks, t: Tables) {
    && DistinctStarts(t.blocks) && DistinctLast(t.blocks)
    && Within(orig, t.blocks) && WholeBlocks(orig, t.continuations)
    && (forall i | 0 <= i < |t.blocks| :: EndsChain(orig, t.continuations, t.blocks[i]))
    && Nested(t)
    && (forall b | b in t.continuations :: HasStart(t.blocks, b) && t.continuations[b] != [])
    && t.continuations.Keys == t.absorbed.Values
  }

  ghost predicate EndsChain(orig: Blocks, continuations: map<Pc, seq<Range>>, b: BasicBlock) {
    var chain := ChainOf(continuations, b.start);
    chain[|chain| - 1] in orig && b.lastPc == orig[chain[|chain| - 1]].lastPc
  }

  ghost predicate Nested(t: Tables) {
    forall b, i | b in t.continuations && 0 <= i < |t.continuations[b]| :: !HasStart(t.blocks, t.continuations[b][i].0)
  }

  /** Faithfulness read off the tables. */
  lemma FaithfulLinked(code: Code, succs: Edges, orig: Blocks, t: Tables, b: Pc)
    requires Faithful(code, succs, orig, LayoutOf(t)) && HasStart(t.blocks, b)
    ensures Linked(code, orig, ChainOf(t.continuations, b))
  {
    assert LayoutOf(t).chains[b] == ChainOf(t.continuations, b);
  }

  lemma FaithfulExit(code: Code, succs: Edges, orig: Blocks, t: Tables, b: Pc, j: nat, q: Pc)
    requires Faithful(code, succs, orig, LayoutOf(t)) && HasStart(t.blocks, b)
    requires Linked(code, orig, ChainOf(t.continuations, b)) && j < |ChainOf(t.continuations, b)|
    requires q in code && q in Lookup(succs, orig[ChainOf(t.continuations, b)[j]].lastPc)
    requires LeavesChain(code, orig, ChainOf(t.continuations, b), j, q)
    ensures HasStart(t.blocks, q)
  {
    assert ExitsCovered(code, succs, orig, LayoutOf(t), b, j);
  }

  lemma FaithfulRedirect(code: Code, succs: Edges, orig: Blocks, t: Tables, a: Pc)
    requires Faithful(code, succs, orig, LayoutOf(t)) && a in t.absorbed
    ensures a in code && !HasStart(t.blocks, a) && HasStart(t.blocks, t.absorbed[a])
  {
    assert t.absorbed[a] in LayoutOf(t).absorbed.Values;
    assert a !in LayoutOf(t).chains;
  }

  /** Every recorded exit of chain b leads to a block function. */
  ghost predicate ExitsReach(code: Code, succs: Edges, orig: Blocks, t: Tables, b: Pc)
    requires Linked(code, orig, ChainOf(t.continuations, b))
  {
    var chain := ChainOf(t.continuations, b);
    forall j, q | 0 <= j < |chain| && q in code && q in Lookup(succs, orig[chain[j]].lastPc)
      && LeavesChain(code, orig, chain, j, q) :: HasStart(t.blocks, q)
  }

  lemma TablesFaithful(code: Code, succs: Edges, orig: Blocks, t: Tables)
    requires forall b | HasStart(t.blocks, b) ::
               Linked(code, orig, ChainOf(t.continuations, b)) && ExitsReach(code, succs, orig, t, b)
    requires forall a | a in t.absorbed :: a in code && !HasStart(t.blocks, a) && HasStart(t.blocks, t.absorbed[a])
    ensures Faithful(code, succs, orig, LayoutOf(t))
  {
    var l := LayoutOf(t);
    forall b | b in l.chains
      ensures l.chains[b] == ChainOf(t.continuations, b) && Linked(code, orig, l.chains[b])
    {
    }
    forall b, j | b in l.chains && 0 <= j < |l.chains[b]|
      ensures ExitsCovered(code, succs, orig, l, b, j)
    {
      assert ExitsReach(code, succs, orig, t, b);
    }
  }

  ghost predicate LinkAt(code: Code, orig: Blocks, p: Pc, q: Pc) {
    && p in orig && orig[p].lastPc in code && q in orig && orig[q].lastPc in code
    && Continues(code, orig[p].lastPc, q)
  }

  /** The k-th block of `rest` continues the one before it in [h] + rest. */
  ghost predicate LinkBefore(code: Code, orig: Blocks, h: Pc, rest: seq<Pc>, k: int) {
    0 <= k < |rest| && LinkAt(code, orig, if k == 0 then h else rest[k - 1], rest[k])
  }

  ghost predicate LinksOn(code: Code, orig: Blocks, h: Pc, rest: seq<Pc>) {
    forall k | 0 <= k < |rest| :: LinkBefore(code, orig, h, rest, k)
  }

  /** A chain grows by blocks that continue it. */
  lemma LinkedAppend(code: Code, orig: Blocks, chain: seq<Pc>, more: seq<Pc>)
    requires Linked(code, orig, chain) && LinksOn(code, orig, chain[|chain| - 1], more)
    ensures Linked(code, orig, chain + more)
  {
    var all := chain + more;
    forall j | 0 <= j < |all|
      ensures all[j] in orig && orig[all[j]].lastPc in code
    {
      if j >= |chain| {
        assert LinkBefore(code, orig, chain[|chain| - 1], more, j - |chain|);
      }
    }
    forall j | 0 <= j < |all| - 1
      ensures Continues(code, orig[all[j]].lastPc, all[j + 1])
    {
      if j < |chain| - 1 {
        assert Continues(code, orig[chain[j]].lastPc, chain[j + 1]);
      } else {
        assert LinkBefore(code, orig, chain[|chain| - 1], more, j + 1 - |chain|);
      }
    }
  }

  /** Appended blocks of a linked chain continue it. */
  lemma AppendLinked(code: Code, orig: Blocks, chain: seq<Pc>, more: seq<Pc>, k: nat)
    requires chain != [] && k < |more| && Linked(code, orig, chain + more)
    ensures LinkBefore(code, orig, chain[|chain| - 1], more, k)
  {
    var all, j := chain + more, |chain| + k - 1;
    assert all[j + 1] == more[k] && all[j] == if k > 0 then more[k - 1] else chain[|chain| - 1];
  }

  // ----- filtering -----

  /** Keep the blocks whose start was not removed. */
  method Remaining(blocks: seq<BasicBlock>, removed: set<Pc>) returns (kept: seq<BasicBlock>)
    requires DistinctStarts(blocks) && DistinctLast(blocks)
    ensures Keeps(blocks, removed, kept)
    ensures |kept| <= |blocks|
  {
    kept := [];
    ghost var from: seq<nat> := [];
    for i := 0 to |blocks|
      invariant |kept| == |from| <= i
      invariant forall k | 0 <= k < |from| :: from[k] < i && kept[k] == blocks[from[k]] && kept[k].start !in removed
      invariant forall k, m | 0 <= k < m < |from| :: from[k] < from[m]
      invariant forall k | 0 <= k < i && blocks[k].start !in removed :: blocks[k] in kept
    {
      if blocks[i].start !in removed {
        kept, from := kept + [blocks[i]], from + [i];
      }
    }
    StartsFromPairs(kept);
    LastFromPairs(kept);
  }

  ghost predicate Keeps(blocks: seq<BasicBlock>, removed: set<Pc>, kept: seq<BasicBlock>) {
    && (forall b :: b in kept <==> b in blocks && b.start !in removed)
    && DistinctStarts(kept) && DistinctLast(kept)
  }

  lemma IndexedRange(orig: Blocks, blocks: seq<BasicBlock>, index: map<Pc, nat>, c: Pc)
    requires Indexes(blocks, index) && Within(orig, blocks) && c in index
    ensures c in orig && index[c] < |blocks| && (blocks[index[c]].start, blocks[index[c]].end) == RangeOf(orig, c)
    ensures blocks[index[c]].start == c
  {
  }

  lemma KeptStarts(blocks: seq<BasicBlock>, removed: set<Pc>, kept: seq<BasicBlock>)
    requires Keeps(blocks, removed, kept)
    ensures forall b :: HasStart(kept, b) <==> HasStart(blocks, b) && b !in removed
  {
    forall b
      ensures HasStart(kept, b) <==> HasStart(blocks, b) && b !in removed
    {
      if HasStart(kept, b) {
        var i :| 0 <= i < |kept| && kept[i].start == b;
        assert kept[i] in kept;
        var k :| 0 <= k < |blocks| && blocks[k] == kept[i];
      }
      if HasStart(blocks, b) && b !in removed {
        var i :| 0 <= i < |blocks| && blocks[i].start == b;
        assert blocks[i] in kept;
        var k :| 0 <= k < |kept| && kept[k] == blocks[i];
      }
    }
  }

  // ----- what merging builds -----

  ghost predicate MergedBlock(orig: Blocks, chain: seq<Pc>, b: BasicBlock) {
    && chain != [] && AllIn(orig, chain)
    && b == BasicBlock(chain[0], orig[chain[0]].end, SumCounts(orig, chain), orig[chain[|chain| - 1]].lastPc)
  }

  ghost predicate MergedBlocks(orig: Blocks, chains: map<Pc, seq<Pc>>, merged: seq<BasicBlock>) {
    && DistinctStarts(merged)
    && (forall k | 0 <= k < |merged| :: merged[k].start in chains && MergedBlock(orig, chains[merged[k].start], merged[k]))
    && (forall b | b in chains :: HasStart(merged, b))
  }

  ghost predicate MergedContinuations(orig: Blocks, chains: map<Pc, seq<Pc>>, continuations: map<Pc, seq<Range>>) {
    && (forall b | b in chains :: chains[b] != [] && AllIn(orig, chains[b]))
    && (forall b :: b in continuations <==> b in chains && |chains[b]| > 1)
    && (forall b | b in continuations :: continuations[b] == RangesOf(orig, chains[b][1..]))
  }

  ghost predicate MergedRedirects(chains: map<Pc, seq<Pc>>, redirect: map<Pc, Pc>) {
    && (forall b | b in chains :: chains[b] != [])
    && (forall c | c in redirect :: redirect[c] in chains && c in chains[redirect[c]][1..])
    && (forall b, c | b in chains && c in chains[b][1..] :: c in redirect)
  }

  ghost predicate MergedTables(orig: Blocks, chains: map<Pc, seq<Pc>>, t: Tables) {
    && MergedBlocks(orig, chains, t.blocks)
    && MergedContinuations(orig, chains, t.continuations)
    && MergedRedirects(chains, t.absorbed)
  }

  /** Add the chain of one more head: blocks, continuations, redirections. */
  lemma AddBlock(orig: Blocks, chains: map<Pc, seq<Pc>>, merged: seq<BasicBlock>, chain: seq<Pc>, b: BasicBlock)
    requires MergedBlocks(orig, chains, merged) && MergedBlock(orig, chain, b) && chain[0] !in chains
    ensures MergedBlocks(orig, chains[chain[0] := chain], merged + [b])
  {
    StartsFromPairs(merged + [b]);
    forall h | h in chains[chain[0] := chain]
      ensures HasStart(merged + [b], h)
    {
      if h == b.start {
        assert (merged + [b])[|merged|].start == h;
      } else {
        var i :| 0 <= i < |merged| && merged[i].start == h;
        assert (merged + [b])[i].start == h;
      }
    }
  }

  lemma AddContinuations(orig: Blocks, chains: map<Pc, seq<Pc>>, continuations: map<Pc, seq<Range>>,
                         chain: seq<Pc>, conts: seq<Range>)
    requires MergedContinuations(orig, chains, continuations)
    requires chain != [] && chain[0] !in chains && AllIn(orig, chain)
    requires conts == RangesOf(orig, chain[1..])
    ensures MergedContinuations(orig, chains[chain[0] := chain],
              if conts == [] then continuations else continuations[chain[0] := conts])
  {
  }

  lemma AddRedirects(chains: map<Pc, seq<Pc>>, before: map<Pc, Pc>, chain: seq<Pc>, after: map<Pc, Pc>)
    requires MergedRedirects(chains, before) && Redirects(before, chain, after) && chain[0] !in chains
    ensures MergedRedirects(chains[chain[0] := chain], after)
  {
  }

  lemma ChainOfMerged(orig: Blocks, chains: map<Pc, seq<Pc>>, continuations: map<Pc, seq<Range>>, b: Pc)
    requires MergedContinuations(orig, chains, continuations)
    requires b in chains && chains[b][0] == b
    requires forall c | c in orig :: orig[c].start == c
    ensures ChainOf(continuations, b) == chains[b]
  {
    assert chains[b] == [b] + chains[b][1..];
    assert StartsOf(RangesOf(orig, chains[b][1..])) == chains[b][1..];
  }

  /** The tables merging builds stand for the chains. */
  lemma MergedLayout(orig: Blocks, chains: map<Pc, seq<Pc>>, t: Tables)
    requires MergedTables(orig, chains, t)
    requires forall b | b in chains :: chains[b][0] == b
    requires forall b | b in orig :: orig[b].start == b
    ensures LayoutOf(t) == Layout(chains, t.absorbed)
  {
    MergedStarts(orig, chains, t.blocks);
    forall b | b in chains
      ensures ChainOf(t.continuations, b) == chains[b]
    {
      ChainOfMerged(orig, chains, t.continuations, b);
    }
    SameLayout(chains, t);
  }

  /** The merged blocks start where chains do. */
  lemma MergedStarts(orig: Blocks, chains: map<Pc, seq<Pc>>, merged: seq<BasicBlock>)
    requires MergedBlocks(orig, chains, merged)
    ensures Starts(merged) == chains.Keys
  {
    forall b | HasStart(merged, b)
      ensures b in chains
    {
      var i :| 0 <= i < |merged| && merged[i].start == b;
    }
  }

  lemma SameLayout(chains: map<Pc, seq<Pc>>, t: Tables)
    requires Starts(t.blocks) == chains.Keys && forall b | b in chains :: ChainOf(t.continuations, b) == chains[b]
    ensures LayoutOf(t) == Layout(chains, t.absorbed)
  {
    assert LayoutOf(t).chains == chains;
  }

  lemma MergedWhole(orig: Blocks, chains: map<Pc, seq<Pc>>, continuations: map<Pc, seq<Range>>)
    requires MergedContinuations(orig, chains, continuations)
    requires forall b | b in orig :: orig[b].start == b
    ensures WholeBlocks(orig, continuations)
  {
  }

  lemma MergedDistinctLast(cx: Context, orig: Blocks, absorbed: set<Pc>, chains: map<Pc, seq<Pc>>, merged: seq<BasicBlock>)
    requires DistinctLastPcs(orig) && AllChains(cx, orig, absorbed, chains) && MergedBlocks(orig, chains, merged)
    ensures DistinctLast(merged)
  {
    forall i, j | 0 <= i < j < |merged|
      ensures merged[i].lastPc != merged[j].lastPc
    {
      var a, b := chains[merged[i].start], chains[merged[j].start];
      if merged[i].lastPc == merged[j].lastPc {
        ChainsMeetAtHead(cx, orig, absorbed, a, |a| - 1, b, |b| - 1);
      }
    }
    LastFromPairs(merged);
  }

  /** Block start to table index. */
  method IndexByStart(blocks: seq<BasicBlock>) returns (index: map<Pc, nat>)
    requires DistinctStarts(blocks)
    ensures Indexes(blocks, index)
  {
    index := map[];
    for i := 0 to |blocks|
      invariant forall k | 0 <= k < i :: blocks[k].start in index && index[blocks[k].start] == k
      invariant forall b | b in index :: index[b] < i && blocks[index[b]].start == b
    {
      index := index[blocks[i].start := i];
    }
  }

  /** Merging has dealt with the blocks in `done`. */
  ghost predicate MergeProgress(cx: Context, orig: Blocks, claimed: set<Pc>, done: set<Pc>,
                                chains: map<Pc, seq<Pc>>, t: Tables)
  {
    && MergedTables(orig, chains, t)
    && chains.Keys == done - claimed
    && (forall b | b in chains :: MaximalChain(cx, orig, claimed, chains[b]) && chains[b][0] == b)
  }

  lemma AddHead(cx: Context, orig: Blocks, claimed: set<Pc>, done: set<Pc>, chains: map<Pc, seq<Pc>>, t: Tables,
                chain: seq<Pc>, conts: seq<Range>, count: nat, lastPc: Pc, redirect: map<Pc, Pc>)
    requires MergeProgress(cx, orig, claimed, done, chains, t)
    requires MaximalChain(cx, orig, claimed, chain) && chain[0] !in done
    requires Summarizes(orig, chain, conts, count, lastPc) && Redirects(t.absorbed, chain, redirect)
    ensures MergeProgress(cx, orig, claimed, done + {chain[0]}, chains[chain[0] := chain],
              Tables(t.blocks + [BasicBlock(chain[0], orig[chain[0]].end, count, lastPc)], redirect,
                     if conts == [] then t.continuations else t.continuations[chain[0] := conts]))
  {
    AddBlock(orig, chains, t.blocks, chain, BasicBlock(chain[0], orig[chain[0]].end, count, lastPc));
    AddContinuations(orig, chains, t.continuations, chain, conts);
    AddRedirects(chains, t.absorbed, chain, redirect);
    AddMaximal(cx, orig, claimed, done, chains, chain);
  }

  lemma AddMaximal(cx: Context, orig: Blocks, claimed: set<Pc>, done: set<Pc>, chains: map<Pc, seq<Pc>>, chain: seq<Pc>)
    requires chains.Keys == done - claimed && MaximalChain(cx, orig, claimed, chain)
    requires forall b | b in chains :: MaximalChain(cx, orig, claimed, chains[b]) && chains[b][0] == b
    ensures var chains' := chains[chain[0] := chain];
            && chains'.Keys == done + {chain[0]} - claimed
            && forall b | b in chains' :: MaximalChain(cx, orig, claimed, chains'[b]) && chains'[b][0] == b
  {
  }

  lemma NothingClaimed(cx: Context, orig: Blocks, chains: map<Pc, seq<Pc>>)
    requires chains == map b | b in orig :: [b]
    ensures AllChains(cx, orig, {}, chains)
  {
  }

  /** The starts of the first i blocks. */
  ghost function StartsUpTo(blocks: seq<BasicBlock>, i: nat): (s: set<Pc>)
    requires i <= |blocks|
  {
    set k | 0 <= k < i :: blocks[k].start
  }

  lemma AllStarts(blocks: seq<BasicBlock>)
    requires DistinctStarts(blocks)
    ensures StartsUpTo(blocks, |blocks|) == ByStart(blocks).Keys
  {
  }

  /** Chain up the block at index i. */
  method MergeHead(cx: Context, blocks: seq<BasicBlock>, index: map<Pc, nat>, claimed: set<Pc>,
                   ghost g: GreedyChoice, i: nat, t: Tables, ghost chains: map<Pc, seq<Pc>>, ghost done: set<Pc>)
    returns (t': Tables, ghost chains': map<Pc, seq<Pc>>)
    requires g == Choice(cx, blocks, index, claimed, g.absorber)
    requires i < |blocks| && blocks[i].start !in claimed && blocks[i].start !in done
    requires MergeProgress(cx, ByStart(blocks), claimed, done, chains, t)
    ensures MergeProgress(cx, ByStart(blocks), claimed, done + {blocks[i].start}, chains', t')
    ensures |t'.blocks| == |t.blocks| + 1
  {
    var conts, count, lastPc, redirect;
    ghost var chain;
    conts, count, lastPc, redirect, chain := FollowChain(cx, blocks, index, claimed, g, i, t.absorbed);
    AddHead(cx, ByStart(blocks), claimed, done, chains, t, chain, conts, count, lastPc, redirect);
    var b := BasicBlock(blocks[i].start, blocks[i].end, count, lastPc);
    t' := Tables(t.blocks + [b], redirect,
                 if conts == [] then t.continuations else t.continuations[blocks[i].start := conts]);
    chains' := chains[blocks[i].start := chain];
  }

  lemma StartsStep(blocks: seq<BasicBlock>, i: nat)
    requires i < |blocks|
    ensures StartsUpTo(blocks, i + 1) == StartsUpTo(blocks, i) + {blocks[i].start}
    ensures DistinctStarts(blocks) ==> blocks[i].start !in StartsUpTo(blocks, i)
  {
  }

  lemma SkipClaimed(cx: Context, orig: Blocks, claimed: set<Pc>, done: set<Pc>, b: Pc, chains: map<Pc, seq<Pc>>, t: Tables)
    requires MergeProgress(cx, orig, claimed, done, chains, t) && b in claimed
    ensures MergeProgress(cx, orig, claimed, done + {b}, chains, t)
  {
  }

  /** Chain up the block at index i unless it was claimed. */
  method MergeOne(cx: Context, blocks: seq<BasicBlock>, index: map<Pc, nat>, claimed: set<Pc>,
                  ghost g: GreedyChoice, i: nat, t: Tables, ghost chains: map<Pc, seq<Pc>>)
    returns (t': Tables, ghost chains': map<Pc, seq<Pc>>)
    requires g == Choice(cx, blocks, index, claimed, g.absorber)
    requires i < |blocks|
    requires MergeProgress(cx, ByStart(blocks), claimed, StartsUpTo(blocks, i), chains, t)
    ensures MergeProgress(cx, ByStart(blocks), claimed, StartsUpTo(blocks, i + 1), chains', t')
    ensures |t'.blocks| <= |t.blocks| + 1
  {
    StartsStep(blocks, i);
    ghost var done := StartsUpTo(blocks, i);
    if blocks[i].start in claimed {
      SkipClaimed(cx, ByStart(blocks), claimed, done, blocks[i].start, chains, t);
      return t, chains;
    }
    t', chains' := MergeHead(cx, blocks, index, claimed, g, i, t, chains, done);
  }

  /** Chain up every block nobody claimed. */
  method BuildChains(cx: Context, blocks: seq<BasicBlock>, index: map<Pc, nat>, claimed: set<Pc>, ghost g: GreedyChoice)
    returns (t: Tables, ghost chains: map<Pc, seq<Pc>>)
    requires g == Choice(cx, blocks, index, claimed, g.absorber)
    ensures MergeProgress(cx, ByStart(blocks), claimed, ByStart(blocks).Keys, chains, t)
    ensures |t.blocks| <= |blocks|
  {
    t, chains := Tables([], map[], map[]), map[];
    for i := 0 to |blocks|
      invariant |t.blocks| <= i
      invariant MergeProgress(cx, ByStart(blocks), claimed, StartsUpTo(blocks, i), chains, t)
    {
      t, chains := MergeOne(cx, blocks, index, claimed, g, i, t, chains);
    }
    AllStarts(blocks);
  }
}
