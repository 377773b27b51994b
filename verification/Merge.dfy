/**
  Greedy merging of blocks into their single predecessor: which blocks are
  absorbed, why following the chains ends, and why no reachable block is lost.
 */
module Merge {
  import opened Code
  import opened Layout
  import opened Formation

  /** What merging looks at besides the blocks. */
  datatype Context = Context(code: Code, entries: set<Pc>, preds: Edges)

  /** The block that may be appended to b: its only static successor, provided b's
      last instruction is that block's only recorded predecessor. */
  function MergeTarget(cx: Context, b: BasicBlock): Option<Pc> {
    if b.lastPc !in cx.code then None else
    match cx.code[b.lastPc].term
    case Fall(next) => if next.Some? then Mergeable(cx, b, next.value) else None
    case Jump(t) => Mergeable(cx, b, t)
    case _ => None
  }

  function Mergeable(cx: Context, b: BasicBlock, t: Pc): Option<Pc> {
    if t in cx.entries || t !in cx.preds || cx.preds[t] != {b.lastPc} then None else Some(t)
  }

  /** The greedy choice: `absorber[t]` is the index of the block that claimed t,
      which was not itself claimed before. */
  ghost predicate Claimed(cx: Context, blocks: seq<BasicBlock>, upTo: nat, absorbed: set<Pc>, absorber: map<Pc, nat>) {
    && absorber.Keys == absorbed
    && (forall t | t in absorbed ::
          && absorber[t] < upTo <= |blocks|
          && MergeTarget(cx, blocks[absorber[t]]) == Some(t)
          && (blocks[absorber[t]].start in absorbed ==> absorber[t] <= absorber[blocks[absorber[t]].start]))
    && (forall i | 0 <= i < upTo <= |blocks| :: var t := MergeTarget(cx, blocks[i]);
          t.Some? ==> t.value in absorbed || blocks[i].start in absorbed)
  }

  method FindAbsorbed(cx: Context, blocks: seq<BasicBlock>) returns (absorbed: set<Pc>, ghost absorber: map<Pc, nat>)
    requires DistinctStarts(blocks) && DistinctLast(blocks)
    ensures Claimed(cx, blocks, |blocks|, absorbed, absorber)
  {
    absorbed, absorber := {}, map[];
    for i := 0 to |blocks|
      invariant Claimed(cx, blocks, i, absorbed, absorber)
    {
      if blocks[i].start in absorbed {
        continue;
      }
      var target := MergeTarget(cx, blocks[i]);
      if target.Some? {
        ClaimOne(cx, blocks, i, absorbed, absorber);
        absorbed := absorbed + {target.value};
        absorber := absorber[target.value := i];
      }
    }
  }

  lemma ClaimOne(cx: Context, blocks: seq<BasicBlock>, i: nat, absorbed: set<Pc>, absorber: map<Pc, nat>)
    requires DistinctStarts(blocks) && DistinctLast(blocks) && Claimed(cx, blocks, i, absorbed, absorber)
    requires i < |blocks| && blocks[i].start !in absorbed && MergeTarget(cx, blocks[i]).Some?
    ensures var t := MergeTarget(cx, blocks[i]).value; Claimed(cx, blocks, i + 1, absorbed + {t}, absorber[t := i])
  {
  }

  // ----- chains -----

  ghost predicate Follows(cx: Context, orig: Blocks, absorbed: set<Pc>, c: Pc, d: Pc) {
    c in orig && d in orig && d in absorbed && MergeTarget(cx, orig[c]) == Some(d)
  }

  /** A maximal walk along merge targets from a block nobody absorbed. */
  ghost predicate MaximalChain(cx: Context, orig: Blocks, absorbed: set<Pc>, chain: seq<Pc>) {
    && PartialChain(cx, orig, absorbed, chain)
    && forall d | d in orig :: !Follows(cx, orig, absorbed, chain[|chain| - 1], d)
  }

  ghost predicate PartialChain(cx: Context, orig: Blocks, absorbed: set<Pc>, chain: seq<Pc>) {
    && chain != [] && chain[0] in orig && chain[0] !in absorbed
    && forall j | 0 <= j < |chain| - 1 :: Follows(cx, orig, absorbed, chain[j], chain[j + 1])
  }

  /** Two chains that share a block have the same head and the same position for it. */
  lemma {:induction false} ChainsMeetAtHead(cx: Context, orig: Blocks, absorbed: set<Pc>,
                                            a: seq<Pc>, j: nat, b: seq<Pc>, k: nat)
    requires DistinctLastPcs(orig)
    requires PartialChain(cx, orig, absorbed, a) && PartialChain(cx, orig, absorbed, b)
    requires j < |a| && k < |b| && a[j] == b[k]
    ensures j == k && a[0] == b[0]
    decreases j
  {
    if j > 0 {
      assert Follows(cx, orig, absorbed, a[j - 1], a[j - 1 + 1]);
    }
    if k > 0 {
      assert Follows(cx, orig, absorbed, b[k - 1], b[k - 1 + 1]);
    }
    if j > 0 && k > 0 {
      ChainsMeetAtHead(cx, orig, absorbed, a, j - 1, b, k - 1);
    }
  }

  // ----- following a chain -----

  /** The block map of the pass: block start to table index. */
  ghost predicate Indexes(blocks: seq<BasicBlock>, index: map<Pc, nat>) {
    && (forall i | 0 <= i < |blocks| :: blocks[i].start in index && index[blocks[i].start] == i)
    && (forall b | b in index :: index[b] < |blocks| && blocks[index[b]].start == b)
  }

  /** The input of chain building: blocks, their index and a greedy choice. */
  datatype Choice = Choice(cx: Context, blocks: seq<BasicBlock>, index: map<Pc, nat>, absorbed: set<Pc>, absorber: map<Pc, nat>)
  {
    ghost predicate Valid() {
      && DistinctStarts(blocks) && DistinctLast(blocks) && Indexes(blocks, index)
      && Claimed(cx, blocks, |blocks|, absorbed, absorber)
    }
  }

  type GreedyChoice = c: Choice | c.Valid()
    ghost witness Choice(Context(map[], {}, map[]), [], map[], {}, map[])

  /** Where a chain continues twice, the table index of the absorber goes down. */
  lemma ChainDescends(g: GreedyChoice, i: nat, k: nat)
    requires i < |g.blocks| && k < |g.blocks| && i != k
    requires MergeTarget(g.cx, g.blocks[i]) == Some(g.blocks[k].start) && g.blocks[k].start in g.absorbed
    requires MergeTarget(g.cx, g.blocks[k]).Some? && MergeTarget(g.cx, g.blocks[k]).value in g.absorbed
    ensures k < i
  {
    assert g.absorber[g.blocks[k].start] == i;
    assert g.absorber[MergeTarget(g.cx, g.blocks[k]).value] == k;
  }

  ghost function Rank(cx: Context, blocks: seq<BasicBlock>, absorbed: set<Pc>, i: nat): nat
    requires i < |blocks|
  {
    var t := MergeTarget(cx, blocks[i]);
    if t.Some? && t.value in absorbed then i + 1 else 0
  }

  /** Ranges, instruction count and last instruction of a chain. */
  ghost predicate Summarizes(orig: Blocks, chain: seq<Pc>, continuations: seq<Range>, count: nat, lastPc: Pc) {
    && chain != [] && AllIn(orig, chain)
    && continuations == RangesOf(orig, chain[1..])
    && count == SumCounts(orig, chain)
    && lastPc == orig[chain[|chain| - 1]].lastPc
  }

  /** The chain's blocks, apart from its head, are redirected to the head. */
  ghost predicate Redirects(before: map<Pc, Pc>, chain: seq<Pc>, after: map<Pc, Pc>) {
    && chain != []
    && (forall c :: c in after <==> c in before || c in chain[1..])
    && (forall c | c in after :: after[c] == if c in chain[1..] then chain[0] else before[c])
  }

  lemma ExtendChain(cx: Context, orig: Blocks, absorbed: set<Pc>, chain: seq<Pc>, t: Pc)
    requires PartialChain(cx, orig, absorbed, chain) && Follows(cx, orig, absorbed, chain[|chain| - 1], t)
    ensures PartialChain(cx, orig, absorbed, chain + [t])
  {
    forall j | 0 <= j < |chain + [t]| - 1
      ensures Follows(cx, orig, absorbed, (chain + [t])[j], (chain + [t])[j + 1])
    {
      if j < |chain| - 1 {
        assert Follows(cx, orig, absorbed, chain[j], chain[j + 1]);
      }
    }
  }

  lemma ExtendSummary(orig: Blocks, chain: seq<Pc>, continuations: seq<Range>, count: nat, lastPc: Pc, t: Pc,
                      before: map<Pc, Pc>, after: map<Pc, Pc>)
    requires Summarizes(orig, chain, continuations, count, lastPc) && Redirects(before, chain, after) && t in orig
    ensures Summarizes(orig, chain + [t], continuations + [RangeOf(orig, t)], count + orig[t].count, orig[t].lastPc)
    ensures Redirects(before, chain + [t], after[t := chain[0]])
  {
    assert (chain + [t])[1..] == chain[1..] + [t];
    SumOne(orig, chain, t);
    ExtendRedirects(before, chain, after, t);
  }

  lemma ExtendRedirects(before: map<Pc, Pc>, chain: seq<Pc>, after: map<Pc, Pc>, t: Pc)
    requires Redirects(before, chain, after)
    ensures Redirects(before, chain + [t], after[t := chain[0]])
  {
    assert (chain + [t])[1..] == chain[1..] + [t];
  }

  lemma SumOne(orig: Blocks, chain: seq<Pc>, t: Pc)
    requires AllIn(orig, chain) && t in orig
    ensures AllIn(orig, chain + [t]) && SumCounts(orig, chain + [t]) == SumCounts(orig, chain) + orig[t].count
  {
    SumConcat(orig, chain, [t]);
    assert [t][1..] == [];
  }

  /** Following the chain of the head at index i has come to the block at index `current`. */
  ghost predicate Walked(g: GreedyChoice, i: nat, redirected: map<Pc, Pc>, current: nat, chain: seq<Pc>,
                         continuations: seq<Range>, count: nat, lastPc: Pc, redirect: map<Pc, Pc>)
  {
    && i < |g.blocks| && current < |g.blocks|
    && PartialChain(g.cx, ByStart(g.blocks), g.absorbed, chain)
    && chain[0] == g.blocks[i].start && chain[|chain| - 1] == g.blocks[current].start
    && Summarizes(ByStart(g.blocks), chain, continuations, count, lastPc)
    && Redirects(redirected, chain, redirect)
  }

  lemma WalkStart(g: GreedyChoice, i: nat, redirected: map<Pc, Pc>)
    requires i < |g.blocks| && g.blocks[i].start !in g.absorbed
    ensures Walked(g, i, redirected, i, [g.blocks[i].start], [], g.blocks[i].count, g.blocks[i].lastPc, redirected)
  {
    assert ByStart(g.blocks)[g.blocks[i].start] == g.blocks[i];
  }

  lemma WalkOn(g: GreedyChoice, i: nat, redirected: map<Pc, Pc>, current: nat, chain: seq<Pc>,
               continuations: seq<Range>, count: nat, lastPc: Pc, redirect: map<Pc, Pc>, t: Pc, next: BasicBlock)
    requires Walked(g, i, redirected, current, chain, continuations, count, lastPc, redirect)
    requires MergeTarget(g.cx, g.blocks[current]) == Some(t) && t in g.absorbed && t in g.index
    requires next == g.blocks[g.index[t]]
    ensures Walked(g, i, redirected, g.index[t], chain + [t], continuations + [(next.start, next.end)],
                   count + next.count, next.lastPc, redirect[t := g.blocks[i].start])
    ensures g.index[t] < |g.blocks| && Rank(g.cx, g.blocks, g.absorbed, g.index[t]) < Rank(g.cx, g.blocks, g.absorbed, current)
  {
    var orig := ByStart(g.blocks);
    NextDescends(g, chain, current, t);
    ExtendChain(g.cx, orig, g.absorbed, chain, t);
    ExtendSummary(orig, chain, continuations, count, lastPc, t, redirected, redirect);
  }

  lemma WalkDone(g: GreedyChoice, i: nat, redirected: map<Pc, Pc>, current: nat, chain: seq<Pc>,
                 continuations: seq<Range>, count: nat, lastPc: Pc, redirect: map<Pc, Pc>)
    requires Walked(g, i, redirected, current, chain, continuations, count, lastPc, redirect)
    requires var t := MergeTarget(g.cx, g.blocks[current]); t.None? || t.value !in g.absorbed || t.value !in g.index
    ensures MaximalChain(g.cx, ByStart(g.blocks), g.absorbed, chain) && chain[0] == g.blocks[i].start
    ensures Summarizes(ByStart(g.blocks), chain, continuations, count, lastPc)
    ensures Redirects(redirected, chain, redirect)
  {
    assert ByStart(g.blocks)[g.blocks[current].start] == g.blocks[current];
  }

  /** Follow the chain of the head at index i, redirecting its blocks to the head. */
  method FollowChain(cx: Context, blocks: seq<BasicBlock>, index: map<Pc, nat>, absorbed: set<Pc>,
                     ghost g: GreedyChoice, i: nat, redirected: map<Pc, Pc>)
    returns (continuations: seq<Range>, count: nat, lastPc: Pc, redirect: map<Pc, Pc>, ghost chain: seq<Pc>)
    requires g == Choice(cx, blocks, index, absorbed, g.absorber)
    requires i < |blocks| && blocks[i].start !in absorbed
    ensures DistinctStarts(blocks)
    ensures MaximalChain(cx, ByStart(blocks), absorbed, chain) && chain[0] == blocks[i].start
    ensures Summarizes(ByStart(blocks), chain, continuations, count, lastPc)
    ensures Redirects(redirected, chain, redirect)
  {
    continuations, count, lastPc, redirect := [], blocks[i].count, blocks[i].lastPc, redirected;
    chain := [blocks[i].start];
    var current: nat := i;
    WalkStart(g, i, redirected);
    while true
      invariant current < |blocks| && Walked(g, i, redirected, current, chain, continuations, count, lastPc, redirect)
      decreases Rank(cx, blocks, absorbed, current)
    {
      var target := MergeTarget(cx, blocks[current]);
      if target.None? || target.value !in absorbed || target.value !in index {
        break;
      }
      var t := target.value;
      var next := blocks[index[t]];
      WalkOn(g, i, redirected, current, chain, continuations, count, lastPc, redirect, t, next);
      redirect := redirect[t := blocks[i].start];
      continuations := continuations + [(next.start, next.end)];
      count := count + next.count;
      lastPc := next.lastPc;
      chain := chain + [t];
      current := index[t];
    }
    WalkDone(g, i, redirected, current, chain, continuations, count, lastPc, redirect);
  }

  lemma NextDescends(g: GreedyChoice, chain: seq<Pc>, current: nat, t: Pc)
    requires PartialChain(g.cx, ByStart(g.blocks), g.absorbed, chain)
    requires current < |g.blocks| && chain[|chain| - 1] == g.blocks[current].start
    requires MergeTarget(g.cx, g.blocks[current]) == Some(t) && t in g.absorbed && t in g.index
    ensures t in ByStart(g.blocks) && ByStart(g.blocks)[t] == g.blocks[g.index[t]]
    ensures Follows(g.cx, ByStart(g.blocks), g.absorbed, chain[|chain| - 1], t)
    ensures Rank(g.cx, g.blocks, g.absorbed, g.index[t]) < Rank(g.cx, g.blocks, g.absorbed, current)
  {
    var orig := ByStart(g.blocks);
    assert g.blocks[g.index[t]].start == t && orig[g.blocks[current].start] == g.blocks[current];
    DistinctLastByStart(g.blocks);
    if g.index[t] == current {
      FirstOccurrence(g.cx, orig, g.absorbed, chain, |chain| - 1);
    } else if Rank(g.cx, g.blocks, g.absorbed, g.index[t]) > 0 {
      ChainDescends(g, current, g.index[t]);
    }
  }

  /** No block is its own merge target. */
  ghost predicate NoSelfTarget(cx: Context, orig: Blocks) {
    forall b | b in orig :: MergeTarget(cx, orig[b]) != Some(b)
  }

  /** All heads have their maximal chains. */
  ghost predicate AllChains(cx: Context, orig: Blocks, absorbed: set<Pc>, chains: map<Pc, seq<Pc>>) {
    && chains.Keys == orig.Keys - absorbed
    && forall b | b in chains :: MaximalChain(cx, orig, absorbed, chains[b]) && chains[b][0] == b
  }

  ghost predicate InChain(chains: map<Pc, seq<Pc>>, h: Pc, c: Pc) {
    h in chains && c in chains[h]
  }

  /** Walking up from an absorbed block by absorber index reaches a head. */
  lemma {:induction false} HeadOf(cx: Context, blocks: seq<BasicBlock>, absorbed: set<Pc>, absorber: map<Pc, nat>,
                                  chains: map<Pc, seq<Pc>>, c: Pc)
    returns (h: Pc)
    requires DistinctStarts(blocks) && Claimed(cx, blocks, |blocks|, absorbed, absorber)
    requires NoSelfTarget(cx, ByStart(blocks)) && AllChains(cx, ByStart(blocks), absorbed, chains)
    requires c in ByStart(blocks)
    ensures InChain(chains, h, c)
    decreases if c in absorbed then |blocks| - absorber[c] else 0
  {
    var orig := ByStart(blocks);
    if c !in absorbed {
      h := c;
    } else {
      var a := blocks[absorber[c]].start;
      assert a in orig && MergeTarget(cx, orig[a]) == Some(c);
      assert a in absorbed ==> absorber[a] != absorber[c];
      h := HeadOf(cx, blocks, absorbed, absorber, chains, a);
      NextInChain(cx, orig, absorbed, chains, h, a, c);
    }
  }

  /** A maximal chain with a block goes on to the one that follows it. */
  lemma NextInChain(cx: Context, orig: Blocks, absorbed: set<Pc>, chains: map<Pc, seq<Pc>>, h: Pc, a: Pc, c: Pc)
    requires AllChains(cx, orig, absorbed, chains) && InChain(chains, h, a) && Follows(cx, orig, absorbed, a, c)
    ensures InChain(chains, h, c)
  {
    var chain := chains[h];
    assert MaximalChain(cx, orig, absorbed, chain);
    var j :| 0 <= j < |chain| && chain[j] == a;
    if j < |chain| - 1 {
      assert Follows(cx, orig, absorbed, chain[j], chain[j + 1]);
      assert chain[j + 1] == c;
    }
  }

  /** A block that targets itself is in no chain. */
  lemma SelfTargetLost(cx: Context, blocks: seq<BasicBlock>, absorbed: set<Pc>, absorber: map<Pc, nat>,
                       chains: map<Pc, seq<Pc>>, c: Pc, h: Pc)
    requires DistinctStarts(blocks) && DistinctLastPcs(ByStart(blocks))
    requires Claimed(cx, blocks, |blocks|, absorbed, absorber)
    requires AllChains(cx, ByStart(blocks), absorbed, chains)
    requires c in ByStart(blocks) && MergeTarget(cx, ByStart(blocks)[c]) == Some(c)
    ensures !InChain(chains, h, c)
  {
    var orig := ByStart(blocks);
    var i :| 0 <= i < |blocks| && blocks[i].start == c;
    assert c in absorbed;
    if InChain(chains, h, c) {
      var chain := chains[h];
      var j :| 0 <= j < |chain| && chain[j] == c;
      FirstOccurrence(cx, orig, absorbed, chain, j);
    }
  }

  /** Walking a chain back from a self-targeting block never reaches its head. */
  lemma {:induction false} FirstOccurrence(cx: Context, orig: Blocks, absorbed: set<Pc>, chain: seq<Pc>, j: nat)
    requires DistinctLastPcs(orig) && PartialChain(cx, orig, absorbed, chain)
    requires j < |chain| && chain[j] in orig && chain[j] in absorbed && MergeTarget(cx, orig[chain[j]]) == Some(chain[j])
    ensures false
    decreases j
  {
    if j > 0 {
      assert Follows(cx, orig, absorbed, chain[j - 1], chain[j - 1 + 1]);
      assert chain[j - 1] == chain[j];
      FirstOccurrence(cx, orig, absorbed, chain, j - 1);
    }
  }

  /** Every block is in exactly one chain, at one position. */
  ghost predicate Partitions(orig: Blocks, chains: map<Pc, seq<Pc>>) {
    && (forall c | c in orig :: exists h :: InChain(chains, h, c))
    && PairwiseDisjoint(chains)
  }

  ghost predicate PairwiseDisjoint(chains: map<Pc, seq<Pc>>) {
    forall h, j, h', j' | h in chains && 0 <= j < |chains[h]| && h' in chains && 0 <= j' < |chains[h']|
      && chains[h][j] == chains[h'][j'] :: h == h' && j == j'
  }

  lemma ChainsDisjoint(cx: Context, orig: Blocks, absorbed: set<Pc>, chains: map<Pc, seq<Pc>>)
    requires DistinctLastPcs(orig) && AllChains(cx, orig, absorbed, chains)
    ensures PairwiseDisjoint(chains)
  {
    forall h, j, h', j' | h in chains && 0 <= j < |chains[h]| && h' in chains && 0 <= j' < |chains[h']|
                          && chains[h][j] == chains[h'][j']
      ensures h == h' && j == j'
    {
      ChainsMeetAtHead(cx, orig, absorbed, chains[h], j, chains[h'], j');
    }
  }

  /** Merging partitions the blocks exactly when no block targets itself. */
  lemma PartitionExact(cx: Context, blocks: seq<BasicBlock>, absorbed: set<Pc>, absorber: map<Pc, nat>,
                       chains: map<Pc, seq<Pc>>)
    requires DistinctStarts(blocks) && DistinctLastPcs(ByStart(blocks))
    requires Claimed(cx, blocks, |blocks|, absorbed, absorber)
    requires AllChains(cx, ByStart(blocks), absorbed, chains)
    ensures Partitions(ByStart(blocks), chains) <==> NoSelfTarget(cx, ByStart(blocks))
  {
    var orig := ByStart(blocks);
    ChainsDisjoint(cx, orig, absorbed, chains);
    if NoSelfTarget(cx, orig) {
      forall c | c in orig
        ensures exists h :: InChain(chains, h, c)
      {
        var h := HeadOf(cx, blocks, absorbed, absorber, chains, c);
      }
    } else {
      var c :| c in orig && MergeTarget(cx, orig[c]) == Some(c);
      forall h
        ensures !InChain(chains, h, c)
      {
        SelfTargetLost(cx, blocks, absorbed, absorber, chains, c, h);
      }
    }
  }

  // ----- instruction counts -----

  ghost function SumCounts(orig: Blocks, cs: seq<Pc>): nat
    requires AllIn(orig, cs)
  {
    if cs == [] then 0 else orig[cs[0]].count + SumCounts(orig, cs[1..])
  }

  ghost predicate NoDuplicates(cs: seq<Pc>) {
    forall i, j | 0 <= i < j < |cs| :: cs[i] != cs[j]
  }

  lemma {:induction false} SumConcat(orig: Blocks, a: seq<Pc>, b: seq<Pc>)
    requires AllIn(orig, a) && AllIn(orig, b)
    ensures SumCounts(orig, a + b) == SumCounts(orig, a) + SumCounts(orig, b)
    decreases |a|
  {
    if a == [] {
      assert a + b == b;
    } else {
      SumConcat(orig, a[1..], b);
      assert (a + b)[1..] == a[1..] + b;
    }
  }

  lemma SumRemove(orig: Blocks, b: seq<Pc>, k: nat)
    requires k < |b| && AllIn(orig, b)
    ensures SumCounts(orig, b) == orig[b[k]].count + SumCounts(orig, b[..k] + b[k + 1..])
  {
    assert b == b[..k] + ([b[k]] + b[k + 1..]);
    SumConcat(orig, b[..k], [b[k]] + b[k + 1..]);
    SumConcat(orig, b[..k], b[k + 1..]);
  }

  lemma FirstIn(b: seq<Pc>)
    requires b != []
    ensures b[0] in b
  {
  }

  /** Duplicate-free lists of the same blocks have the same total. */
  lemma {:induction false} SumSameBlocks(orig: Blocks, a: seq<Pc>, b: seq<Pc>)
    requires NoDuplicates(a) && NoDuplicates(b)
    requires AllIn(orig, a) && AllIn(orig, b)
    requires forall c :: c in a <==> c in b
    ensures SumCounts(orig, a) == SumCounts(orig, b)
    decreases |a|
  {
    if a == [] {
      if b != [] {
        FirstIn(b);
      }
    } else {
      assert a[0] in a && a[0] in b;
      var k :| 0 <= k < |b| && b[k] == a[0];
      var rest := b[..k] + b[k + 1..];
      SumRemove(orig, b, k);
      SplitOff(b, k, rest);
      SplitOff(a, 0, a[1..]);
      assert AllIn(orig, a[1..]) && AllIn(orig, rest);
      SumSameBlocks(orig, a[1..], rest);
    }
  }

  lemma SplitOff(a: seq<Pc>, k: nat, rest: seq<Pc>)
    requires NoDuplicates(a) && k < |a| && rest == a[..k] + a[k + 1..]
    ensures NoDuplicates(rest) && forall c :: c in rest <==> c in a && c != a[k]
  {
    assert forall i | 0 <= i < |rest| :: rest[i] == if i < k then a[i] else a[i + 1];
    forall c | c in a && c != a[k]
      ensures c in rest
    {
      var i :| 0 <= i < |a| && a[i] == c;
      assert rest[if i < k then i else i - 1] == c;
    }
  }

  /** The chains of the given heads, one after another. */
  ghost function Flatten(chains: map<Pc, seq<Pc>>, heads: seq<Pc>): seq<Pc>
    requires forall h | h in heads :: h in chains
  {
    if heads == [] then [] else chains[heads[0]] + Flatten(chains, heads[1..])
  }

  lemma {:induction false} FlattenElements(chains: map<Pc, seq<Pc>>, heads: seq<Pc>)
    requires forall h | h in heads :: h in chains
    ensures forall c :: c in Flatten(chains, heads) <==> exists h | h in heads :: c in chains[h]
    decreases |heads|
  {
    if heads != [] {
      FlattenElements(chains, heads[1..]);
      assert heads == [heads[0]] + heads[1..];
      forall c
        ensures c in Flatten(chains, heads) <==> exists h | h in heads :: c in chains[h]
      {
        if c in chains[heads[0]] {
          assert heads[0] in heads;
        } else if c in Flatten(chains, heads[1..]) {
          var h :| h in heads[1..] && c in chains[h];
          assert h in heads;
        }
      }
    }
  }

  lemma {:induction false} FlattenNoDuplicates(chains: map<Pc, seq<Pc>>, heads: seq<Pc>)
    requires PairwiseDisjoint(chains) && NoDuplicates(heads)
    requires forall h | h in heads :: h in chains
    ensures NoDuplicates(Flatten(chains, heads))
    decreases |heads|
  {
    if heads != [] {
      FlattenNoDuplicates(chains, heads[1..]);
      FlattenElements(chains, heads[1..]);
      var first, rest := chains[heads[0]], Flatten(chains, heads[1..]);
      var all := first + rest;
      forall i, j | 0 <= i < j < |all|
        ensures all[i] != all[j]
      {
        if i < |first| <= j {
          assert rest[j - |first|] in rest;
          var h :| h in heads[1..] && rest[j - |first|] in chains[h];
          var k :| 0 <= k < |chains[h]| && chains[h][k] == all[j];
          assert heads[0] != h;
        }
      }
    }
  }

  lemma ElementsIn(orig: Blocks, cs: seq<Pc>)
    requires forall c | c in cs :: c in orig
    ensures AllIn(orig, cs)
  {
  }

  /** The chains of all heads hold as many instructions as all blocks together. */
  lemma CountsConserved(orig: Blocks, chains: map<Pc, seq<Pc>>, starts: seq<Pc>, heads: seq<Pc>)
    requires Partitions(orig, chains)
    requires forall h | h in chains :: AllIn(orig, chains[h])
    requires NoDuplicates(starts) && (forall c :: c in starts <==> c in orig)
    requires NoDuplicates(heads) && (forall h :: h in heads <==> h in chains)
    ensures AllIn(orig, Flatten(chains, heads)) && AllIn(orig, starts)
    ensures SumCounts(orig, Flatten(chains, heads)) == SumCounts(orig, starts)
  {
    FlattenElements(chains, heads);
    FlattenNoDuplicates(chains, heads);
    ElementsIn(orig, starts);
    ElementsIn(orig, Flatten(chains, heads));
    forall c | c in starts
      ensures c in Flatten(chains, heads)
    {
      var h :| InChain(chains, h, c);
      assert h in heads;
    }
    SumSameBlocks(orig, Flatten(chains, heads), starts);
  }

  // ----- behaviour -----

  /** Predecessors hold every recorded edge. */
  ghost predicate Recorded(succs: Edges, preds: Edges) {
    forall p, q | p in succs && q in succs[p] :: q in preds && p in preds[q]
  }

  /** Every absorbed address was claimed by some block. */
  ghost predicate AllClaimed(cx: Context, orig: Blocks, absorbed: set<Pc>) {
    forall t | t in absorbed :: exists a | a in orig :: MergeTarget(cx, orig[a]) == Some(t)
  }

  lemma MergedChainLinked(cx: Context, orig: Blocks, absorbed: set<Pc>, chain: seq<Pc>)
    requires WellFormed(cx.code) && GoodBlocks(cx.code, orig) && MaximalChain(cx, orig, absorbed, chain)
    ensures Linked(cx.code, orig, chain)
  {
    forall j | 0 <= j < |chain|
      ensures chain[j] in orig && orig[chain[j]].lastPc in cx.code
    {
      if j > 0 {
        assert Follows(cx, orig, absorbed, chain[j - 1], chain[j - 1 + 1]);
      }
      var b := orig[chain[j]];
      assert GoodBlock(cx.code, b);
      LastInCode(cx.code, b.start, b.lastPc, b.end);
    }
    forall j | 0 <= j < |chain| - 1
      ensures Continues(cx.code, orig[chain[j]].lastPc, chain[j + 1])
    {
      assert Follows(cx, orig, absorbed, chain[j], chain[j + 1]);
      assert PlainFall(cx.code, orig[chain[j]].lastPc);
    }
  }

  /** An absorbed block is only entered from the block before it in its chain. */
  lemma MergedExit(cx: Context, succs: Edges, orig: Blocks, absorbed: set<Pc>, chain: seq<Pc>, j: nat, q: Pc)
    requires DistinctLastPcs(orig) && Recorded(succs, cx.preds)
    requires AllClaimed(cx, orig, absorbed) && MaximalChain(cx, orig, absorbed, chain)
    requires j < |chain| && chain[j] in orig && orig[chain[j]].lastPc in cx.code
    requires q in orig && q in Lookup(succs, orig[chain[j]].lastPc)
    requires LeavesChain(cx.code, orig, chain, j, q)
    ensures q !in absorbed
  {
    assert !Follows(cx, orig, absorbed, chain[|chain| - 1], q);
  }

  /** Merging keeps the layout faithful. */
  lemma MergeIsFaithful(cx: Context, succs: Edges, orig: Blocks, absorbed: set<Pc>,
                        chains: map<Pc, seq<Pc>>, redirect: map<Pc, Pc>)
    requires WellFormed(cx.code) && GoodBlocks(cx.code, orig)
    requires EdgesReachBlocks(cx.code, succs, orig) && Recorded(succs, cx.preds)
    requires AllClaimed(cx, orig, absorbed) && AllChains(cx, orig, absorbed, chains)
    requires redirect.Keys <= absorbed * orig.Keys && redirect.Values <= chains.Keys
    ensures Faithful(cx.code, succs, orig, Layout(chains, redirect))
  {
    var l := Layout(chains, redirect);
    forall b | b in chains
      ensures Linked(cx.code, orig, chains[b])
    {
      MergedChainLinked(cx, orig, absorbed, chains[b]);
    }
    forall b, j | b in chains && 0 <= j < |chains[b]|
      ensures ExitsCovered(cx.code, succs, orig, l, b, j)
    {
      forall q | q in cx.code && q in Lookup(succs, orig[chains[b][j]].lastPc) && LeavesChain(cx.code, orig, chains[b], j, q)
        ensures q in chains
      {
        assert chains[b][j] in orig;
        MergedExit(cx, succs, orig, absorbed, chains[b], j, q);
      }
    }
    forall a | a in redirect
      ensures a in cx.code
    {
      assert GoodBlock(cx.code, orig[a]);
    }
  }
}
