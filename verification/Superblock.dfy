/**
  Superblocks: a block that ends in a branch absorbs the blocks its fall-through
  path runs into; the branch becomes a side exit.
 */
module Superblock {
  import opened Sets
  import opened Code
  import opened Layout
  import opened Formation
  import opened Merge
  import opened Tables
  import opened TailDup
  import opened TakenInline

  /** Where the fall-through path goes on after a block, if statically known. */
  function PathNext(code: Code, b: BasicBlock): Option<Pc> {
    if b.lastPc !in code then None else
    match code[b.lastPc].term
    case Fall(t) => if t.Some? then t else Some(b.end)
    case Jump(t) => Some(t)
    case _ => None
  }

  /** A block that may be absorbed; targets are the blocks others were redirected to. */
  predicate Absorbable(cx: Context, targets: set<Pc>, c: Pc) {
    c !in cx.entries && c !in targets && |Lookup(cx.preds, c)| <= 1
  }

  /** The chain absorbed by head h. */
  ghost predicate GoodChain(cx: Context, blocks: seq<BasicBlock>, targets: set<Pc>, maxDepth: nat, chain: seq<Pc>) {
    && |chain| <= maxDepth
    && (forall k | 0 <= k < |chain| ::
          && HasStart(blocks, chain[k]) && Absorbable(cx, targets, chain[k])
          && BlockAt(blocks, chain[k]).lastPc in cx.code)
    && (forall k | 0 < k < |chain| :: PathLinks(cx.code, blocks, chain, k))
    && NoDuplicates(chain)
  }

  /** The path runs to the k-th block of the chain from the one before. */
  ghost predicate PathLinks(code: Code, blocks: seq<BasicBlock>, chain: seq<Pc>, k: int) {
    0 < k < |chain| && HasStart(blocks, chain[k - 1]) && PathNext(code, BlockAt(blocks, chain[k - 1])) == Some(chain[k])
  }

  /** Nothing keeps block c out of a chain: it is absorbable, no head and not taken. */
  ghost predicate MayJoin(cx: Context, blocks: seq<BasicBlock>, targets: set<Pc>, heads: set<Pc>, taken: set<Pc>, c: Pc) {
    && HasStart(blocks, c) && Absorbable(cx, targets, c) && BlockAt(blocks, c).lastPc in cx.code
    && c !in heads && c !in taken
  }

  /** The path from `start` along the chain leads to a block that may join it. */
  ghost predicate GoesOn(cx: Context, blocks: seq<BasicBlock>, targets: set<Pc>, heads: set<Pc>, taken: set<Pc>,
                         start: Pc, chain: seq<Pc>)
  {
    if chain == [] then MayJoin(cx, blocks, targets, heads, taken, start)
    else
      && HasStart(blocks, chain[|chain| - 1])
      && var next := PathNext(cx.code, BlockAt(blocks, chain[|chain| - 1]));
         next.Some? && MayJoin(cx, blocks, targets, heads, taken, next.value)
  }

  /** Walk the fall-through path from `start` over blocks that may be absorbed, as far
      as they go. */
  method BuildSuperblockChain(cx: Context, blocks: seq<BasicBlock>, index: map<Pc, nat>, targets: set<Pc>,
                              start: Pc, heads: set<Pc>, absorbedBefore: set<Pc>, maxDepth: nat)
    returns (chain: seq<Pc>, absorbed: set<Pc>)
    requires DistinctStarts(blocks) && Indexes(blocks, index)
    ensures GoodChain(cx, blocks, targets, maxDepth, chain)
    ensures chain != [] ==> chain[0] == start
    ensures forall c :: c in absorbed <==> c in absorbedBefore || c in chain
    ensures forall k | 0 <= k < |chain| :: chain[k] !in heads && chain[k] !in absorbedBefore
    ensures |chain| == maxDepth || !GoesOn(cx, blocks, targets, heads, absorbed, start, chain)
  {
    chain, absorbed := [], absorbedBefore;
    var current, depth := start, 0;
    while depth < maxDepth
      invariant depth == |chain| <= maxDepth
      invariant GoodChain(cx, blocks, targets, maxDepth, chain)
      invariant chain == [] ==> current == start
      invariant chain != [] ==> chain[0] == start && HasStart(blocks, chain[|chain| - 1])
                                && PathNext(cx.code, BlockAt(blocks, chain[|chain| - 1])) == Some(current)
      invariant forall c :: c in absorbed <==> c in absorbedBefore || c in chain
      invariant forall k | 0 <= k < |chain| :: chain[k] !in heads && chain[k] !in absorbedBefore
      decreases maxDepth - depth
    {
      if current in absorbed || current in cx.entries {
        break;
      }
      if current !in index {
        break;
      }
      if current in targets || current in heads {
        break;
      }
      if |Lookup(cx.preds, current)| > 1 {
        break;
      }
      var block := blocks[index[current]];
      if block.lastPc !in cx.code {
        break;
      }
      assert HasStart(blocks, current) && BlockAt(blocks, current) == block;
      PushMember(cx, blocks, targets, maxDepth, chain, current);
      chain := chain + [current];
      absorbed := absorbed + {current};
      depth := depth + 1;
      var next := PathNext(cx.code, block);
      if next.None? {
        break;
      }
      current := next.value;
    }
  }

  lemma PushMember(cx: Context, blocks: seq<BasicBlock>, targets: set<Pc>, maxDepth: nat, chain: seq<Pc>, c: Pc)
    requires GoodChain(cx, blocks, targets, maxDepth, chain) && |chain| < maxDepth && c !in chain
    requires HasStart(blocks, c) && Absorbable(cx, targets, c) && BlockAt(blocks, c).lastPc in cx.code
    requires chain != [] ==> PathNext(cx.code, BlockAt(blocks, chain[|chain| - 1])) == Some(c)
    ensures GoodChain(cx, blocks, targets, maxDepth, chain + [c])
  {
    var more := chain + [c];
    forall k | 0 < k < |more|
      ensures PathLinks(cx.code, blocks, more, k)
    {
      if k < |chain| {
        assert PathLinks(cx.code, blocks, chain, k);
      }
    }
  }

  // ----- all chains -----

  /** A block that ends in a branch and that nothing was redirected to. */
  ghost predicate IsHead(code: Code, blocks: seq<BasicBlock>, targets: set<Pc>, h: Pc) {
    && HasStart(blocks, h) && h !in targets
    && BlockAt(blocks, h).lastPc in code && code[BlockAt(blocks, h).lastPc].term.Branch?
  }

  /** The chain of one head; `home` maps every absorbed block to its head. */
  ghost predicate Planned(cx: Context, blocks: seq<BasicBlock>, targets: set<Pc>, maxDepth: nat, h: Pc, chain: seq<Pc>,
                          home: map<Pc, Pc>)
  {
    && IsHead(cx.code, blocks, targets, h) && h !in home
    && GoodChain(cx, blocks, targets, maxDepth, chain)
    && chain != [] && chain[0] == BlockAt(blocks, h).end
    && AtHome(chain, home, h)
  }

  ghost predicate AtHome(chain: seq<Pc>, home: map<Pc, Pc>, h: Pc) {
    forall k | 0 <= k < |chain| :: chain[k] in home && home[chain[k]] == h
  }

  ghost predicate GoodPlan(cx: Context, blocks: seq<BasicBlock>, targets: set<Pc>, maxDepth: nat,
                           plan: map<Pc, seq<Pc>>, home: map<Pc, Pc>)
  {
    && (forall h | h in plan :: Planned(cx, blocks, targets, maxDepth, h, plan[h], home))
    && (forall c | c in home :: home[c] in plan && c in plan[home[c]])
  }

  ghost function Rehome(home: map<Pc, Pc>, chain: seq<Pc>, h: Pc): (r: map<Pc, Pc>)
    ensures forall c :: c in r <==> c in home || c in chain
    ensures forall c | c in r :: r[c] == if c in home then home[c] else h
  {
    map c | c in home.Keys + (set k | 0 <= k < |chain| :: chain[k]) :: if c in home then home[c] else h
  }

  lemma AddChain(cx: Context, blocks: seq<BasicBlock>, targets: set<Pc>, maxDepth: nat,
                 plan: map<Pc, seq<Pc>>, home: map<Pc, Pc>, h: Pc, chain: seq<Pc>)
    requires GoodPlan(cx, blocks, targets, maxDepth, plan, home)
    requires IsHead(cx.code, blocks, targets, h) && h !in home && h !in plan && h !in chain
    requires GoodChain(cx, blocks, targets, maxDepth, chain) && chain != [] && chain[0] == BlockAt(blocks, h).end
    requires forall k | 0 <= k < |chain| :: chain[k] !in home && chain[k] !in plan
    ensures GoodPlan(cx, blocks, targets, maxDepth, plan[h := chain], Rehome(home, chain, h))
  {
    AllStillPlanned(cx, blocks, targets, maxDepth, plan, home, h, chain);
    NewHome(home, chain, h);
    HomesPlanned(plan, home, h, chain);
  }

  lemma NewHome(home: map<Pc, Pc>, chain: seq<Pc>, h: Pc)
    requires h !in home && h !in chain && forall k | 0 <= k < |chain| :: chain[k] !in home
    ensures AtHome(chain, Rehome(home, chain, h), h) && h !in Rehome(home, chain, h)
  {
  }

  lemma AllStillPlanned(cx: Context, blocks: seq<BasicBlock>, targets: set<Pc>, maxDepth: nat,
                        plan: map<Pc, seq<Pc>>, home: map<Pc, Pc>, h: Pc, chain: seq<Pc>)
    requires forall g | g in plan :: Planned(cx, blocks, targets, maxDepth, g, plan[g], home)
    requires forall k | 0 <= k < |chain| :: chain[k] !in plan
    ensures forall g | g in plan :: Planned(cx, blocks, targets, maxDepth, g, plan[g], Rehome(home, chain, h))
  {
    forall g | g in plan
      ensures Planned(cx, blocks, targets, maxDepth, g, plan[g], Rehome(home, chain, h))
    {
      StillPlanned(cx, blocks, targets, maxDepth, plan, home, h, chain, g);
    }
  }

  lemma HomesPlanned(plan: map<Pc, seq<Pc>>, home: map<Pc, Pc>, h: Pc, chain: seq<Pc>)
    requires h !in plan && forall c | c in home :: home[c] in plan && c in plan[home[c]]
    ensures var home', plan' := Rehome(home, chain, h), plan[h := chain];
            forall c | c in home' :: home'[c] in plan' && c in plan'[home'[c]]
  {
  }

  lemma StillPlanned(cx: Context, blocks: seq<BasicBlock>, targets: set<Pc>, maxDepth: nat,
                     plan: map<Pc, seq<Pc>>, home: map<Pc, Pc>, h: Pc, chain: seq<Pc>, g: Pc)
    requires g in plan && Planned(cx, blocks, targets, maxDepth, g, plan[g], home) && g !in chain
    ensures Planned(cx, blocks, targets, maxDepth, g, plan[g], Rehome(home, chain, h))
  {
    assert AtHome(plan[g], home, g);
  }

  lemma AddPlanned(cx: Context, blocks: seq<BasicBlock>, targets: set<Pc>, maxDepth: nat,
                   plan: map<Pc, seq<Pc>>, home: map<Pc, Pc>, h: Pc, chain: seq<Pc>)
    requires GoodPlan(cx, blocks, targets, maxDepth, plan, home)
    requires IsHead(cx.code, blocks, targets, h) && h !in home && h !in plan && h !in chain
    requires GoodChain(cx, blocks, targets, maxDepth, chain) && (chain != [] ==> chain[0] == BlockAt(blocks, h).end)
    requires forall k | 0 <= k < |chain| :: chain[k] !in home && chain[k] !in plan
    ensures GoodPlan(cx, blocks, targets, maxDepth, if chain == [] then plan else plan[h := chain], Rehome(home, chain, h))
  {
    if chain == [] {
      assert Rehome(home, chain, h) == home;
    } else {
      AddChain(cx, blocks, targets, maxDepth, plan, home, h, chain);
    }
  }

  /** A block whose branch may be kept inside: it falls through to a block that is no entry. */
  ghost predicate Eligible(cx: Context, blocks: seq<BasicBlock>, targets: set<Pc>, h: Pc) {
    && IsHead(cx.code, blocks, targets, h)
    && BlockAt(blocks, h).end !in cx.entries && HasStart(blocks, BlockAt(blocks, h).end)
  }

  /** The chain of h, if any, could not be longer. */
  ghost predicate Exhausts(cx: Context, blocks: seq<BasicBlock>, targets: set<Pc>, maxDepth: nat,
                           heads: set<Pc>, taken: set<Pc>, plan: map<Pc, seq<Pc>>, h: Pc)
    requires HasStart(blocks, h)
  {
    var chain := if h in plan then plan[h] else [];
    |chain| == maxDepth || !GoesOn(cx, blocks, targets, heads, taken, BlockAt(blocks, h).end, chain)
  }

  /** Of the blocks in `done`, every eligible one was absorbed or is a head, and heads took
      all they could. */
  ghost predicate Searched(cx: Context, blocks: seq<BasicBlock>, targets: set<Pc>, maxDepth: nat,
                           done: set<Pc>, heads: set<Pc>, taken: set<Pc>, plan: map<Pc, seq<Pc>>)
  {
    && plan.Keys <= heads && heads !! taken
    && (forall h | h in done && Eligible(cx, blocks, targets, h) :: h in taken || h in heads)
    && (forall h | h in heads :: Eligible(cx, blocks, targets, h) && Exhausts(cx, blocks, targets, maxDepth, heads, taken, plan, h))
  }

  /** A chain that could not be longer still cannot when more is taken. */
  lemma StillExhausts(cx: Context, blocks: seq<BasicBlock>, targets: set<Pc>, maxDepth: nat, heads: set<Pc>, taken: set<Pc>,
                      plan: map<Pc, seq<Pc>>, h: Pc, heads': set<Pc>, taken': set<Pc>, plan': map<Pc, seq<Pc>>)
    requires HasStart(blocks, h) && Exhausts(cx, blocks, targets, maxDepth, heads, taken, plan, h)
    requires heads <= heads' && taken <= taken' && (h in plan <==> h in plan') && (h in plan ==> plan'[h] == plan[h])
    ensures Exhausts(cx, blocks, targets, maxDepth, heads', taken', plan', h)
  {
  }

  lemma SearchedMore(cx: Context, blocks: seq<BasicBlock>, targets: set<Pc>, maxDepth: nat, done: set<Pc>, heads: set<Pc>,
                     taken: set<Pc>, plan: map<Pc, seq<Pc>>, h: Pc, chain: seq<Pc>, taken': set<Pc>, plan': map<Pc, seq<Pc>>)
    requires Searched(cx, blocks, targets, maxDepth, done, heads, taken, plan) && Eligible(cx, blocks, targets, h)
    requires h !in heads && plan' == (if chain == [] then plan else plan[h := chain])
    requires taken <= taken' && heads + {h} !! taken'
    requires |chain| == maxDepth || !GoesOn(cx, blocks, targets, heads + {h}, taken', BlockAt(blocks, h).end, chain)
    ensures Searched(cx, blocks, targets, maxDepth, done + {h}, heads + {h}, taken', plan')
  {
    forall g | g in heads
      ensures Exhausts(cx, blocks, targets, maxDepth, heads + {h}, taken', plan', g)
    {
      StillExhausts(cx, blocks, targets, maxDepth, heads, taken, plan, g, heads + {h}, taken', plan');
    }
  }

  lemma TakenApart(heads: set<Pc>, taken: set<Pc>, chain: seq<Pc>, taken': set<Pc>)
    requires heads !! taken && forall k | 0 <= k < |chain| :: chain[k] !in heads
    requires forall c :: c in taken' <==> c in taken || c in chain
    ensures taken <= taken' && heads !! taken'
  {
  }

  /** Plan the chain of the eligible block i; `heads` are those chosen before. */
  method PlanHead(cx: Context, blocks: seq<BasicBlock>, index: map<Pc, nat>, targets: set<Pc>, maxDepth: nat, i: nat,
                  heads: set<Pc>, absorbed: set<Pc>, plan: map<Pc, seq<Pc>>, ghost home: map<Pc, Pc>)
    returns (heads': set<Pc>, absorbed': set<Pc>, plan': map<Pc, seq<Pc>>, ghost home': map<Pc, Pc>)
    requires DistinctStarts(blocks) && Indexes(blocks, index) && i < |blocks|
    requires Eligible(cx, blocks, targets, blocks[i].start) && BlockAt(blocks, blocks[i].start) == blocks[i]
    requires GoodPlan(cx, blocks, targets, maxDepth, plan, home) && absorbed == home.Keys
    requires Searched(cx, blocks, targets, maxDepth, StartsUpTo(blocks, i), heads, absorbed, plan)
    requires heads <= StartsUpTo(blocks, i) && blocks[i].start !in absorbed
    ensures GoodPlan(cx, blocks, targets, maxDepth, plan', home') && absorbed' == home'.Keys
    ensures Searched(cx, blocks, targets, maxDepth, StartsUpTo(blocks, i + 1), heads', absorbed', plan')
    ensures heads' <= StartsUpTo(blocks, i + 1) && absorbed <= absorbed'
  {
    var h := blocks[i].start;
    heads' := heads + {h};
    StartsStep(blocks, i);
    var chain;
    chain, absorbed' := BuildSuperblockChain(cx, blocks, index, targets, blocks[i].end, heads', absorbed, maxDepth);
    plan', home' := if chain == [] then plan else plan[h := chain], Rehome(home, chain, h);
    PlanMore(cx, blocks, targets, maxDepth, StartsUpTo(blocks, i), heads, absorbed, plan, home, h, chain, absorbed');
  }

  /** The chain built for h joins the plan. */
  lemma PlanMore(cx: Context, blocks: seq<BasicBlock>, targets: set<Pc>, maxDepth: nat, done: set<Pc>, heads: set<Pc>,
                 absorbed: set<Pc>, plan: map<Pc, seq<Pc>>, home: map<Pc, Pc>, h: Pc, chain: seq<Pc>, absorbed': set<Pc>)
    requires Eligible(cx, blocks, targets, h) && h !in heads && h !in absorbed
    requires GoodPlan(cx, blocks, targets, maxDepth, plan, home) && absorbed == home.Keys
    requires Searched(cx, blocks, targets, maxDepth, done, heads, absorbed, plan)
    requires GoodChain(cx, blocks, targets, maxDepth, chain) && (chain != [] ==> chain[0] == BlockAt(blocks, h).end)
    requires forall c :: c in absorbed' <==> c in absorbed || c in chain
    requires forall k | 0 <= k < |chain| :: chain[k] !in heads + {h} && chain[k] !in absorbed
    requires |chain| == maxDepth || !GoesOn(cx, blocks, targets, heads + {h}, absorbed', BlockAt(blocks, h).end, chain)
    ensures var plan', home' := if chain == [] then plan else plan[h := chain], Rehome(home, chain, h);
            && GoodPlan(cx, blocks, targets, maxDepth, plan', home') && absorbed' == home'.Keys && absorbed <= absorbed'
            && Searched(cx, blocks, targets, maxDepth, done + {h}, heads + {h}, absorbed', plan')
  {
    TakenApart(heads + {h}, absorbed, chain, absorbed');
    AddPlanned(cx, blocks, targets, maxDepth, plan, home, h, chain);
    SearchedMore(cx, blocks, targets, maxDepth, done, heads, absorbed, plan, h, chain, absorbed',
                 if chain == [] then plan else plan[h := chain]);
  }

  /** A block that is absorbed or not eligible is passed over. */
  lemma PassOver(cx: Context, blocks: seq<BasicBlock>, targets: set<Pc>, maxDepth: nat, i: nat, heads: set<Pc>,
                 absorbed: set<Pc>, plan: map<Pc, seq<Pc>>)
    requires DistinctStarts(blocks) && i < |blocks| && heads <= StartsUpTo(blocks, i)
    requires Searched(cx, blocks, targets, maxDepth, StartsUpTo(blocks, i), heads, absorbed, plan)
    requires blocks[i].start in absorbed || !Eligible(cx, blocks, targets, blocks[i].start)
    ensures Searched(cx, blocks, targets, maxDepth, StartsUpTo(blocks, i + 1), heads, absorbed, plan)
    ensures heads <= StartsUpTo(blocks, i + 1)
  {
    StartsStep(blocks, i);
  }

  /** Plan what falls through from block i, unless it is absorbed or not eligible. */
  method PlanBlock(cx: Context, blocks: seq<BasicBlock>, index: map<Pc, nat>, targets: set<Pc>, maxDepth: nat, i: nat,
                   heads: set<Pc>, absorbed: set<Pc>, plan: map<Pc, seq<Pc>>, ghost home: map<Pc, Pc>)
    returns (heads': set<Pc>, absorbed': set<Pc>, plan': map<Pc, seq<Pc>>, ghost home': map<Pc, Pc>)
    requires DistinctStarts(blocks) && Indexes(blocks, index) && i < |blocks|
    requires GoodPlan(cx, blocks, targets, maxDepth, plan, home) && absorbed == home.Keys
    requires Searched(cx, blocks, targets, maxDepth, StartsUpTo(blocks, i), heads, absorbed, plan)
    requires heads <= StartsUpTo(blocks, i) && blocks[i].start !in absorbed && blocks[i].start !in targets
    requires blocks[i].lastPc in cx.code && cx.code[blocks[i].lastPc].term.Branch?
    ensures GoodPlan(cx, blocks, targets, maxDepth, plan', home') && absorbed' == home'.Keys
    ensures Searched(cx, blocks, targets, maxDepth, StartsUpTo(blocks, i + 1), heads', absorbed', plan')
    ensures heads' <= StartsUpTo(blocks, i + 1) && absorbed <= absorbed'
  {
    HeadFound(cx, blocks, targets, i);
    if blocks[i].end in cx.entries || blocks[i].end !in index {
      PassOver(cx, blocks, targets, maxDepth, i, heads, absorbed, plan);
      return heads, absorbed, plan, home;
    }
    heads', absorbed', plan', home' := PlanHead(cx, blocks, index, targets, maxDepth, i, heads, absorbed, plan, home);
  }

  /** A block without a branch to inline at, or one that was absorbed. */
  lemma PassInline(cx: Context, blocks: seq<BasicBlock>, targets: set<Pc>, i: nat, absorbed: set<Pc>, inlines: map<Pc, Range>)
    requires i < |blocks| && AllInlined(cx, blocks, targets, i, absorbed, inlines)
    requires blocks[i].start in absorbed || !MayInline(cx, blocks, targets, blocks[i])
    ensures AllInlined(cx, blocks, targets, i + 1, absorbed, inlines)
  {
  }

  method CollectSuperblockChains(cx: Context, blocks: seq<BasicBlock>, index: map<Pc, nat>, targets: set<Pc>, maxDepth: nat)
    returns (absorbed: set<Pc>, plan: map<Pc, seq<Pc>>, inlines: map<Pc, Range>, ghost home: map<Pc, Pc>, ghost heads: set<Pc>)
    requires DistinctStarts(blocks) && Indexes(blocks, index)
    ensures GoodPlan(cx, blocks, targets, maxDepth, plan, home) && absorbed == home.Keys
    ensures Searched(cx, blocks, targets, maxDepth, StartsUpTo(blocks, |blocks|), heads, absorbed, plan)
    ensures GoodInlines(cx, blocks, targets, inlines) && AllInlined(cx, blocks, targets, |blocks|, absorbed, inlines)
  {
    absorbed, plan, inlines, home := {}, map[], map[], map[];
    var chosen := {};
    for i := 0 to |blocks|
      invariant GoodPlan(cx, blocks, targets, maxDepth, plan, home) && absorbed == home.Keys
      invariant Searched(cx, blocks, targets, maxDepth, StartsUpTo(blocks, i), chosen, absorbed, plan)
      invariant chosen <= StartsUpTo(blocks, i)
      invariant GoodInlines(cx, blocks, targets, inlines) && AllInlined(cx, blocks, targets, i, absorbed, inlines)
    {
      var b := blocks[i];
      if b.start in absorbed || b.start in targets || b.lastPc !in cx.code || !cx.code[b.lastPc].term.Branch? {
        HeadFound(cx, blocks, targets, i);
        PassOver(cx, blocks, targets, maxDepth, i, chosen, absorbed, plan);
        PassInline(cx, blocks, targets, i, absorbed, inlines);
        continue;
      }
      inlines := InlineOne(cx, blocks, index, targets, absorbed, i, inlines);
      ghost var before := absorbed;
      chosen, absorbed, plan, home := PlanBlock(cx, blocks, index, targets, maxDepth, i, chosen, absorbed, plan, home);
      StillInlined(cx, blocks, targets, i + 1, before, absorbed, inlines);
    }
    heads := chosen;
  }

  lemma HeadFound(cx: Context, blocks: seq<BasicBlock>, targets: set<Pc>, i: nat)
    requires DistinctStarts(blocks) && i < |blocks|
    ensures BlockAt(blocks, blocks[i].start) == blocks[i]
    ensures IsHead(cx.code, blocks, targets, blocks[i].start) <==>
              blocks[i].start !in targets && blocks[i].lastPc in cx.code && cx.code[blocks[i].lastPc].term.Branch?
  {
    assert HasStart(blocks, blocks[i].start);
  }

  // ----- applying the plan -----

  /** Append one block to a head and redirect it. */
  function Absorb(t: Tables, h: Pc, range: Range): Tables {
    Tables(t.blocks, t.absorbed[range.0 := h],
           t.continuations[h := ContinuationsOf(t.continuations, h) + [range]])
  }

  lemma AbsorbChains(orig: Blocks, t: Tables, h: Pc, range: Range)
    requires WholeBlocks(orig, t.continuations) && range.0 in orig && range == RangeOf(orig, range.0)
    ensures var t' := Absorb(t, h, range);
            && WholeBlocks(orig, t'.continuations)
            && ChainOf(t'.continuations, h) == ChainOf(t.continuations, h) + [range.0]
            && forall b | b != h :: ChainOf(t'.continuations, b) == ChainOf(t.continuations, b)
  {
    StartsOfPush(ContinuationsOf(t.continuations, h), range);
  }

  /** From t to t', head h has absorbed the chain. */
  ghost predicate Absorbed(orig: Blocks, t: Tables, h: Pc, chain: seq<Pc>, t': Tables) {
    && t'.blocks == t.blocks
    && WholeBlocks(orig, t'.continuations)
    && ChainOf(t'.continuations, h) == ChainOf(t.continuations, h) + chain
    && (forall b | b != h :: ChainOf(t'.continuations, b) == ChainOf(t.continuations, b))
    && (forall a :: a in t'.absorbed <==> a in t.absorbed || a in chain)
    && (forall a | a in t'.absorbed :: t'.absorbed[a] == if a in chain then h else t.absorbed[a])
  }

  lemma AbsorbOne(orig: Blocks, t: Tables, h: Pc, chain: seq<Pc>, t': Tables, range: Range)
    requires Absorbed(orig, t, h, chain, t') && range.0 in orig && range == RangeOf(orig, range.0)
    ensures Absorbed(orig, t, h, chain + [range.0], Absorb(t', h, range))
  {
    AbsorbChains(orig, t', h, range);
    assert ChainOf(t.continuations, h) + chain + [range.0] == ChainOf(t.continuations, h) + (chain + [range.0]);
  }

  lemma AbsorbNext(orig: Blocks, t: Tables, h: Pc, chain: seq<Pc>, i: nat, t': Tables, range: Range)
    requires i < |chain| && Absorbed(orig, t, h, chain[..i], t')
    requires range.0 == chain[i] && chain[i] in orig && range == RangeOf(orig, chain[i])
    ensures Absorbed(orig, t, h, chain[..i + 1], Absorb(t', h, range))
  {
    AbsorbOne(orig, t, h, chain[..i], t', range);
    assert chain[..i + 1] == chain[..i] + [chain[i]];
  }

  method ApplyChain(ghost orig: Blocks, t: Tables, index: map<Pc, nat>, h: Pc, chain: seq<Pc>) returns (t': Tables)
    requires Indexes(t.blocks, index) && Within(orig, t.blocks) && WholeBlocks(orig, t.continuations)
    requires forall k | 0 <= k < |chain| :: chain[k] in index
    ensures Absorbed(orig, t, h, chain, t')
  {
    t' := t;
    for i := 0 to |chain|
      invariant Absorbed(orig, t, h, chain[..i], t')
    {
      IndexedRange(orig, t.blocks, index, chain[i]);
      var b := t.blocks[index[chain[i]]];
      AbsorbNext(orig, t, h, chain, i, t', (b.start, b.end));
      t' := Absorb(t', h, (b.start, b.end));
    }
    assert chain[..|chain|] == chain;
  }

  /** From t to t', the heads in `done` have absorbed their chains. */
  ghost predicate Applied(orig: Blocks, t: Tables, plan: map<Pc, seq<Pc>>, home: map<Pc, Pc>, done: set<Pc>, t': Tables) {
    && t'.blocks == t.blocks
    && WholeBlocks(orig, t'.continuations)
    && (forall b :: GrownChain(t, plan, done, t', b))
    && (forall a :: GrownRedirect(t, home, done, t', a))
  }

  ghost predicate GrownChain(t: Tables, plan: map<Pc, seq<Pc>>, done: set<Pc>, t': Tables, b: Pc) {
    ChainOf(t'.continuations, b) ==
      if b in done && b in plan then ChainOf(t.continuations, b) + plan[b] else ChainOf(t.continuations, b)
  }

  ghost predicate GrownRedirect(t: Tables, home: map<Pc, Pc>, done: set<Pc>, t': Tables, a: Pc) {
    if a in home && home[a] in done then a in t'.absorbed && t'.absorbed[a] == home[a]
    else (a in t'.absorbed <==> a in t.absorbed) && (a in t.absorbed ==> t'.absorbed[a] == t.absorbed[a])
  }

  /** `home` names exactly the members of the planned chains. */
  ghost predicate Members(plan: map<Pc, seq<Pc>>, home: map<Pc, Pc>) {
    forall h, c | h in plan :: c in plan[h] <==> c in home && home[c] == h
  }

  lemma PlanMembers(cx: Context, blocks: seq<BasicBlock>, targets: set<Pc>, maxDepth: nat, plan: map<Pc, seq<Pc>>,
                    home: map<Pc, Pc>)
    requires GoodPlan(cx, blocks, targets, maxDepth, plan, home)
    ensures Members(plan, home)
  {
    forall h, c | h in plan
      ensures c in plan[h] <==> c in home && home[c] == h
    {
      assert Planned(cx, blocks, targets, maxDepth, h, plan[h], home);
    }
  }

  lemma ApplyStep(orig: Blocks, t: Tables, plan: map<Pc, seq<Pc>>, home: map<Pc, Pc>, done: set<Pc>,
                  t1: Tables, h: Pc, t2: Tables)
    requires Members(plan, home) && h in plan && h !in done
    requires Applied(orig, t, plan, home, done, t1)
    requires Absorbed(orig, t1, h, plan[h], t2)
    ensures Applied(orig, t, plan, home, done + {h}, t2)
  {
    forall b
      ensures GrownChain(t, plan, done + {h}, t2, b)
    {
      assert GrownChain(t, plan, done, t1, b);
    }
    forall a
      ensures GrownRedirect(t, home, done + {h}, t2, a)
    {
      assert GrownRedirect(t, home, done, t1, a);
    }
  }

  method ApplySuperblockChains(ghost orig: Blocks, t: Tables, index: map<Pc, nat>, plan: map<Pc, seq<Pc>>,
                               ghost home: map<Pc, Pc>)
    returns (t': Tables)
    requires Indexes(t.blocks, index) && Within(orig, t.blocks) && WholeBlocks(orig, t.continuations)
    requires Members(plan, home) && forall h, k | h in plan && 0 <= k < |plan[h]| :: plan[h][k] in index
    ensures Applied(orig, t, plan, home, plan.Keys, t')
  {
    t' := t;
    var rest := plan.Keys;
    ghost var done: set<Pc> := {};
    while rest != {}
      invariant rest !! done && rest + done == plan.Keys
      invariant Applied(orig, t, plan, home, done, t')
    {
      var h :| h in rest;
      ghost var before := t';
      t' := ApplyChain(orig, t', index, h, plan[h]);
      ApplyStep(orig, t, plan, home, done, before, h, t');
      rest, done := rest - {h}, done + {h};
    }
    assert done == plan.Keys;
  }

  // ----- exactness -----

  /** The tables before superblocks are formed: a block nothing was redirected to
      still ends in its own last instruction, and owns continuations only if it
      ends in a jump. */
  ghost predicate Untangled(code: Code, orig: Blocks, t: Tables) {
    && DistinctStarts(t.blocks) && DistinctLast(t.blocks)
    && Within(orig, t.blocks) && WholeBlocks(orig, t.continuations) && Nested(t)
    && (forall i | 0 <= i < |t.blocks| && t.blocks[i].start !in t.absorbed.Values ::
          && t.blocks[i].lastPc == orig[t.blocks[i].start].lastPc
          && (ContinuationsOf(t.continuations, t.blocks[i].start) != [] ==> IsJumpAt(code, t.blocks[i].lastPc)))
  }

  /** The pass from tables `before` to tables `after` along the given plan. */
  datatype Forming = Forming(cx: Context, maxDepth: nat, succs: Edges, orig: Blocks,
                             before: Tables, plan: map<Pc, seq<Pc>>, home: map<Pc, Pc>, after: Tables)
  {
    ghost predicate Computes() {
      && GoodPlan(cx, before.blocks, before.absorbed.Values, maxDepth, plan, home)
      && Applied(orig, before, plan, home, plan.Keys, after.(blocks := before.blocks))
      && Keeps(before.blocks, home.Keys, after.blocks)
    }

    /** The part of it that matters for runs. */
    ghost predicate Grows() {
      && GoodPlan(cx, before.blocks, before.absorbed.Values, maxDepth, plan, home)
      && Applied(orig, before, plan, home, plan.Keys, after.(blocks := before.blocks))
      && (forall b :: HasStart(after.blocks, b) <==> HasStart(before.blocks, b) && b !in home)
    }

    ghost predicate Ready() {
      && SoundBlocks(cx.code, orig) && Recorded(succs, cx.preds)
      && Untangled(cx.code, orig, before) && Faithful(cx.code, succs, orig, LayoutOf(before))
    }

    ghost function OldChain(b: Pc): seq<Pc> {
      ChainOf(before.continuations, b)
    }

    ghost function NewChain(b: Pc): seq<Pc> {
      ChainOf(after.continuations, b)
    }

    /** A recorded edge leads from block j of chain b, where control leaves the chain, to q. */
    ghost predicate Exits(b: Pc, j: nat, q: Pc) {
      && HasStart(before.blocks, b) && j < |OldChain(b)| && q in cx.code
      && var y := OldChain(b)[j];
         && y in orig && orig[y].lastPc in cx.code && q in Lookup(succs, orig[y].lastPc)
         && LeavesChain(cx.code, orig, OldChain(b), j, q)
    }

    /** The k-th member of h's chain is entered from the block before it only, and not by a
        taken branch; a member's own continuations are left behind. */
    ghost predicate EnteredInside(h: Pc, k: nat)
      requires h in plan && k < |plan[h]|
    {
      forall b, j | Exits(b, j, plan[h][k]) && (b in home ==> j == 0) :: RunsUpTo(b, h, k)
    }

    /** Block b is before that member and does not branch to it. */
    ghost predicate RunsUpTo(b: Pc, h: Pc, k: nat)
      requires h in plan && k < |plan[h]|
    {
      b == Previous(h, k) && b in orig && orig[b].lastPc in cx.code && !BranchesTo(cx.code, orig[b].lastPc, plan[h][k])
    }

    /** No recorded edge leads from c to its continuations. */
    ghost predicate EndsAlone(c: Pc) {
      ContinuationsOf(before.continuations, c) != [] ==>
        c in orig && ContinuationsOf(before.continuations, c)[0].0 !in Lookup(succs, orig[c].lastPc)
    }

    /** Members are entered from inside their chains only, and no recorded edge leads to
        continuations of a member. */
    ghost predicate Safe() {
      && (forall h | h in plan :: AllInside(h))
      && (forall c | c in home :: EndsAlone(c))
    }

    ghost predicate AllInside(h: Pc)
      requires h in plan
    {
      forall k | 0 <= k < |plan[h]| :: EnteredInside(h, k)
    }

    /** No head branches to its own fall-through and no chain member owns continuations. */
    ghost predicate OwnExits() {
      && (forall h | h in plan :: SideExitLeaves(h))
      && (forall c | c in home :: ContinuationsOf(before.continuations, c) == [])
    }

    ghost predicate SideExitLeaves(h: Pc) {
      h in plan && plan[h] != [] && h in orig && orig[h].lastPc in cx.code
      && !BranchesTo(cx.code, orig[h].lastPc, plan[h][0])
    }

    /** The block before the k-th member of h's chain. */
    ghost function Previous(h: Pc, k: nat): Pc
      requires h in plan && k < |plan[h]|
    {
      if k == 0 then h else plan[h][k - 1]
    }
  }

  type SuperPass = s: Forming | s.Ready() && s.Grows()
    ghost witness Forming(Context(map[], {}, map[]), 0, map[], map[], EMPTY, map[], map[], EMPTY)

  lemma ComputesGrows(s: Forming)
    requires s.Computes()
    ensures s.Grows()
  {
    KeptStarts(s.before.blocks, s.home.Keys, s.after.blocks);
  }

  /** A block nothing was redirected to, seen through the fresh table. */
  lemma OwnLast(s: SuperPass, b: Pc)
    requires HasStart(s.before.blocks, b) && b !in s.before.absorbed.Values
    ensures b in s.orig && EndsAt(s.cx.code, s.orig[b])
    ensures BlockAt(s.before.blocks, b).lastPc == s.orig[b].lastPc && BlockAt(s.before.blocks, b).end == s.orig[b].end
    ensures ContinuationsOf(s.before.continuations, b) != [] ==> IsJumpAt(s.cx.code, s.orig[b].lastPc)
  {
    var i := StartIndex(s.before.blocks, b);
    assert s.before.blocks[i] == BlockAt(s.before.blocks, b);
  }

  lemma HeadAlone(s: SuperPass, h: Pc)
    requires h in s.plan
    ensures s.OldChain(h) == [h] && h in s.orig && EndsAt(s.cx.code, s.orig[h])
    ensures s.cx.code[s.orig[h].lastPc].term.Branch? && s.plan[h] != [] && s.plan[h][0] == s.orig[h].end
    ensures HasStart(s.before.blocks, h) && h !in s.home
  {
    assert Planned(s.cx, s.before.blocks, s.before.absorbed.Values, s.maxDepth, h, s.plan[h], s.home);
    OwnLast(s, h);
  }

  lemma PlannedMember(cx: Context, blocks: seq<BasicBlock>, targets: set<Pc>, maxDepth: nat, h: Pc, chain: seq<Pc>,
                      home: map<Pc, Pc>, k: nat)
    requires Planned(cx, blocks, targets, maxDepth, h, chain, home) && k < |chain|
    ensures HasStart(blocks, chain[k]) && Absorbable(cx, targets, chain[k])
    ensures chain[k] in home && home[chain[k]] == h
    ensures k > 0 ==> PathLinks(cx.code, blocks, chain, k)
  {
    assert AtHome(chain, home, h);
  }

  lemma MemberFacts(s: SuperPass, h: Pc, k: nat)
    requires h in s.plan && k < |s.plan[h]|
    ensures var c := s.plan[h][k];
            && HasStart(s.before.blocks, c) && c in s.orig && EndsAt(s.cx.code, s.orig[c])
            && c in s.home && s.home[c] == h && c !in s.before.absorbed.Values && c !in s.cx.entries
            && |Lookup(s.cx.preds, c)| <= 1
  {
    PlannedMember(s.cx, s.before.blocks, s.before.absorbed.Values, s.maxDepth, h, s.plan[h], s.home, k);
    OwnLast(s, s.plan[h][k]);
  }

  lemma PathContinues(code: Code, b: BasicBlock, q: Pc)
    requires EndsAt(code, b) && PathNext(code, b) == Some(q)
    ensures Continues(code, b.lastPc, q) && !code[b.lastPc].term.Branch?
  {
  }

  lemma SamePath(code: Code, a: BasicBlock, b: BasicBlock)
    requires a.lastPc == b.lastPc && a.end == b.end
    ensures PathNext(code, a) == PathNext(code, b)
  {
  }

  lemma MemberPath(s: SuperPass, h: Pc, k: nat)
    requires h in s.plan && 0 < k < |s.plan[h]|
    ensures var c := s.plan[h][k - 1];
            && HasStart(s.before.blocks, c) && c in s.orig && EndsAt(s.cx.code, s.orig[c])
            && PathNext(s.cx.code, s.orig[c]) == Some(s.plan[h][k])
  {
    var c := s.plan[h][k - 1];
    PlannedMember(s.cx, s.before.blocks, s.before.absorbed.Values, s.maxDepth, h, s.plan[h], s.home, k - 1);
    PlannedMember(s.cx, s.before.blocks, s.before.absorbed.Values, s.maxDepth, h, s.plan[h], s.home, k);
    OwnLast(s, c);
    SamePath(s.cx.code, BlockAt(s.before.blocks, c), s.orig[c]);
  }

  /** The block before the k-th member continues there, and not by a branch. */
  lemma MemberContinues(s: SuperPass, h: Pc, k: nat)
    requires h in s.plan && 0 < k < |s.plan[h]|
    ensures var c := s.plan[h][k - 1];
            && HasStart(s.before.blocks, c) && c in s.orig && EndsAt(s.cx.code, s.orig[c])
            && Continues(s.cx.code, s.orig[c].lastPc, s.plan[h][k]) && !s.cx.code[s.orig[c].lastPc].term.Branch?
  {
    MemberPath(s, h, k);
    PathContinues(s.cx.code, s.orig[s.plan[h][k - 1]], s.plan[h][k]);
  }

  /** Block p of the tables runs on to q. */
  ghost predicate RunsInto(s: Forming, p: Pc, q: Pc) {
    && p in s.orig && s.orig[p].lastPc in s.cx.code && Continues(s.cx.code, s.orig[p].lastPc, q)
    && HasStart(s.before.blocks, p)
  }

  lemma LinkFrom(s: Forming, h: Pc, k: nat)
    requires h in s.plan && k < |s.plan[h]|
    requires if k == 0 then RunsInto(s, h, s.plan[h][0]) else RunsInto(s, s.plan[h][k - 1], s.plan[h][k])
    ensures RunsInto(s, s.Previous(h, k), s.plan[h][k])
  {
  }

  lemma LinkFirst(s: SuperPass, h: Pc)
    requires h in s.plan && s.plan[h] != []
    ensures RunsInto(s, h, s.plan[h][0])
  {
    HeadAlone(s, h);
  }

  lemma LinkLater(s: SuperPass, h: Pc, k: nat)
    requires h in s.plan && 0 < k < |s.plan[h]|
    ensures RunsInto(s, s.plan[h][k - 1], s.plan[h][k])
  {
    MemberContinues(s, h, k);
  }

  /** A chain member continues the block before it. */
  lemma LinkInPlan(s: SuperPass, h: Pc, k: nat)
    requires h in s.plan && k < |s.plan[h]|
    ensures RunsInto(s, s.Previous(h, k), s.plan[h][k])
  {
    if k == 0 {
      LinkFirst(s, h);
    } else {
      LinkLater(s, h, k);
    }
    LinkFrom(s, h, k);
  }

  lemma BothPredecessors(succs: Edges, preds: Edges, c: Pc, p: Pc, l: Pc)
    requires Recorded(succs, preds) && c in Lookup(succs, p) && c in Lookup(succs, l)
    ensures p in Lookup(preds, c) && l in Lookup(preds, c)
  {
  }

  lemma AtMostOne(preds: set<Pc>, p: Pc, q: Pc)
    requires |preds| <= 1 && p in preds && q in preds
    ensures p == q
  {
    if p != q {
      assert {p, q} <= preds;
      assert |{p, q}| == 2;
      SubsetSize({p, q}, preds);
    }
  }

  /** All recorded edges into a member come from the block before it exactly when one
      does, or there is none. */
  lemma OnlyEntry(s: SuperPass, h: Pc, k: nat)
    requires h in s.plan && k < |s.plan[h]|
    ensures s.Previous(h, k) in s.orig
    ensures var c, last := s.plan[h][k], s.orig[s.Previous(h, k)].lastPc;
            (forall p | c in Lookup(s.succs, p) :: p == last) <==>
            c in Lookup(s.succs, last) || forall p :: c !in Lookup(s.succs, p)
  {
    LinkInPlan(s, h, k);
    MemberFacts(s, h, k);
    var c, last := s.plan[h][k], s.orig[s.Previous(h, k)].lastPc;
    if c in Lookup(s.succs, last) {
      forall p | c in Lookup(s.succs, p)
        ensures p == last
      {
        BothPredecessors(s.succs, s.cx.preds, c, p, last);
        AtMostOne(Lookup(s.cx.preds, c), p, last);
      }
    }
  }

  lemma KeptHead(s: SuperPass, b: Pc)
    ensures HasStart(s.after.blocks, b) <==> HasStart(s.before.blocks, b) && b !in s.home
  {
  }

  lemma GrownTo(s: SuperPass, b: Pc)
    ensures s.NewChain(b) == if b in s.plan then s.OldChain(b) + s.plan[b] else s.OldChain(b)
  {
    assert GrownChain(s.before, s.plan, s.plan.Keys, s.after.(blocks := s.before.blocks), b);
  }

  /** Where an absorbed block is in its superblock. */
  lemma PlaceOf(s: SuperPass, q: Pc) returns (h: Pc, k: nat)
    requires q in s.home
    ensures h in s.plan && k < |s.plan[h]| && s.plan[h][k] == q && h == s.home[q]
  {
    h := s.home[q];
    k :| 0 <= k < |s.plan[h]| && s.plan[h][k] == q;
  }

  /** Blocks inside a chain are no block functions. */
  lemma InsideChain(s: SuperPass, b: Pc, j: nat)
    requires 0 < j < |s.OldChain(b)|
    ensures !HasStart(s.before.blocks, s.OldChain(b)[j])
  {
    assert s.before.continuations[b][j - 1].0 == s.OldChain(b)[j];
  }

  // ----- safety is enough -----

  /** The j-th block of a planned superblock. */
  ghost function Nth(s: SuperPass, h: Pc, j: nat): Pc
    requires h in s.plan && j <= |s.plan[h]|
  {
    if j == 0 then h else s.plan[h][j - 1]
  }

  lemma NthFacts(s: SuperPass, h: Pc, j: nat)
    requires h in s.plan && j <= |s.plan[h]|
    ensures var x := Nth(s, h, j); x in s.orig && EndsAt(s.cx.code, s.orig[x]) && HasStart(s.before.blocks, x)
    ensures j > 0 ==> Nth(s, h, j) in s.home
  {
    if j == 0 {
      HeadAlone(s, h);
    } else {
      MemberFacts(s, h, j - 1);
    }
  }

  lemma PlanFollows(s: SuperPass, h: Pc, k: nat)
    requires h in s.plan && k < |s.plan[h]|
    ensures LinkBefore(s.cx.code, s.orig, h, s.plan[h], k)
  {
    LinkInPlan(s, h, k);
    MemberFacts(s, h, k);
  }

  lemma AppendToHead(code: Code, orig: Blocks, h: Pc, rest: seq<Pc>)
    requires h in orig && orig[h].lastPc in code && LinksOn(code, orig, h, rest)
    ensures Linked(code, orig, [h] + rest)
  {
    var one := [h];
    assert Linked(code, orig, one) && one[|one| - 1] == h;
    LinkedAppend(code, orig, one, rest);
  }

  lemma PlanLinked(s: SuperPass, h: Pc)
    requires h in s.plan && s.plan[h] != []
    ensures Linked(s.cx.code, s.orig, [h] + s.plan[h])
  {
    forall k | 0 <= k < |s.plan[h]|
      ensures LinkBefore(s.cx.code, s.orig, h, s.plan[h], k)
    {
      PlanFollows(s, h, k);
    }
    HeadAlone(s, h);
    AppendToHead(s.cx.code, s.orig, h, s.plan[h]);
  }

  lemma NewChainLinked(s: SuperPass, b: Pc)
    requires HasStart(s.before.blocks, b)
    ensures Linked(s.cx.code, s.orig, s.NewChain(b))
  {
    GrownTo(s, b);
    if b in s.plan {
      HeadAlone(s, b);
      PlanLinked(s, b);
    } else {
      FaithfulLinked(s.cx.code, s.succs, s.orig, s.before, b);
    }
  }

  /** Under safety, exits of a block that absorbed nothing. */
  lemma OtherExit(s: SuperPass, b: Pc, j: nat, q: Pc)
    requires s.Safe() && b !in s.home && b !in s.plan && s.Exits(b, j, q)
    ensures HasStart(s.before.blocks, q) && q !in s.home
  {
    FaithfulLinked(s.cx.code, s.succs, s.orig, s.before, b);
    FaithfulExit(s.cx.code, s.succs, s.orig, s.before, b, j, q);
    if q in s.home {
      var h, k := PlaceOf(s, q);
      assert s.AllInside(h) && s.EnteredInside(h, k);
      NthFacts(s, h, k);
    }
  }

  /** A block of a superblock that owned continuations jumps there, and is the last one. */
  lemma OwnerJumps(s: SuperPass, c: Pc)
    requires HasStart(s.before.blocks, c) && c !in s.before.absorbed.Values && ContinuationsOf(s.before.continuations, c) != []
    ensures c in s.orig && s.orig[c].lastPc in s.cx.code
    ensures var d := ContinuationsOf(s.before.continuations, c)[0].0;
            s.cx.code[s.orig[c].lastPc].term == Jump(d) && !HasStart(s.before.blocks, d)
  {
    OwnLast(s, c);
    FaithfulLinked(s.cx.code, s.succs, s.orig, s.before, c);
    InsideChain(s, c, 1);
    assert s.OldChain(c)[0] == c && s.OldChain(c)[1] == ContinuationsOf(s.before.continuations, c)[0].0;
  }

  /** Under safety a recorded edge leaves a block of a superblock that stood alone. */
  lemma AloneExit(s: SuperPass, h: Pc, j: nat, q: Pc)
    requires s.Safe() && h in s.plan && j <= |s.plan[h]| && Nth(s, h, j) in s.orig && s.orig[Nth(s, h, j)].lastPc in s.cx.code
    requires q in s.cx.code && q in Lookup(s.succs, s.orig[Nth(s, h, j)].lastPc)
    requires CanFlow(s.cx.code, s.orig[Nth(s, h, j)].lastPc, q)
    ensures s.Exits(Nth(s, h, j), 0, q) && s.OldChain(Nth(s, h, j)) == [Nth(s, h, j)]
  {
    var x := Nth(s, h, j);
    NthFacts(s, h, j);
    if j == 0 {
      HeadAlone(s, h);
    } else {
      MemberFacts(s, h, j - 1);
      assert s.EndsAlone(x);
      if ContinuationsOf(s.before.continuations, x) != [] {
        OwnerJumps(s, x);
      }
    }
  }

  /** A block is at one place of one superblock. */
  lemma SamePlace(s: SuperPass, b: Pc, j: nat, h: Pc, k: nat)
    requires b in s.plan && j <= |s.plan[b]| && h in s.plan && k < |s.plan[h]|
    requires Nth(s, b, j) == Nth(s, h, k)
    ensures b == h && j == k
  {
    HeadAlone(s, b);
    HeadAlone(s, h);
    if j > 0 {
      MemberFacts(s, b, j - 1);
    }
    if k > 0 {
      MemberFacts(s, h, k - 1);
    }
    assert Planned(s.cx, s.before.blocks, s.before.absorbed.Values, s.maxDepth, h, s.plan[h], s.home);
    assert NoDuplicates(s.plan[h]);
  }

  lemma SafeEntry(s: SuperPass, h: Pc, k: nat, b: Pc)
    requires s.Safe() && h in s.plan && k < |s.plan[h]| && s.Exits(b, 0, s.plan[h][k])
    ensures s.RunsUpTo(b, h, k)
  {
    assert s.AllInside(h) && s.EnteredInside(h, k);
  }

  /** Under safety no recorded branch of a block that stood alone leads to an absorbed one. */
  lemma BranchTargetKept(s: SuperPass, b: Pc, q: Pc)
    requires s.Safe() && s.Exits(b, 0, q) && b in s.orig && BranchesTo(s.cx.code, s.orig[b].lastPc, q)
    ensures q !in s.home
  {
    if q in s.home {
      var h, k := PlaceOf(s, q);
      SafeEntry(s, h, k, b);
    }
  }

  lemma SuperExit(s: SuperPass, b: Pc, j: nat, q: Pc)
    requires s.Safe() && b in s.plan && j <= |s.plan[b]|
    requires Linked(s.cx.code, s.orig, [b] + s.plan[b]) && LeavesChain(s.cx.code, s.orig, [b] + s.plan[b], j, q)
    requires q in s.cx.code && Nth(s, b, j) in s.orig && q in Lookup(s.succs, s.orig[Nth(s, b, j)].lastPc)
    ensures HasStart(s.before.blocks, q) && q !in s.home
  {
    var x := Nth(s, b, j);
    NthIs(b, s.plan[b], [b] + s.plan[b], j);
    NthFacts(s, b, j);
    AloneExit(s, b, j, q);
    FaithfulLinked(s.cx.code, s.succs, s.orig, s.before, x);
    FaithfulExit(s.cx.code, s.succs, s.orig, s.before, x, 0, q);
    if q in s.home {
      var h, k := PlaceOf(s, q);
      SafeEntry(s, h, k, x);
      SamePlace(s, b, j, h, k);
    }
  }

  lemma OtherExits(s: SuperPass, b: Pc)
    requires s.Safe() && HasStart(s.before.blocks, b) && b !in s.home && b !in s.plan
    requires s.NewChain(b) == s.OldChain(b) && Linked(s.cx.code, s.orig, s.NewChain(b))
    ensures ExitsReach(s.cx.code, s.succs, s.orig, s.after, b)
  {
    var chain := s.NewChain(b);
    forall j, q | 0 <= j < |chain| && q in s.cx.code && q in Lookup(s.succs, s.orig[chain[j]].lastPc)
                  && LeavesChain(s.cx.code, s.orig, chain, j, q)
      ensures HasStart(s.after.blocks, q)
    {
      assert s.Exits(b, j, q);
      OtherExit(s, b, j, q);
      KeptHead(s, q);
    }
  }

  lemma NthIs(h: Pc, rest: seq<Pc>, chain: seq<Pc>, j: nat)
    requires chain == [h] + rest && j <= |rest|
    ensures chain[j] == if j == 0 then h else rest[j - 1]
  {
  }

  lemma SuperExits(s: SuperPass, b: Pc)
    requires s.Safe() && b in s.plan
    requires s.NewChain(b) == [b] + s.plan[b] && Linked(s.cx.code, s.orig, s.NewChain(b))
    ensures ExitsReach(s.cx.code, s.succs, s.orig, s.after, b)
  {
    var chain := s.NewChain(b);
    forall j, q | 0 <= j < |chain| && q in s.cx.code && q in Lookup(s.succs, s.orig[chain[j]].lastPc)
                  && LeavesChain(s.cx.code, s.orig, chain, j, q)
      ensures HasStart(s.after.blocks, q)
    {
      NthIs(b, s.plan[b], chain, j);
      SuperExit(s, b, j, q);
      KeptHead(s, q);
    }
  }

  lemma NewExits(s: SuperPass, b: Pc)
    requires s.Safe() && HasStart(s.after.blocks, b) && Linked(s.cx.code, s.orig, s.NewChain(b))
    ensures ExitsReach(s.cx.code, s.succs, s.orig, s.after, b)
  {
    KeptHead(s, b);
    GrownTo(s, b);
    if b in s.plan {
      HeadAlone(s, b);
      SuperExits(s, b);
    } else {
      OtherExits(s, b);
    }
  }

  lemma NewRedirect(s: SuperPass, a: Pc)
    requires a in s.after.absorbed
    ensures a in s.cx.code && !HasStart(s.after.blocks, a) && HasStart(s.after.blocks, s.after.absorbed[a])
  {
    assert GrownRedirect(s.before, s.home, s.plan.Keys, s.after.(blocks := s.before.blocks), a);
    if a in s.home {
      HeadAlone(s, s.home[a]);
      var k :| 0 <= k < |s.plan[s.home[a]]| && s.plan[s.home[a]][k] == a;
      MemberFacts(s, s.home[a], k);
    } else {
      FaithfulRedirect(s.cx.code, s.succs, s.orig, s.before, a);
      var v := s.before.absorbed[a];
      assert v in s.before.absorbed.Values;
      TargetKept(s, v);
    }
  }

  lemma TargetKept(s: SuperPass, v: Pc)
    requires v in s.before.absorbed.Values
    ensures v !in s.home
  {
    if v in s.home {
      HomeTargets(s, v);
    }
  }

  lemma HomeTargets(s: SuperPass, c: Pc)
    requires c in s.home
    ensures c !in s.before.absorbed.Values && c in s.cx.code
  {
    var k :| 0 <= k < |s.plan[s.home[c]]| && s.plan[s.home[c]][k] == c;
    MemberFacts(s, s.home[c], k);
  }

  lemma SafeSuperblocks(s: SuperPass)
    requires s.Safe()
    ensures Faithful(s.cx.code, s.succs, s.orig, LayoutOf(s.after))
  {
    forall b | HasStart(s.after.blocks, b)
      ensures Linked(s.cx.code, s.orig, s.NewChain(b)) && ExitsReach(s.cx.code, s.succs, s.orig, s.after, b)
    {
      NewChainLinked(s, b);
      NewExits(s, b);
    }
    forall a | a in s.after.absorbed
      ensures a in s.cx.code && !HasStart(s.after.blocks, a) && HasStart(s.after.blocks, s.after.absorbed[a])
    {
      NewRedirect(s, a);
    }
    TablesFaithful(s.cx.code, s.succs, s.orig, s.after);
  }

  // ----- and needed -----

  ghost predicate StaysFaithful(s: SuperPass) {
    Faithful(s.cx.code, s.succs, s.orig, LayoutOf(s.after))
  }

  /** A recorded exit of a faithful table leads to a block function. */
  lemma ExitKept(code: Code, succs: Edges, orig: Blocks, t: Tables, h: Pc, rest: seq<Pc>, j: nat, q: Pc)
    requires Faithful(code, succs, orig, LayoutOf(t)) && HasStart(t.blocks, h)
    requires ChainOf(t.continuations, h) == [h] + rest && j <= |rest| && q in code
    requires var x := if j == 0 then h else rest[j - 1];
             && x in orig && orig[x].lastPc in code && q in Lookup(succs, orig[x].lastPc)
             && CanFlow(code, orig[x].lastPc, q) && (j == |rest| || BranchesTo(code, orig[x].lastPc, q))
    ensures HasStart(t.blocks, q)
  {
    NthIs(h, rest, ChainOf(t.continuations, h), j);
    FaithfulLinked(code, succs, orig, t, h);
    FaithfulExit(code, succs, orig, t, h, j, q);
  }

  lemma HeadAfter(s: SuperPass, h: Pc)
    requires h in s.plan
    ensures HasStart(s.after.blocks, h) && s.NewChain(h) == [h] + s.plan[h]
  {
    HeadAlone(s, h);
    KeptHead(s, h);
    GrownTo(s, h);
  }

  /** Recorded exits of a superblock that stays faithful do not lead to absorbed blocks. */
  lemma ExitsAfter(s: SuperPass, h: Pc, j: nat, q: Pc)
    requires StaysFaithful(s) && h in s.plan && j <= |s.plan[h]| && q in s.cx.code
    requires Nth(s, h, j) in s.orig && s.orig[Nth(s, h, j)].lastPc in s.cx.code
    requires q in Lookup(s.succs, s.orig[Nth(s, h, j)].lastPc) && CanFlow(s.cx.code, s.orig[Nth(s, h, j)].lastPc, q)
    requires j == |s.plan[h]| || BranchesTo(s.cx.code, s.orig[Nth(s, h, j)].lastPc, q)
    ensures HasStart(s.before.blocks, q) && q !in s.home
  {
    HeadAfter(s, h);
    ExitKept(s.cx.code, s.succs, s.orig, s.after, h, s.plan[h], j, q);
    KeptHead(s, q);
  }

  /** An exit of a block that absorbed nothing does not lead to an absorbed one. */
  lemma OtherAfter(s: SuperPass, b: Pc, j: nat, q: Pc)
    requires StaysFaithful(s) && b !in s.home && b !in s.plan && s.Exits(b, j, q)
    ensures q !in s.home
  {
    KeptHead(s, b);
    GrownTo(s, b);
    FaithfulLinked(s.cx.code, s.succs, s.orig, s.after, b);
    FaithfulExit(s.cx.code, s.succs, s.orig, s.after, b, j, q);
    KeptHead(s, q);
  }

  /** The j-th block of a superblock enters an absorbed block only as the next one. */
  lemma EntersNext(s: SuperPass, g: Pc, j: nat, h: Pc, k: nat)
    requires StaysFaithful(s) && g in s.plan && j <= |s.plan[g]| && h in s.plan && k < |s.plan[h]|
    requires s.Exits(Nth(s, g, j), 0, s.plan[h][k])
    ensures s.RunsUpTo(Nth(s, g, j), h, k)
  {
    var b, c := Nth(s, g, j), s.plan[h][k];
    NthFacts(s, g, j);
    assert s.OldChain(b)[0] == b;
    MemberFacts(s, h, k);
    if j == |s.plan[g]| || BranchesTo(s.cx.code, s.orig[b].lastPc, c) {
      ExitsAfter(s, g, j, c);
    } else {
      LinkInPlan(s, g, j);
      FlowsOnce(s.cx.code, s.orig[b].lastPc, c, s.plan[g][j]);
      SameMember(s, g, j, h, k);
    }
  }

  /** What does not branch goes to one place. */
  lemma FlowsOnce(code: Code, p: Pc, q: Pc, r: Pc)
    requires p in code && CanFlow(code, p, q) && !BranchesTo(code, p, q) && Continues(code, p, r)
    ensures q == r
  {
  }

  lemma SameMember(s: SuperPass, g: Pc, j: nat, h: Pc, k: nat)
    requires g in s.plan && j < |s.plan[g]| && h in s.plan && k < |s.plan[h]| && s.plan[g][j] == s.plan[h][k]
    ensures g == h && j == k
  {
    MemberFacts(s, g, j);
    MemberFacts(s, h, k);
    assert Planned(s.cx, s.before.blocks, s.before.absorbed.Values, s.maxDepth, h, s.plan[h], s.home);
    assert NoDuplicates(s.plan[h]);
  }

  /** Where a head or an absorbed block is in its superblock. */
  lemma NthOf(s: SuperPass, b: Pc) returns (g: Pc, j: nat)
    requires b in s.home || b in s.plan
    ensures g in s.plan && j <= |s.plan[g]| && Nth(s, g, j) == b
  {
    if b in s.plan {
      g, j := b, 0;
    } else {
      g := s.home[b];
      j := PlaceIn(s.plan[g], b);
    }
  }

  lemma PlaceIn(chain: seq<Pc>, c: Pc) returns (n: nat)
    requires c in chain
    ensures 0 < n <= |chain| && chain[n - 1] == c
  {
    var k :| 0 <= k < |chain| && chain[k] == c;
    n := k + 1;
  }

  lemma EntryNeeded(s: SuperPass, h: Pc, k: nat, b: Pc, j: nat)
    requires StaysFaithful(s) && h in s.plan && k < |s.plan[h]| && s.Exits(b, j, s.plan[h][k]) && (b in s.home ==> j == 0)
    ensures s.RunsUpTo(b, h, k)
  {
    if b in s.plan || b in s.home {
      var g, n := NthOf(s, b);
      if b in s.plan {
        HeadAlone(s, b);
      }
      EntersNext(s, g, n, h, k);
    } else {
      MemberFacts(s, h, k);
      OtherAfter(s, b, j, s.plan[h][k]);
    }
  }

  lemma InsideNeeded(s: SuperPass, h: Pc)
    requires StaysFaithful(s) && h in s.plan
    ensures s.AllInside(h)
  {
    forall k | 0 <= k < |s.plan[h]|
      ensures s.EnteredInside(h, k)
    {
      forall b, j | s.Exits(b, j, s.plan[h][k]) && (b in s.home ==> j == 0)
        ensures s.RunsUpTo(b, h, k)
      {
        EntryNeeded(s, h, k, b, j);
      }
    }
  }

  /** The first continuation of a block. */
  lemma FirstContinuation(s: SuperPass, c: Pc)
    requires HasStart(s.before.blocks, c) && ContinuationsOf(s.before.continuations, c) != []
    ensures ContinuationsOf(s.before.continuations, c)[0].0 in s.cx.code
  {
    FaithfulLinked(s.cx.code, s.succs, s.orig, s.before, c);
    assert s.OldChain(c)[1] == ContinuationsOf(s.before.continuations, c)[0].0;
  }

  /** A member that jumps to no block function is the last one, and its jump is an exit. */
  lemma LastJump(s: SuperPass, h: Pc, j: nat, d: Pc)
    requires StaysFaithful(s) && h in s.plan && j <= |s.plan[h]| && d in s.cx.code && !HasStart(s.before.blocks, d)
    requires Nth(s, h, j) in s.orig && s.orig[Nth(s, h, j)].lastPc in s.cx.code
    requires s.cx.code[s.orig[Nth(s, h, j)].lastPc].term == Jump(d)
    ensures d !in Lookup(s.succs, s.orig[Nth(s, h, j)].lastPc)
  {
    if j < |s.plan[h]| {
      LinkInPlan(s, h, j);
      MemberFacts(s, h, j);
    } else if d in Lookup(s.succs, s.orig[Nth(s, h, j)].lastPc) {
      ExitsAfter(s, h, j, d);
    }
  }

  lemma AloneNeeded(s: SuperPass, c: Pc)
    requires StaysFaithful(s) && c in s.home
    ensures s.EndsAlone(c)
  {
    var h, j := NthOf(s, c);
    NthFacts(s, h, j);
    HomeTargets(s, c);
    if ContinuationsOf(s.before.continuations, c) != [] {
      OwnerJumps(s, c);
      FirstContinuation(s, c);
      LastJump(s, h, j, ContinuationsOf(s.before.continuations, c)[0].0);
    }
  }

  /** Forming superblocks keeps the layout faithful exactly when it is safe. */
  lemma SuperblocksExact(s: SuperPass)
    ensures Faithful(s.cx.code, s.succs, s.orig, LayoutOf(s.after)) <==> s.Safe()
  {
    if s.Safe() {
      SafeSuperblocks(s);
    }
    if StaysFaithful(s) {
      forall h | h in s.plan
        ensures s.AllInside(h)
      {
        InsideNeeded(s, h);
      }
      forall c | c in s.home
        ensures s.EndsAlone(c)
      {
        AloneNeeded(s, c);
      }
    }
  }

  // ----- where the static successors of all blocks are recorded -----

  /** The edge from the block before a member to it is recorded, so it is the only one. */
  lemma EdgeFromPrevious(s: SuperPass, h: Pc, k: nat, p: Pc)
    requires StaticRecorded(s.cx.code, s.succs, s.orig) && h in s.plan && k < |s.plan[h]| && s.plan[h][k] in Lookup(s.succs, p)
    ensures s.Previous(h, k) in s.orig && p == s.orig[s.Previous(h, k)].lastPc && HasStart(s.before.blocks, s.Previous(h, k))
  {
    LinkInPlan(s, h, k);
    MemberFacts(s, h, k);
    OnlyEntry(s, h, k);
    assert StaticSuccessor(s.cx.code, s.orig[s.Previous(h, k)].lastPc, s.plan[h][k]);
  }

  lemma VisitedEntry(s: SuperPass, h: Pc, k: nat, b: Pc, j: nat)
    requires StaticRecorded(s.cx.code, s.succs, s.orig) && s.OwnExits()
    requires h in s.plan && k < |s.plan[h]| && s.Exits(b, j, s.plan[h][k])
    ensures s.RunsUpTo(b, h, k)
  {
    var y := s.OldChain(b)[j];
    EdgeFromPrevious(s, h, k, s.orig[y].lastPc);
    assert y == s.Previous(h, k);
    if j > 0 {
      InsideChain(s, b, j);
    }
    if k == 0 {
      assert s.SideExitLeaves(h);
    } else {
      MemberContinues(s, h, k);
    }
  }

  /** A branch of a head to its fall-through is an exit of the head. */
  lemma HeadExits(s: SuperPass, h: Pc)
    requires StaticRecorded(s.cx.code, s.succs, s.orig) && h in s.plan
    ensures h in s.orig && s.orig[h].lastPc in s.cx.code && s.plan[h] != []
    ensures BranchesTo(s.cx.code, s.orig[h].lastPc, s.plan[h][0]) ==> s.Exits(h, 0, s.plan[h][0])
  {
    HeadAlone(s, h);
    MemberFacts(s, h, 0);
  }

  lemma VisitedSideExit(s: SuperPass, h: Pc)
    requires StaticRecorded(s.cx.code, s.succs, s.orig) && s.Safe() && h in s.plan
    ensures s.SideExitLeaves(h)
  {
    HeadExits(s, h);
    assert s.AllInside(h) && s.EnteredInside(h, 0);
  }

  lemma VisitedAlone(s: SuperPass, c: Pc)
    requires StaticRecorded(s.cx.code, s.succs, s.orig) && s.Safe() && c in s.home
    ensures ContinuationsOf(s.before.continuations, c) == []
  {
    var h, j := NthOf(s, c);
    NthFacts(s, h, j);
    HomeTargets(s, c);
    assert s.EndsAlone(c);
    if ContinuationsOf(s.before.continuations, c) != [] {
      OwnerJumps(s, c);
      FirstContinuation(s, c);
    }
  }

  lemma VisitedEntered(s: SuperPass, h: Pc, k: nat)
    requires StaticRecorded(s.cx.code, s.succs, s.orig) && s.OwnExits() && h in s.plan && k < |s.plan[h]|
    ensures s.EnteredInside(h, k)
  {
    forall b, j | s.Exits(b, j, s.plan[h][k]) && (b in s.home ==> j == 0)
      ensures s.RunsUpTo(b, h, k)
    {
      VisitedEntry(s, h, k, b, j);
    }
  }

  lemma VisitedInsideOf(s: SuperPass, h: Pc)
    requires StaticRecorded(s.cx.code, s.succs, s.orig) && s.OwnExits() && h in s.plan
    ensures s.AllInside(h)
  {
    forall k | 0 <= k < |s.plan[h]|
      ensures s.EnteredInside(h, k)
    {
      VisitedEntered(s, h, k);
    }
  }

  lemma OwnExitsSafe(s: SuperPass)
    requires StaticRecorded(s.cx.code, s.succs, s.orig) && s.OwnExits()
    ensures s.Safe()
  {
    forall h | h in s.plan
      ensures s.AllInside(h)
    {
      VisitedInsideOf(s, h);
    }
    forall c | c in s.home
      ensures s.EndsAlone(c)
    {
      OwnEnd(s, c);
    }
  }

  lemma OwnEnd(s: SuperPass, c: Pc)
    requires s.OwnExits() && c in s.home
    ensures s.EndsAlone(c)
  {
  }

  lemma SafeOwnExits(s: SuperPass)
    requires StaticRecorded(s.cx.code, s.succs, s.orig) && s.Safe()
    ensures s.OwnExits()
  {
    forall h | h in s.plan
      ensures s.SideExitLeaves(h)
    {
      VisitedSideExit(s, h);
    }
    forall c | c in s.home
      ensures ContinuationsOf(s.before.continuations, c) == []
    {
      VisitedAlone(s, c);
    }
  }

  /** Then superblocks are safe exactly when no head branches to its own fall-through and no
      member owns continuations. */
  lemma VisitedSuperblocks(s: SuperPass)
    requires StaticRecorded(s.cx.code, s.succs, s.orig)
    ensures s.Safe() <==> s.OwnExits()
  {
    if s.Safe() {
      SafeOwnExits(s);
    } else if s.OwnExits() {
      OwnExitsSafe(s);
    }
  }
}
