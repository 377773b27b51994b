/**
  Basic blocks formed from a set of leaders.
 */
module Formation {
  import opened Sets
  import opened Code
  import opened Layout

  /** No leader lies in (lo, hi]. */
  ghost predicate NoLeaderIn(leaders: set<Pc>, lo: Pc, hi: Pc) {
    forall l | l in leaders :: !(lo < l <= hi)
  }

  /** Why a block that covers its last instruction ends there. */
  ghost predicate EndsProperly(code: Code, leaders: set<Pc>, b: BasicBlock)
    requires b.lastPc in code
  {
    || code[b.lastPc].term.IsControlFlow()
    || b.end in leaders
    || b.end !in code
    || !NoLeaderIn(leaders, b.lastPc, b.end)
  }

  ghost predicate FormedBlock(code: Code, leaders: set<Pc>, b: BasicBlock) {
    && b.start in leaders
    && GoodBlock(code, b)
    && b.lastPc in code
    && NoLeaderIn(leaders, b.start, b.lastPc)
    && EndsProperly(code, leaders, b)
  }

  ghost predicate SortedByStart(blocks: seq<BasicBlock>) {
    forall i, j | 0 <= i < j < |blocks| :: blocks[i].start < blocks[j].start
  }

  /** Exactly one block per leader that is an instruction, in address order. */
  ghost predicate FormedBlocks(code: Code, leaders: set<Pc>, blocks: seq<BasicBlock>) {
    && (forall i | 0 <= i < |blocks| :: FormedBlock(code, leaders, blocks[i]))
    && SortedByStart(blocks)
    && (forall l | l in leaders && l in code :: HasStart(blocks, l))
  }

  /** Grow a straight line by the instruction that follows it. */
  lemma {:induction false} ExtendLine(code: Code, lo: Pc, last: Pc, hi: Pc)
    requires StraightLine(code, lo, last, hi)
    requires last in code && !code[last].term.IsControlFlow()
    requires hi in code && code[hi].size > 0
    ensures StraightLine(code, lo, hi, NextPc(code, hi))
    ensures InstructionCount(code, lo, NextPc(code, hi)) == InstructionCount(code, lo, hi) + 1
    decreases hi - lo
  {
    LastInCode(code, lo, last, hi);
    if lo == last {
      assert InstructionCount(code, hi, NextPc(code, hi)) == 1 + InstructionCount(code, NextPc(code, hi), NextPc(code, hi));
    } else {
      ExtendLine(code, NextPc(code, lo), last, hi);
    }
  }

  /** What the scan knows after `count` instructions, at most up to pc. */
  ghost predicate Scanned(code: Code, leaders: set<Pc>, start: Pc, last: Pc, pc: Pc, count: nat) {
    && last in code && StraightLine(code, start, last, pc)
    && count == InstructionCount(code, start, pc)
    && NoLeaderIn(leaders, start, last)
  }

  lemma ScanOne(code: Code, leaders: set<Pc>, start: Pc, last: Pc, pc: Pc, count: nat)
    requires WellFormed(code) && pc in code && pc !in leaders
    requires Scanned(code, leaders, start, last, pc, count) && !code[last].term.IsControlFlow()
    requires NoLeaderIn(leaders, last, pc)
    ensures Scanned(code, leaders, start, pc, NextPc(code, pc), count + 1)
  {
    ExtendLine(code, start, last, pc);
  }

  /** The scan from one leader: stop at control flow, before a leader, at the
      bound or where decoding failed. */
  method ScanBlock(code: Code, start: Pc, maxEnd: Pc, end: Pc, leaders: set<Pc>)
    returns (pc: Pc, count: nat, lastPc: Pc)
    requires WellFormed(code) && (forall p | p in code :: p < end)
    requires start in leaders && start in code
    requires start < maxEnd <= end
    requires maxEnd == end || maxEnd in leaders
    requires forall l | l in leaders && start < l < end :: maxEnd <= l
    ensures count > 0 && pc > start
    ensures FormedBlock(code, leaders, BasicBlock(start, pc, count, lastPc))
  {
    pc, count, lastPc := start, 0, start;
    while pc < maxEnd && pc < end
      invariant count == 0 ==> pc == start && lastPc == start
      invariant count > 0 ==>
        && Scanned(code, leaders, start, lastPc, pc, count)
        && !code[lastPc].term.IsControlFlow()
        && pc !in leaders && pc > start && lastPc < maxEnd
      decreases if pc < maxEnd then maxEnd - pc else 0
    {
      if pc !in code {
        break;
      }
      if count > 0 {
        LastInCode(code, start, lastPc, pc);
        ScanOne(code, leaders, start, lastPc, pc, count);
      }
      count, lastPc := count + 1, pc;
      pc := NextPc(code, pc);
      assert Scanned(code, leaders, start, lastPc, pc, count);
      if code[lastPc].term.IsControlFlow() {
        break;
      }
      if pc in leaders && pc != start {
        break;
      }
    }
    if count > 0 {
      LastInCode(code, start, lastPc, pc);
    }
  }

  ghost predicate StrictlySorted(s: seq<Pc>) {
    forall i, j | 0 <= i < j < |s| :: s[i] < s[j]
  }

  /** The leaders in address order. */
  method SortLeaders(leaders: set<Pc>) returns (sorted: seq<Pc>)
    ensures StrictlySorted(sorted)
    ensures forall l :: l in sorted <==> l in leaders
  {
    sorted := [];
    var rest := leaders;
    while rest != {}
      invariant rest <= leaders
      invariant StrictlySorted(sorted)
      invariant forall l :: l in sorted <==> l in leaders && l !in rest
      invariant forall i, r | 0 <= i < |sorted| && r in rest :: sorted[i] < r
    {
      HasBounds(rest);
      var l :| IsLeast(rest, l);
      AppendLeast(sorted, rest, l);
      sorted := sorted + [l];
      rest := rest - {l};
    }
  }

  lemma AppendLeast(sorted: seq<Pc>, rest: set<Pc>, l: Pc)
    requires StrictlySorted(sorted) && IsLeast(rest, l)
    requires forall i, r | 0 <= i < |sorted| && r in rest :: sorted[i] < r
    ensures StrictlySorted(sorted + [l])
    ensures forall i, r | 0 <= i < |sorted + [l]| && r in rest - {l} :: (sorted + [l])[i] < r
  {
  }

  ghost predicate HasStart(blocks: seq<BasicBlock>, l: Pc) {
    exists i | 0 <= i < |blocks| :: blocks[i].start == l
  }

  lemma PushBlock(code: Code, leaders: set<Pc>, blocks: seq<BasicBlock>, b: BasicBlock)
    requires forall k | 0 <= k < |blocks| :: FormedBlock(code, leaders, blocks[k]) && blocks[k].start < b.start
    requires SortedByStart(blocks) && FormedBlock(code, leaders, b)
    ensures forall k | 0 <= k < |blocks + [b]| :: FormedBlock(code, leaders, (blocks + [b])[k])
    ensures SortedByStart(blocks + [b]) && HasStart(blocks + [b], b.start)
    ensures forall l | HasStart(blocks, l) :: HasStart(blocks + [b], l)
  {
    assert (blocks + [b])[|blocks|] == b;
    forall l | HasStart(blocks, l)
      ensures HasStart(blocks + [b], l)
    {
      var i :| 0 <= i < |blocks| && blocks[i].start == l;
      assert (blocks + [b])[i] == blocks[i];
    }
  }

  method CreateBlocksFromLeaders(code: Code, end: Pc, leaders: set<Pc>) returns (blocks: seq<BasicBlock>)
    requires WellFormed(code) && (forall p | p in code :: p < end)
    ensures FormedBlocks(code, leaders, blocks)
  {
    blocks := [];
    var sorted := SortLeaders(leaders);
    for i := 0 to |sorted|
      invariant forall k | 0 <= k < |blocks| :: FormedBlock(code, leaders, blocks[k])
      invariant SortedByStart(blocks)
      invariant forall k, m | 0 <= k < |blocks| && i <= m < |sorted| :: blocks[k].start < sorted[m]
      invariant forall m | 0 <= m < i && sorted[m] in code :: HasStart(blocks, sorted[m])
    {
      var start := sorted[i];
      if start in code {
        var next := if i + 1 < |sorted| then sorted[i + 1] else end;
        var maxEnd := if next < end then next else end;
        forall l | l in leaders && start < l < end
          ensures maxEnd <= l
        {
          var j :| 0 <= j < |sorted| && sorted[j] == l;
        }
        var pc, count, last := ScanBlock(code, start, maxEnd, end, leaders);
        if count > 0 && pc > start {
          PushBlock(code, leaders, blocks, BasicBlock(start, pc, count, last));
          blocks := blocks + [BasicBlock(start, pc, count, last)];
        }
      }
    }
    forall l | l in leaders && l in code
      ensures HasStart(blocks, l)
    {
      var m :| 0 <= m < |sorted| && sorted[m] == l;
    }
  }

  // ----- what formation guarantees -----

  /** An instruction inside a straight line follows another one of the line. */
  lemma {:induction false} Preceded(code: Code, lo: Pc, last: Pc, hi: Pc, q: Pc) returns (p: Pc)
    requires WellFormed(code) && StraightLine(code, lo, last, hi)
    requires q in code && lo < q < hi
    ensures lo <= p < q <= last && p in code && NextPc(code, p) == q && !code[p].term.IsControlFlow()
    decreases hi - lo
  {
    LastInCode(code, lo, last, hi);
    assert Clear(code, lo);
    if NextPc(code, lo) == q {
      p := lo;
    } else {
      p := Preceded(code, NextPc(code, lo), last, hi, q);
    }
  }

  /** Blocks cover disjoint address ranges, so no instruction is in two of them. */
  lemma BlocksDisjoint(code: Code, leaders: set<Pc>, blocks: seq<BasicBlock>, i: nat, j: nat)
    requires WellFormed(code) && FormedBlocks(code, leaders, blocks)
    requires i < j < |blocks|
    ensures blocks[i].lastPc < blocks[i].end <= blocks[j].start <= blocks[j].lastPc
  {
    var a, b := blocks[i], blocks[j];
    LastInCode(code, a.start, a.lastPc, a.end);
    LastInCode(code, b.start, b.lastPc, b.end);
    assert a.lastPc < b.start && Clear(code, a.lastPc);
  }

  /** An edge leads to a leader or to the instruction that follows an ordinary one. */
  ghost predicate LeadersCover(code: Code, succs: Edges, leaders: set<Pc>) {
    forall p, q | p in succs && q in succs[p] ::
      q in leaders || (p in code && q == NextPc(code, p) && IsOrdinary(code[p].term))
  }

  /** Neither a jump nor a branch. */
  predicate IsOrdinary(term: Terminator) {
    term.Fall? || term.Exit? || term.Trap?
  }

  /** No recorded edge from outside a block enters it except at its start. */
  lemma EdgesEnterAtStart(code: Code, succs: Edges, leaders: set<Pc>, blocks: seq<BasicBlock>, i: nat, p: Pc, q: Pc)
    requires WellFormed(code) && FormedBlocks(code, leaders, blocks) && LeadersCover(code, succs, leaders)
    requires i < |blocks| && p in succs && q in succs[p] && q in code
    requires blocks[i].start < q < blocks[i].end
    ensures blocks[i].start <= p < blocks[i].end
  {
    var b := blocks[i];
    assert FormedBlock(code, leaders, b);
    var before := Preceded(code, b.start, b.lastPc, b.end, q);
    assert q !in leaders && p in code && Clear(code, p) && Clear(code, before);
  }

  /** Index of a block with the given start, or last instruction. */
  ghost function StartIndex(blocks: seq<BasicBlock>, b: Pc): nat {
    if HasStart(blocks, b) then var i :| 0 <= i < |blocks| && blocks[i].start == b; i else 0
  }

  ghost function BlockAt(blocks: seq<BasicBlock>, b: Pc): (r: BasicBlock)
    requires HasStart(blocks, b)
    ensures r.start == b
  {
    blocks[StartIndex(blocks, b)]
  }

  ghost predicate HasLast(blocks: seq<BasicBlock>, p: Pc) {
    exists i | 0 <= i < |blocks| :: blocks[i].lastPc == p
  }

  ghost function LastIndex(blocks: seq<BasicBlock>, p: Pc): nat {
    if HasLast(blocks, p) then var i :| 0 <= i < |blocks| && blocks[i].lastPc == p; i else 0
  }

  /** Different blocks have different starts, and different last instructions. */
  ghost predicate DistinctStarts(blocks: seq<BasicBlock>) {
    forall i | 0 <= i < |blocks| :: StartIndex(blocks, blocks[i].start) == i
  }

  ghost predicate DistinctLast(blocks: seq<BasicBlock>) {
    forall i | 0 <= i < |blocks| :: LastIndex(blocks, blocks[i].lastPc) == i
  }

  lemma StartsFromPairs(blocks: seq<BasicBlock>)
    requires forall i, j | 0 <= i < j < |blocks| :: blocks[i].start != blocks[j].start
    ensures DistinctStarts(blocks)
  {
    forall i | 0 <= i < |blocks|
      ensures StartIndex(blocks, blocks[i].start) == i
    {
      assert HasStart(blocks, blocks[i].start);
    }
  }

  lemma LastFromPairs(blocks: seq<BasicBlock>)
    requires forall i, j | 0 <= i < j < |blocks| :: blocks[i].lastPc != blocks[j].lastPc
    ensures DistinctLast(blocks)
  {
    forall i | 0 <= i < |blocks|
      ensures LastIndex(blocks, blocks[i].lastPc) == i
    {
      assert HasLast(blocks, blocks[i].lastPc);
    }
  }

  ghost function ByStart(blocks: seq<BasicBlock>): (orig: Blocks)
    requires DistinctStarts(blocks)
    ensures forall i | 0 <= i < |blocks| :: blocks[i].start in orig && orig[blocks[i].start] == blocks[i]
    ensures forall b :: b in orig <==> HasStart(blocks, b)
  {
    map b | b in Starts(blocks) :: blocks[StartIndex(blocks, b)]
  }

  ghost function Starts(blocks: seq<BasicBlock>): (s: set<Pc>)
    ensures forall b :: b in s <==> HasStart(blocks, b)
  {
    set i | 0 <= i < |blocks| :: blocks[i].start
  }

  lemma FormedDistinct(code: Code, leaders: set<Pc>, blocks: seq<BasicBlock>)
    requires WellFormed(code) && FormedBlocks(code, leaders, blocks)
    ensures DistinctStarts(blocks) && DistinctLast(blocks)
  {
    forall i, j | 0 <= i < j < |blocks|
      ensures blocks[i].lastPc != blocks[j].lastPc
    {
      BlocksDisjoint(code, leaders, blocks, i, j);
    }
    StartsFromPairs(blocks);
    LastFromPairs(blocks);
  }

  lemma DistinctLastByStart(blocks: seq<BasicBlock>)
    requires DistinctStarts(blocks) && DistinctLast(blocks)
    ensures DistinctLastPcs(ByStart(blocks))
  {
    var orig := ByStart(blocks);
    forall b | b in orig
      ensures Owner(orig, orig[b].lastPc) == b
    {
      var c := Owner(orig, orig[b].lastPc);
      var i :| 0 <= i < |blocks| && blocks[i].start == b;
      var j :| 0 <= j < |blocks| && blocks[j].start == c;
    }
  }

  lemma GoodByStart(code: Code, blocks: seq<BasicBlock>)
    requires DistinctStarts(blocks) && forall i | 0 <= i < |blocks| :: GoodBlock(code, blocks[i])
    ensures forall b | b in ByStart(blocks) :: ByStart(blocks)[b].start == b && GoodBlock(code, ByStart(blocks)[b])
  {
    forall b | b in ByStart(blocks)
      ensures ByStart(blocks)[b].start == b && GoodBlock(code, ByStart(blocks)[b])
    {
      var i :| 0 <= i < |blocks| && blocks[i].start == b;
    }
  }

  lemma FormedBlocksGood(code: Code, leaders: set<Pc>, blocks: seq<BasicBlock>)
    requires WellFormed(code) && FormedBlocks(code, leaders, blocks)
    ensures DistinctStarts(blocks) && GoodBlocks(code, ByStart(blocks))
  {
    FormedDistinct(code, leaders, blocks);
    DistinctLastByStart(blocks);
    GoodByStart(code, blocks);
  }

  // ----- the fresh layout -----

  function FreshLayout(orig: Blocks): Layout {
    Layout(map b | b in orig :: [b], map[])
  }

  /** Falling off the end of a block leads to the start of a block or out of the code. */
  ghost predicate FallsCovered(code: Code, blocks: seq<BasicBlock>) {
    forall i | 0 <= i < |blocks| && blocks[i].lastPc in code && !code[blocks[i].lastPc].term.IsControlFlow()
      && blocks[i].end in code :: HasStart(blocks, blocks[i].end)
  }

  /** No leader lies strictly inside an instruction of a block whose successor is
      an instruction but not a leader. */
  ghost predicate LeadersAligned(code: Code, leaders: set<Pc>, blocks: seq<BasicBlock>) {
    forall i, p | 0 <= i < |blocks| && p in code && blocks[i].start <= p < blocks[i].end
      && !code[p].term.IsControlFlow() && NextPc(code, p) in code && NextPc(code, p) !in leaders ::
      NoLeaderIn(leaders, p, NextPc(code, p))
  }

  lemma CoveredIffAligned(code: Code, leaders: set<Pc>, blocks: seq<BasicBlock>)
    requires WellFormed(code) && FormedBlocks(code, leaders, blocks)
    ensures FallsCovered(code, blocks) <==> LeadersAligned(code, leaders, blocks)
  {
    if LeadersAligned(code, leaders, blocks) {
      forall i | 0 <= i < |blocks| && !code[blocks[i].lastPc].term.IsControlFlow() && blocks[i].end in code
        ensures HasStart(blocks, blocks[i].end)
      {
        var b := blocks[i];
        LastInCode(code, b.start, b.lastPc, b.end);
        assert EndsProperly(code, leaders, b);
        assert b.end in leaders;
      }
    }
    if FallsCovered(code, blocks) {
      forall i, p | 0 <= i < |blocks| && p in code && blocks[i].start <= p < blocks[i].end
                    && !code[p].term.IsControlFlow() && NextPc(code, p) in code && NextPc(code, p) !in leaders
        ensures NoLeaderIn(leaders, p, NextPc(code, p))
      {
        AlignedAt(code, leaders, blocks, i, p);
      }
    }
  }

  lemma AlignedAt(code: Code, leaders: set<Pc>, blocks: seq<BasicBlock>, i: nat, p: Pc)
    requires WellFormed(code) && FormedBlocks(code, leaders, blocks) && FallsCovered(code, blocks)
    requires i < |blocks| && p in code && blocks[i].start <= p < blocks[i].end
    requires !code[p].term.IsControlFlow() && NextPc(code, p) in code && NextPc(code, p) !in leaders
    ensures NoLeaderIn(leaders, p, NextPc(code, p))
  {
    var b := blocks[i];
    LastInCode(code, b.start, b.lastPc, b.end);
    assert Clear(code, p) && Clear(code, b.lastPc);
  }

  lemma FreshEdge(code: Code, succs: Edges, leaders: set<Pc>, blocks: seq<BasicBlock>, i: nat, q: Pc)
    requires WellFormed(code) && FormedBlocks(code, leaders, blocks)
    requires LeadersCover(code, succs, leaders) && FallsCovered(code, blocks)
    requires i < |blocks| && blocks[i].lastPc in code && q in code
    requires q in Lookup(succs, blocks[i].lastPc) && CanFlow(code, blocks[i].lastPc, q)
    ensures HasStart(blocks, q)
  {
    var b := blocks[i];
    LastInCode(code, b.start, b.lastPc, b.end);
    assert EndsProperly(code, leaders, b);
  }

  /** Recorded edges out of a block's last instruction lead to blocks. */
  ghost predicate EdgesReachBlocks(code: Code, succs: Edges, orig: Blocks) {
    forall b, q | b in orig && q in Lookup(succs, orig[b].lastPc) && q in code ::
      orig[b].lastPc in code && CanFlow(code, orig[b].lastPc, q) ==> q in orig
  }

  lemma FreshFromEdges(code: Code, succs: Edges, orig: Blocks)
    requires GoodBlocks(code, orig) && EdgesReachBlocks(code, succs, orig)
    ensures Faithful(code, succs, orig, FreshLayout(orig))
  {
    var l := FreshLayout(orig);
    forall b | b in l.chains
      ensures Linked(code, orig, l.chains[b])
    {
      assert GoodBlock(code, orig[b]);
      LastInCode(code, orig[b].start, orig[b].lastPc, orig[b].end);
    }
  }

  /** Blocks formed from leaders that cover the recorded edges are reached by them. */
  lemma FreshEdges(code: Code, succs: Edges, leaders: set<Pc>, blocks: seq<BasicBlock>)
    requires WellFormed(code) && FormedBlocks(code, leaders, blocks) && DistinctStarts(blocks)
    requires LeadersCover(code, succs, leaders) && LeadersAligned(code, leaders, blocks)
    ensures EdgesReachBlocks(code, succs, ByStart(blocks))
  {
    CoveredIffAligned(code, leaders, blocks);
    var orig := ByStart(blocks);
    forall b, q | b in orig && q in Lookup(succs, orig[b].lastPc) && q in code
                  && orig[b].lastPc in code && CanFlow(code, orig[b].lastPc, q)
      ensures q in orig
    {
      var i :| 0 <= i < |blocks| && blocks[i].start == b;
      FreshEdge(code, succs, leaders, blocks, i, q);
    }
  }

  /** Blocks formed from leaders that cover the recorded edges make a faithful layout. */
  lemma FreshIsFaithful(code: Code, succs: Edges, leaders: set<Pc>, blocks: seq<BasicBlock>)
    requires WellFormed(code) && FormedBlocks(code, leaders, blocks)
    requires LeadersCover(code, succs, leaders) && LeadersAligned(code, leaders, blocks)
    ensures DistinctStarts(blocks)
    ensures Faithful(code, succs, ByStart(blocks), FreshLayout(ByStart(blocks)))
  {
    FormedBlocksGood(code, leaders, blocks);
    FreshEdges(code, succs, leaders, blocks);
    FreshFromEdges(code, succs, ByStart(blocks));
  }
}
