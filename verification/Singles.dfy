/**
  Tables of single-instruction blocks, from which small inputs are built.
 */
module Singles {
  import opened Code
  import opened Layout
  import opened Formation
  import opened Merge
  import opened Tables
  import opened Stages
  import opened Exact

  function Single(p: Pc): BasicBlock {
    BasicBlock(p, p + 4, 1, p)
  }

  /** One block per address. */
  function SingleBlocks(addrs: seq<Pc>): (blocks: seq<BasicBlock>)
    ensures |blocks| == |addrs| && forall i | 0 <= i < |addrs| :: blocks[i] == Single(addrs[i])
  {
    seq(|addrs|, i requires 0 <= i < |addrs| => Single(addrs[i]))
  }

  /** The instructions are at these ascending addresses, four bytes each. */
  ghost predicate SingleCode(code: Code, addrs: seq<Pc>) {
    && (forall p :: p in code <==> p in addrs)
    && (forall p | p in code :: code[p].size == 4 && PlainFall(code, p))
    && Ascending(addrs)
  }

  ghost predicate Ascending(addrs: seq<Pc>) {
    forall i | 0 < i < |addrs| :: StepsUp(addrs, i)
  }

  ghost predicate StepsUp(addrs: seq<Pc>, i: int) {
    0 < i < |addrs| && addrs[i - 1] + 4 <= addrs[i]
  }

  lemma {:induction false} Above(addrs: seq<Pc>, i: nat, j: nat)
    requires Ascending(addrs) && i < j < |addrs|
    ensures addrs[i] + 4 <= addrs[j]
    decreases j
  {
    assert StepsUp(addrs, j);
    if i < j - 1 {
      Above(addrs, i, j - 1);
    }
  }

  lemma SingleStarts(addrs: seq<Pc>)
    requires Ascending(addrs)
    ensures DistinctStarts(SingleBlocks(addrs)) && DistinctLast(SingleBlocks(addrs))
    ensures forall b :: HasStart(SingleBlocks(addrs), b) <==> b in addrs
  {
    var blocks := SingleBlocks(addrs);
    forall i, j | 0 <= i < j < |blocks|
      ensures blocks[i].start != blocks[j].start && blocks[i].lastPc != blocks[j].lastPc
    {
      Above(addrs, i, j);
    }
    StartsFromPairs(blocks);
    LastFromPairs(blocks);
    forall b | b in addrs
      ensures HasStart(blocks, b)
    {
      var i :| 0 <= i < |addrs| && addrs[i] == b;
      assert blocks[i].start == b;
    }
  }

  lemma SingleGood(code: Code, p: Pc)
    requires p in code && code[p].size == 4
    ensures GoodBlock(code, Single(p))
  {
    assert InstructionCount(code, NextPc(code, p), NextPc(code, p)) == 0;
  }

  lemma SingleApart(code: Code, addrs: seq<Pc>)
    requires SingleCode(code, addrs)
    ensures WellFormed(code)
  {
    forall p, q | p in code && q in code && p < q
      ensures NextPc(code, p) <= q
    {
      var i :| 0 <= i < |addrs| && addrs[i] == p;
      var j :| 0 <= j < |addrs| && addrs[j] == q;
      if j < i {
        Above(addrs, j, i);
      } else if i < j {
        Above(addrs, i, j);
      }
    }
  }

  /** Their table of blocks. */
  lemma SingleTable(code: Code, addrs: seq<Pc>)
    requires SingleCode(code, addrs)
    ensures DistinctStarts(SingleBlocks(addrs)) && DistinctLast(SingleBlocks(addrs))
    ensures forall b :: HasStart(SingleBlocks(addrs), b) <==> b in addrs
    ensures GoodBlocks(code, ByStart(SingleBlocks(addrs)))
    ensures forall b | b in ByStart(SingleBlocks(addrs)) :: ByStart(SingleBlocks(addrs))[b] == Single(b)
  {
    var blocks := SingleBlocks(addrs);
    SingleStarts(addrs);
    DistinctLastByStart(blocks);
    forall b | b in ByStart(blocks)
      ensures ByStart(blocks)[b] == Single(b) && GoodBlock(code, Single(b))
    {
      var i :| 0 <= i < |addrs| && addrs[i] == b;
      SingleGood(code, b);
    }
  }

  lemma SingleOrig(code: Code, addrs: seq<Pc>, p: Pc)
    requires SingleCode(code, addrs) && p in addrs
    ensures DistinctStarts(SingleBlocks(addrs)) && p in ByStart(SingleBlocks(addrs)) && ByStart(SingleBlocks(addrs))[p] == Single(p)
  {
    SingleTable(code, addrs);
  }

  /** Recorded edges out of the instructions lead to blocks, since all instructions are. */
  lemma SingleEdges(code: Code, succs: Edges, addrs: seq<Pc>)
    requires SingleCode(code, addrs)
    ensures DistinctStarts(SingleBlocks(addrs)) && EdgesReachBlocks(code, succs, ByStart(SingleBlocks(addrs)))
  {
    SingleTable(code, addrs);
  }

  /** All static successors are recorded. */
  ghost predicate AllStatic(code: Code, succs: Edges) {
    forall p, q | p in code && q in code && StaticSuccessor(code, p, q) :: q in Lookup(succs, p)
  }

  lemma SingleInside(code: Code, succs: Edges, addrs: seq<Pc>)
    requires SingleCode(code, addrs)
    requires AllStatic(code, succs)
    ensures DistinctStarts(SingleBlocks(addrs)) && InsideRecorded(code, succs, ByStart(SingleBlocks(addrs)))
  {
    SingleTable(code, addrs);
  }

  /** The fresh tables of these blocks. */
  lemma SingleFresh(code: Code, succs: Edges, addrs: seq<Pc>)
    requires SingleCode(code, addrs)
    ensures DistinctStarts(SingleBlocks(addrs)) && SoundBlocks(code, ByStart(SingleBlocks(addrs)))
    ensures Tidy(ByStart(SingleBlocks(addrs)), FreshTables(SingleBlocks(addrs)))
    ensures Faithful(code, succs, ByStart(SingleBlocks(addrs)), LayoutOf(FreshTables(SingleBlocks(addrs))))
  {
    var blocks := SingleBlocks(addrs);
    SingleTable(code, addrs);
    SingleEdges(code, succs, addrs);
    SingleApart(code, addrs);
    GoodIsSound(code, ByStart(blocks));
    FreshTablesTidy(blocks);
    FreshFromEdges(code, succs, ByStart(blocks));
  }
}
