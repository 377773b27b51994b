/**
  The choice of taken branches whose target is inlined into the branch.
 */
module TakenInline {
  import opened Code
  import opened Layout
  import opened Formation
  import opened Merge

  const DEFAULT_TAKEN_INLINE_SIZE: nat := 50

  /** A small block with one predecessor that does not end in a branch. */
  ghost predicate InlineTarget(cx: Context, blocks: seq<BasicBlock>, targets: set<Pc>, t: Pc) {
    && t !in cx.entries && HasStart(blocks, t) && t !in targets
    && t in cx.preds && |cx.preds[t]| == 1
    && BlockAt(blocks, t).count <= DEFAULT_TAKEN_INLINE_SIZE
    && BlockAt(blocks, t).lastPc in cx.code && !cx.code[BlockAt(blocks, t).lastPc].term.Branch?
  }

  /** The block ends in a branch whose target may be inlined. */
  ghost predicate MayInline(cx: Context, blocks: seq<BasicBlock>, targets: set<Pc>, b: BasicBlock) {
    && b.start !in targets && b.lastPc in cx.code && cx.code[b.lastPc].term.Branch?
    && InlineTarget(cx, blocks, targets, cx.code[b.lastPc].term.taken)
  }

  /** The range inlined at p is that of the target of a block's branch there. */
  ghost predicate InlinedAt(cx: Context, blocks: seq<BasicBlock>, targets: set<Pc>, p: Pc, range: Range) {
    exists i | 0 <= i < |blocks| ::
      && blocks[i].lastPc == p && MayInline(cx, blocks, targets, blocks[i])
      && range.0 == cx.code[p].term.taken && range.1 == BlockAt(blocks, range.0).end
  }

  ghost predicate GoodInlines(cx: Context, blocks: seq<BasicBlock>, targets: set<Pc>, inlines: map<Pc, Range>) {
    forall p | p in inlines :: InlinedAt(cx, blocks, targets, p, inlines[p])
  }

  /** Of the first n blocks, all that may have their target inlined have, but for absorbed ones. */
  ghost predicate AllInlined(cx: Context, blocks: seq<BasicBlock>, targets: set<Pc>, n: nat, absorbed: set<Pc>,
                             inlines: map<Pc, Range>)
  {
    forall i | 0 <= i < n <= |blocks| && blocks[i].start !in absorbed && MayInline(cx, blocks, targets, blocks[i])
      && cx.code[blocks[i].lastPc].term.taken !in absorbed :: blocks[i].lastPc in inlines
  }

  lemma StillInlined(cx: Context, blocks: seq<BasicBlock>, targets: set<Pc>, n: nat, absorbed: set<Pc>, absorbed': set<Pc>,
                     inlines: map<Pc, Range>)
    requires AllInlined(cx, blocks, targets, n, absorbed, inlines) && absorbed <= absorbed'
    ensures AllInlined(cx, blocks, targets, n, absorbed', inlines)
  {
  }

  /** The range to inline at the branch to t, if any. */
  method MaybeInlineTakenPath(cx: Context, blocks: seq<BasicBlock>, index: map<Pc, nat>, targets: set<Pc>, absorbed: set<Pc>, t: Pc)
    returns (range: Option<Range>)
    requires DistinctStarts(blocks) && Indexes(blocks, index)
    ensures range.Some? <==> t !in absorbed && InlineTarget(cx, blocks, targets, t)
    ensures range.Some? ==> range.value == (t, BlockAt(blocks, t).end)
  {
    if t in cx.entries || t !in index || t in absorbed || t in targets {
      return None;
    }
    assert HasStart(blocks, t) && BlockAt(blocks, t) == blocks[index[t]];
    if t !in cx.preds || |cx.preds[t]| != 1 {
      return None;
    }
    var block := blocks[index[t]];
    if block.count > DEFAULT_TAKEN_INLINE_SIZE {
      return None;
    }
    if block.lastPc !in cx.code || cx.code[block.lastPc].term.Branch? {
      return None;
    }
    return Some((block.start, block.end));
  }

  /** Inline at block i, if possible. */
  method InlineOne(cx: Context, blocks: seq<BasicBlock>, index: map<Pc, nat>, targets: set<Pc>, absorbed: set<Pc>, i: nat,
                   inlines: map<Pc, Range>)
    returns (inlines': map<Pc, Range>)
    requires DistinctStarts(blocks) && Indexes(blocks, index) && i < |blocks| && blocks[i].start !in targets
    requires blocks[i].lastPc in cx.code && cx.code[blocks[i].lastPc].term.Branch?
    requires GoodInlines(cx, blocks, targets, inlines) && AllInlined(cx, blocks, targets, i, absorbed, inlines)
    ensures GoodInlines(cx, blocks, targets, inlines') && AllInlined(cx, blocks, targets, i + 1, absorbed, inlines')
  {
    var range := MaybeInlineTakenPath(cx, blocks, index, targets, absorbed, cx.code[blocks[i].lastPc].term.taken);
    if range.None? {
      return inlines;
    }
    inlines' := inlines[blocks[i].lastPc := range.value];
    assert InlinedAt(cx, blocks, targets, blocks[i].lastPc, range.value);
  }
}
