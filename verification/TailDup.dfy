/**
  Tail duplication: small blocks reached only by unconditional jumps are copied
  to the end of their predecessors and dropped.
 */
module TailDup {
  import opened Code
  import opened Layout
  import opened Formation
  import opened Merge
  import opened Tables

  /** A block that is duplicated. */
  predicate Candidate(cx: Context, maxSize: nat, b: BasicBlock) {
    && b.start !in cx.entries
    && b.count <= maxSize
    && b.start in cx.preds && |cx.preds[b.start]| >= 2
    && EndsWithFall(cx, b)
    && forall p | p in cx.preds[b.start] :: IsJumpAt(cx.code, p)
  }

  predicate EndsWithFall(cx: Context, b: BasicBlock) {
    b.lastPc in cx.code && cx.code[b.lastPc].term.Fall?
  }

  predicate IsJumpAt(code: Code, p: Pc) {
    p in code && code[p].term.Jump?
  }

  method CollectCandidates(cx: Context, maxSize: nat, blocks: seq<BasicBlock>) returns (candidates: set<Pc>)
    ensures forall d :: d in candidates <==> exists i | 0 <= i < |blocks| :: blocks[i].start == d && Candidate(cx, maxSize, blocks[i])
  {
    candidates := {};
    for i := 0 to |blocks|
      invariant forall d :: d in candidates <==>
        exists k | 0 <= k < i :: blocks[k].start == d && Candidate(cx, maxSize, blocks[k])
    {
      if Candidate(cx, maxSize, blocks[i]) {
        candidates := candidates + {blocks[i].start};
      }
    }
  }

  // ----- predecessors that receive a copy -----

  /** The last instruction of each block to the block's start. */
  ghost predicate LastToStart(blocks: seq<BasicBlock>, last: map<Pc, Pc>) {
    && (forall i | 0 <= i < |blocks| :: blocks[i].lastPc in last && last[blocks[i].lastPc] == blocks[i].start)
    && (forall p | p in last :: exists i | 0 <= i < |blocks| :: blocks[i].lastPc == p)
  }

  method IndexByLast(blocks: seq<BasicBlock>) returns (last: map<Pc, Pc>)
    requires DistinctLast(blocks)
    ensures LastToStart(blocks, last)
  {
    last := map[];
    for i := 0 to |blocks|
      invariant forall k | 0 <= k < i :: blocks[k].lastPc in last && last[blocks[k].lastPc] == blocks[k].start
      invariant forall p | p in last :: exists k | 0 <= k < i :: blocks[k].lastPc == p
    {
      last := last[blocks[i].lastPc := blocks[i].start];
    }
  }

  predicate IsDirect(code: Code, p: Pc) {
    p in code && (code[p].term.Jump? || code[p].term.Branch? || code[p].term.Fall?)
  }

  /** Block s ends in a direct predecessor of d. */
  ghost predicate Receives(cx: Context, blocks: seq<BasicBlock>, d: Pc, s: Pc) {
    exists i | 0 <= i < |blocks| ::
      blocks[i].start == s && blocks[i].lastPc in Lookup(cx.preds, d) && IsDirect(cx.code, blocks[i].lastPc)
  }

  /** Explicit transfers first, then by address. */
  predicate RanksBefore(a: (Pc, bool), b: (Pc, bool)) {
    (a.1 && !b.1) || (a.1 == b.1 && a.0 <= b.0)
  }

  ghost predicate DistinctFirst(xs: seq<(Pc, bool)>) {
    forall i, j | 0 <= i < j < |xs| :: xs[i].0 != xs[j].0
  }

  ghost predicate InOrder(xs: seq<(Pc, bool)>) {
    forall i, j | 0 <= i < j < |xs| :: RanksBefore(xs[i], xs[j])
  }

  /** Block s ends in the direct transfer p, explicit or by falling through. */
  predicate EndsIn(code: Code, last: map<Pc, Pc>, p: Pc, x: (Pc, bool)) {
    p in last && IsDirect(code, p) && x == (last[p], !code[p].term.Fall?)
  }

  function InsertRanked(xs: seq<(Pc, bool)>, x: (Pc, bool)): (r: seq<(Pc, bool)>)
    ensures |r| == |xs| + 1
    ensures forall y :: y in r <==> y == x || y in xs
  {
    if xs == [] || RanksBefore(x, xs[0]) then [x] + xs else [xs[0]] + InsertRanked(xs[1..], x)
  }

  lemma {:induction false} InsertDistinct(xs: seq<(Pc, bool)>, x: (Pc, bool))
    requires DistinctFirst(xs) && forall y | y in xs :: y.0 != x.0
    requires InOrder(xs)
    ensures DistinctFirst(InsertRanked(xs, x)) && InOrder(InsertRanked(xs, x))
    decreases |xs|
  {
    if xs != [] && !RanksBefore(x, xs[0]) {
      InsertDistinct(xs[1..], x);
      var rest := InsertRanked(xs[1..], x);
      forall j | 0 <= j < |rest|
        ensures xs[0].0 != rest[j].0 && RanksBefore(xs[0], rest[j])
      {
        assert rest[j] in rest;
      }
    }
  }

  /** x is a block that ends in a direct transfer from `preds`. */
  ghost predicate Ranks(cx: Context, preds: set<Pc>, last: map<Pc, Pc>, x: (Pc, bool)) {
    exists p | p in preds :: EndsIn(cx.code, last, p, x)
  }

  /** The blocks that end in a direct predecessor, those that jump or branch first, each
      group in address order. */
  method RankPredecessors(cx: Context, preds: set<Pc>, last: map<Pc, Pc>) returns (ranked: seq<(Pc, bool)>)
    requires forall p, q | p in last && q in last && last[p] == last[q] :: p == q
    ensures InOrder(ranked) && DistinctFirst(ranked)
    ensures forall x :: x in ranked <==> Ranks(cx, preds, last, x)
  {
    ranked := [];
    var rest := preds;
    while rest != {}
      invariant rest <= preds && DistinctFirst(ranked) && InOrder(ranked)
      invariant forall x :: x in ranked <==> Ranks(cx, preds - rest, last, x)
    {
      var p :| p in rest;
      ghost var done := preds - rest;
      rest := rest - {p};
      assert preds - rest == done + {p};
      if p in last && IsDirect(cx.code, p) {
        var x := (last[p], !cx.code[p].term.Fall?);
        assert EndsIn(cx.code, last, p, x);
        InsertDistinct(ranked, x);
        ranked := InsertRanked(ranked, x);
      }
    }
    assert preds - rest == preds;
  }

  /** Their starts, in this order. */
  method CollectPredecessors(cx: Context, preds: set<Pc>, last: map<Pc, Pc>)
    returns (valid: seq<Pc>, ghost ranked: seq<(Pc, bool)>)
    requires forall p, q | p in last && q in last && last[p] == last[q] :: p == q
    ensures InOrder(ranked) && |valid| == |ranked| && forall i | 0 <= i < |valid| :: valid[i] == ranked[i].0
    ensures forall x :: x in ranked <==> Ranks(cx, preds, last, x)
    ensures forall s :: s in valid <==> exists p | p in preds :: p in last && last[p] == s && IsDirect(cx.code, p)
    ensures NoDuplicates(valid)
  {
    var sorted := RankPredecessors(cx, preds, last);
    valid := seq(|sorted|, i requires 0 <= i < |sorted| => sorted[i].0);
    ranked := sorted;
    forall s | s in valid
      ensures exists p | p in preds :: p in last && last[p] == s && IsDirect(cx.code, p)
    {
      var i :| 0 <= i < |valid| && valid[i] == s;
      assert Ranks(cx, preds, last, sorted[i]);
    }
    forall p | p in preds && p in last && IsDirect(cx.code, p)
      ensures last[p] in valid
    {
      var x := (last[p], !cx.code[p].term.Fall?);
      assert EndsIn(cx.code, last, p, x) && Ranks(cx, preds, last, x);
      var i :| 0 <= i < |sorted| && sorted[i] == x;
      assert valid[i] == last[p];
    }
  }

  // ----- applying one duplication -----

  /** Append the range to every receiver; the first one takes over the address. */
  method ApplyTailDuplication(t: Tables, d: Pc, range: Range, valid: seq<Pc>) returns (t': Tables)
    requires NoDuplicates(valid)
    ensures t'.blocks == t.blocks
    ensures forall b :: ContinuationsOf(t'.continuations, b) ==
                        ContinuationsOf(t.continuations, b) + (if b in valid then [range] else [])
    ensures t'.absorbed == if valid == [] then t.absorbed else t.absorbed[d := valid[0]]
  {
    var continuations: map<Pc, seq<Range>>, absorbed := t.continuations, t.absorbed;
    ghost var done: set<Pc> := {};
    for i := 0 to |valid|
      invariant forall b :: ContinuationsOf(continuations, b) ==
                            ContinuationsOf(t.continuations, b) + (if b in done then [range] else [])
      invariant forall b :: b in done <==> exists k | 0 <= k < i :: valid[k] == b
      invariant absorbed == if i == 0 then t.absorbed else t.absorbed[d := valid[0]]
    {
      assert valid[i] !in done;
      continuations := continuations[valid[i] := ContinuationsOf(continuations, valid[i]) + [range]];
      done := done + {valid[i]};
      if i == 0 {
        absorbed := absorbed[d := valid[i]];
      }
    }
    t' := Tables(t.blocks, absorbed, continuations);
  }

  ghost predicate HasReceiver(cx: Context, blocks: seq<BasicBlock>, d: Pc) {
    exists s :: Receives(cx, blocks, d, s)
  }

  /** Duplicated blocks are redirected to one of their receivers. */
  ghost predicate RedirectedToReceivers(cx: Context, t: Tables, dups: set<Pc>, absorbed: map<Pc, Pc>) {
    forall d ::
      if d in dups && HasReceiver(cx, t.blocks, d) then d in absorbed && Receives(cx, t.blocks, d, absorbed[d])
      else (d in absorbed <==> d in t.absorbed) && (d in absorbed ==> absorbed[d] == t.absorbed[d])
  }

  /** The copies block b receives, in some order. */
  ghost predicate AreCopies(cx: Context, blocks: seq<BasicBlock>, dups: set<Pc>, b: Pc, copies: seq<Pc>) {
    && NoDuplicates(copies)
    && (forall d :: d in copies <==> d in dups && Receives(cx, blocks, d, b))
  }

  /** Chains have grown by the copies. */
  ghost predicate AppendedToReceivers(cx: Context, t: Tables, dups: set<Pc>, continuations: map<Pc, seq<Range>>) {
    forall b :: HasCopies(cx, t, dups, continuations, b)
  }

  ghost predicate HasCopies(cx: Context, t: Tables, dups: set<Pc>, continuations: map<Pc, seq<Range>>, b: Pc) {
    var before, after := ChainOf(t.continuations, b), ChainOf(continuations, b);
    before <= after && AreCopies(cx, t.blocks, dups, b, after[|before|..])
  }

  /** The state after the candidates in `dups`. */
  ghost predicate Duplicated(cx: Context, orig: Blocks, t: Tables, dups: set<Pc>, t': Tables) {
    && t'.blocks == t.blocks
    && dups <= orig.Keys
    && WholeBlocks(orig, t'.continuations)
    && AppendedToReceivers(cx, t, dups, t'.continuations)
    && RedirectedToReceivers(cx, t, dups, t'.absorbed)
  }

  lemma {:induction false} StartsOfPush(ranges: seq<Range>, r: Range)
    ensures StartsOf(ranges + [r]) == StartsOf(ranges) + [r.0]
  {
  }

  lemma ChainGrows(before: map<Pc, seq<Range>>, after: map<Pc, seq<Range>>, b: Pc, more: bool, r: Range)
    requires ContinuationsOf(after, b) == ContinuationsOf(before, b) + (if more then [r] else [])
    ensures ChainOf(after, b) == ChainOf(before, b) + (if more then [r.0] else [])
  {
    StartsOfPush(ContinuationsOf(before, b), r);
    assert !more ==> ContinuationsOf(after, b) == ContinuationsOf(before, b);
  }

  lemma GrowCopies(cx: Context, blocks: seq<BasicBlock>, dups: set<Pc>, b: Pc, d: Pc, copies: seq<Pc>, more: bool)
    requires AreCopies(cx, blocks, dups, b, copies) && d !in dups && (more <==> Receives(cx, blocks, d, b))
    ensures AreCopies(cx, blocks, dups + {d}, b, copies + (if more then [d] else []))
  {
    forall i | 0 <= i < |copies|
      ensures copies[i] != d
    {
      assert copies[i] in copies;
    }
  }

  /** One more candidate: continuations, */
  lemma AppendOne(cx: Context, t: Tables, dups: set<Pc>, before: map<Pc, seq<Range>>,
                  d: Pc, r: Range, more: bool, after: map<Pc, seq<Range>>, b: Pc)
    requires HasCopies(cx, t, dups, before, b) && d !in dups && r.0 == d
    requires more <==> Receives(cx, t.blocks, d, b)
    requires ContinuationsOf(after, b) == ContinuationsOf(before, b) + (if more then [r] else [])
    ensures HasCopies(cx, t, dups + {d}, after, b)
  {
    ChainGrows(before, after, b, more, r);
    var chain, grown := ChainOf(t.continuations, b), ChainOf(before, b);
    GrowCopies(cx, t.blocks, dups, b, d, grown[|chain|..], more);
    PrefixGrows(chain, grown, if more then [d] else []);
  }

  lemma PrefixGrows(chain: seq<Pc>, grown: seq<Pc>, more: seq<Pc>)
    requires chain <= grown
    ensures chain <= grown + more && (grown + more)[|chain|..] == grown[|chain|..] + more
  {
  }

  /** ranges, */
  lemma WholeStep(orig: Blocks, before: map<Pc, seq<Range>>, after: map<Pc, seq<Range>>, valid: seq<Pc>, r: Range)
    requires WholeBlocks(orig, before) && r.0 in orig && r == RangeOf(orig, r.0)
    requires forall b :: ContinuationsOf(after, b) == ContinuationsOf(before, b) + (if b in valid then [r] else [])
    ensures WholeBlocks(orig, after)
  {
    forall b, i | b in after && 0 <= i < |after[b]|
      ensures after[b][i].0 in orig && after[b][i] == RangeOf(orig, after[b][i].0)
    {
      assert after[b] == ContinuationsOf(after, b);
      if i < |ContinuationsOf(before, b)| {
        assert after[b][i] == before[b][i];
      }
    }
  }

  /** and redirections. */
  lemma RedirectStep(cx: Context, t: Tables, dups: set<Pc>, before: map<Pc, Pc>, d: Pc, valid: seq<Pc>, after: map<Pc, Pc>)
    requires RedirectedToReceivers(cx, t, dups, before) && d !in dups
    requires forall s :: s in valid <==> Receives(cx, t.blocks, d, s)
    requires after == if valid == [] then before else before[d := valid[0]]
    ensures RedirectedToReceivers(cx, t, dups + {d}, after)
  {
    if valid != [] {
      assert valid[0] in valid;
    }
  }

  lemma ReceiversListed(cx: Context, blocks: seq<BasicBlock>, last: map<Pc, Pc>, d: Pc, valid: seq<Pc>)
    requires DistinctLast(blocks) && LastToStart(blocks, last)
    requires forall s :: s in valid <==>
               exists p | p in Lookup(cx.preds, d) :: p in last && last[p] == s && IsDirect(cx.code, p)
    ensures forall s :: s in valid <==> Receives(cx, blocks, d, s)
  {
    forall s
      ensures s in valid <==> Receives(cx, blocks, d, s)
    {
      if s in valid {
        var p :| p in Lookup(cx.preds, d) && p in last && last[p] == s && IsDirect(cx.code, p);
        var i :| 0 <= i < |blocks| && blocks[i].lastPc == p;
        assert blocks[i].start == s;
      }
    }
  }

  lemma DuplicateStep(cx: Context, orig: Blocks, t: Tables, dups: set<Pc>, before: Tables, d: Pc, r: Range,
                      valid: seq<Pc>, after: Tables)
    requires Duplicated(cx, orig, t, dups, before) && d !in dups && d in orig && r == RangeOf(orig, d) && r.0 == d
    requires forall s :: s in valid <==> Receives(cx, t.blocks, d, s)
    requires after.blocks == before.blocks
    requires forall b :: ContinuationsOf(after.continuations, b) ==
                         ContinuationsOf(before.continuations, b) + (if b in valid then [r] else [])
    requires after.absorbed == if valid == [] then before.absorbed else before.absorbed[d := valid[0]]
    ensures Duplicated(cx, orig, t, dups + {d}, after)
  {
    WholeStep(orig, before.continuations, after.continuations, valid, r);
    RedirectStep(cx, t, dups, before.absorbed, d, valid, after.absorbed);
    forall b
      ensures HasCopies(cx, t, dups + {d}, after.continuations, b)
    {
      assert HasCopies(cx, t, dups, before.continuations, b);
      AppendOne(cx, t, dups, before.continuations, d, r, b in valid, after.continuations, b);
    }
  }

  /** Copy one candidate to its receivers. */
  method DuplicateOne(cx: Context, ghost orig: Blocks, ghost t: Tables, ghost dups: set<Pc>, before: Tables,
                      d: Pc, range: Range, last: map<Pc, Pc>)
    returns (after: Tables)
    requires DistinctStarts(t.blocks) && DistinctLast(t.blocks) && LastToStart(t.blocks, last)
    requires Duplicated(cx, orig, t, dups, before) && d !in dups && d in orig
    requires range == RangeOf(orig, d) && range.0 == d
    ensures Duplicated(cx, orig, t, dups + {d}, after)
  {
    var valid, _ := CollectPredecessors(cx, Lookup(cx.preds, d), last);
    ReceiversListed(cx, t.blocks, last, d, valid);
    after := ApplyTailDuplication(before, d, range, valid);
    DuplicateStep(cx, orig, t, dups, before, d, range, valid, after);
  }

  lemma NothingDuplicated(cx: Context, orig: Blocks, t: Tables)
    requires DistinctStarts(t.blocks) && DistinctLast(t.blocks) && WholeBlocks(orig, t.continuations)
    ensures Duplicated(cx, orig, t, {}, t) && Keeps(t.blocks, {}, t.blocks)
  {
  }

  /** Copy every candidate to its receivers, in an arbitrary order. */
  method DuplicateAll(cx: Context, ghost orig: Blocks, t: Tables, candidates: set<Pc>, index: map<Pc, nat>, last: map<Pc, Pc>)
    returns (t': Tables)
    requires DistinctStarts(t.blocks) && DistinctLast(t.blocks) && LastToStart(t.blocks, last)
    requires Indexes(t.blocks, index) && Within(orig, t.blocks) && WholeBlocks(orig, t.continuations)
    requires forall d | d in candidates :: d in index
    ensures Duplicated(cx, orig, t, candidates, t')
  {
    t' := t;
    NothingDuplicated(cx, orig, t);
    var rest := candidates;
    ghost var dups: set<Pc> := {};
    while rest != {}
      invariant rest !! dups && rest + dups == candidates
      invariant Duplicated(cx, orig, t, dups, t')
    {
      var d :| d in rest;
      IndexedRange(orig, t.blocks, index, d);
      var b := t.blocks[index[d]];
      t' := DuplicateOne(cx, orig, t, dups, t', d, (b.start, b.end), last);
      dups, rest := dups + {d}, rest - {d};
    }
    assert dups == candidates;
  }

  // ----- exactness -----

  /** Static successors of every block are recorded. */
  ghost predicate StaticRecorded(code: Code, succs: Edges, orig: Blocks) {
    forall b, q | b in orig && orig[b].lastPc in code && q in code && StaticSuccessor(code, orig[b].lastPc, q) ::
      q in Lookup(succs, orig[b].lastPc)
  }

  /** The pass from tables `before` to tables `after`; `dups` are the duplicated blocks. */
  datatype Duplication = Duplication(cx: Context, maxSize: nat, succs: Edges, orig: Blocks,
                                     before: Tables, dups: set<Pc>, after: Tables)
  {
    ghost predicate IsCandidate(d: Pc) {
      exists i | 0 <= i < |before.blocks| :: before.blocks[i].start == d && Candidate(cx, maxSize, before.blocks[i])
    }

    /** What the pass computes. */
    ghost predicate Computes() {
      && Duplicated(cx, orig, before, dups, after.(blocks := before.blocks))
      && (forall d :: d in dups <==> IsCandidate(d))
      && Keeps(before.blocks, dups, after.blocks)
    }

    /** The tables the pass starts from. */
    ghost predicate Ready() {
      && SoundBlocks(cx.code, orig) && Recorded(succs, cx.preds)
      && Tidy(orig, before) && Faithful(cx.code, succs, orig, LayoutOf(before))
    }

    ghost function OldChain(b: Pc): seq<Pc> {
      ChainOf(before.continuations, b)
    }

    ghost function NewChain(b: Pc): seq<Pc> {
      ChainOf(after.continuations, b)
    }

    ghost function Copies(b: Pc): seq<Pc> {
      if |OldChain(b)| <= |NewChain(b)| then NewChain(b)[|OldChain(b)|..] else []
    }

    /** A duplicated block owns no continuations, and every block that receives copies jumps
        to the first of them, which runs into the next one and so on. */
    ghost predicate Safe() {
      && (forall d | d in dups :: d !in before.continuations)
      && (forall i | 0 <= i < |before.blocks| :: LinesUp(cx.code, orig, before.blocks[i].lastPc, Copies(before.blocks[i].start)))
    }

    /** A duplicated block owns no continuations and every block that receives a
        copy of it ends in a jump to it. */
    ghost predicate OwnJumps() {
      forall d | d in dups :: d !in before.continuations && JumpedTo(cx, before.blocks, d)
    }
  }

  /** The jump at `last` leads to the first copy, and every copy ends where the next begins. */
  ghost predicate LinesUp(code: Code, orig: Blocks, last: Pc, copies: seq<Pc>) {
    forall n | 0 <= n < |copies| :: LinesUpAt(code, orig, last, copies, n)
  }

  ghost predicate LinesUpAt(code: Code, orig: Blocks, last: Pc, copies: seq<Pc>, n: int) {
    && 0 <= n < |copies|
    && if n == 0 then last in code && code[last].term == Jump(copies[0])
       else copies[n - 1] in orig && orig[copies[n - 1]].end == copies[n]
  }

  /** Blocks that end in a predecessor of d jump to d. */
  ghost predicate JumpedTo(cx: Context, blocks: seq<BasicBlock>, d: Pc) {
    forall k | 0 <= k < |blocks| && blocks[k].lastPc in Lookup(cx.preds, d) && blocks[k].lastPc in cx.code ::
      cx.code[blocks[k].lastPc].term == Jump(d)
  }

  ghost const EMPTY := Tables([], map[], map[])

  type Pass = s: Duplication | s.Ready() && s.Computes()
    ghost witness Duplication(Context(map[], {}, map[]), 0, map[], map[], EMPTY, {}, EMPTY)

  /** The chain of a block is its old chain followed by its copies. */
  lemma DuplicatedChain(s: Pass, b: Pc)
    ensures s.NewChain(b) == s.OldChain(b) + s.Copies(b)
    ensures AreCopies(s.cx, s.before.blocks, s.dups, b, s.Copies(b))
  {
    assert HasCopies(s.cx, s.before, s.dups, s.after.continuations, b);
    PrefixAndRest(s.OldChain(b), s.NewChain(b));
  }

  lemma PrefixAndRest(a: seq<Pc>, b: seq<Pc>)
    requires a <= b
    ensures b == a + b[|a|..]
  {
  }

  lemma KeptBlocks(s: Pass)
    ensures forall b :: HasStart(s.after.blocks, b) <==> HasStart(s.before.blocks, b) && b !in s.dups
  {
    KeptStarts(s.before.blocks, s.dups, s.after.blocks);
  }

  /** A receiver ends in a jump, so it is not duplicated itself. */
  lemma ReceiverSurvives(s: Pass, d: Pc, r: Pc) returns (i: nat)
    requires d in s.dups && Receives(s.cx, s.before.blocks, d, r)
    ensures i < |s.before.blocks| && s.before.blocks[i].start == r && s.before.blocks[i].lastPc in Lookup(s.cx.preds, d)
    ensures IsJumpAt(s.cx.code, s.before.blocks[i].lastPc)
    ensures HasStart(s.after.blocks, r)
  {
    var blocks := s.before.blocks;
    i :| 0 <= i < |blocks| && blocks[i].start == r && blocks[i].lastPc in Lookup(s.cx.preds, d)
         && IsDirect(s.cx.code, blocks[i].lastPc);
    assert s.IsCandidate(d);
    KeptBlocks(s);
    assert HasStart(blocks, r);
    NotBoth(s, i);
  }

  lemma NotBoth(s: Pass, i: nat)
    requires i < |s.before.blocks| && IsJumpAt(s.cx.code, s.before.blocks[i].lastPc)
    ensures s.before.blocks[i].start !in s.dups
  {
    var b := s.before.blocks[i];
    assert DistinctStarts(s.before.blocks);
  }

  /** A recorded edge into a duplicated block comes from a jump, */
  lemma EdgeToDuplicate(s: Pass, p: Pc, d: Pc)
    requires d in s.dups && d in Lookup(s.succs, p)
    ensures IsJumpAt(s.cx.code, p) && p in Lookup(s.cx.preds, d)
  {
    assert s.IsCandidate(d);
  }

  /** and a block that ends in it receives a copy. */
  lemma JumpReceives(s: Pass, i: nat, d: Pc)
    requires i < |s.before.blocks| && d in s.dups && d in Lookup(s.succs, s.before.blocks[i].lastPc)
    ensures d in s.Copies(s.before.blocks[i].start)
  {
    EdgeToDuplicate(s, s.before.blocks[i].lastPc, d);
    DuplicatedChain(s, s.before.blocks[i].start);
    assert Receives(s.cx, s.before.blocks, d, s.before.blocks[i].start);
  }

  // ----- safety is enough -----

  lemma CopyFacts(s: Pass, b: Pc, d: Pc)
    requires d in s.Copies(b)
    ensures d in s.dups && Receives(s.cx, s.before.blocks, d, b) && d in s.orig && EndsAt(s.cx.code, s.orig[d])
  {
    DuplicatedChain(s, b);
  }

  /** Under safety every copy continues what is before it. */
  lemma SafeLink(s: Pass, i: nat, n: nat)
    requires s.Safe() && i < |s.before.blocks| && n < |s.Copies(s.before.blocks[i].start)|
    ensures var b := s.before.blocks[i].start;
            LinkBefore(s.cx.code, s.orig, s.OldChain(b)[|s.OldChain(b)| - 1], s.Copies(b), n)
  {
    var b := s.before.blocks[i];
    var copies := s.Copies(b.start);
    CopyFacts(s, b.start, copies[n]);
    assert LinesUpAt(s.cx.code, s.orig, b.lastPc, copies, n);
    if n == 0 {
      assert EndsChain(s.orig, s.before.continuations, b);
    } else {
      CopyFacts(s, b.start, copies[n - 1]);
      DuplicateFalls(s, copies[n - 1]);
    }
  }

  lemma SafeLinks(s: Pass, i: nat)
    requires s.Safe() && i < |s.before.blocks|
    ensures Linked(s.cx.code, s.orig, s.NewChain(s.before.blocks[i].start))
  {
    var b := s.before.blocks[i].start;
    DuplicatedChain(s, b);
    FaithfulLinked(s.cx.code, s.succs, s.orig, s.before, b);
    var last := s.OldChain(b)[|s.OldChain(b)| - 1];
    forall n | 0 <= n < |s.Copies(b)|
      ensures LinkBefore(s.cx.code, s.orig, last, s.Copies(b), n)
    {
      SafeLink(s, i, n);
    }
    LinkedAppend(s.cx.code, s.orig, s.OldChain(b), s.Copies(b));
  }

  /** Exits of a block's own chain do not lead to duplicated blocks. */
  lemma SafeOwnExit(s: Pass, i: nat, j: nat, q: Pc)
    requires s.Safe() && i < |s.before.blocks| && j < |s.OldChain(s.before.blocks[i].start)|
    requires var chain := s.OldChain(s.before.blocks[i].start);
             && Linked(s.cx.code, s.orig, chain)
             && q in s.cx.code && q in Lookup(s.succs, s.orig[chain[j]].lastPc)
             && CanFlow(s.cx.code, s.orig[chain[j]].lastPc, q)
             && ((j == |chain| - 1 && s.Copies(s.before.blocks[i].start) == [])
                 || BranchesTo(s.cx.code, s.orig[chain[j]].lastPc, q))
    ensures HasStart(s.before.blocks, q) && q !in s.dups
  {
    FaithfulExit(s.cx.code, s.succs, s.orig, s.before, s.before.blocks[i].start, j, q);
    OwnExitStays(s, i, j, q);
  }

  lemma OwnExitStays(s: Pass, i: nat, j: nat, q: Pc)
    requires s.Safe() && i < |s.before.blocks| && j < |s.OldChain(s.before.blocks[i].start)|
    requires var chain := s.OldChain(s.before.blocks[i].start);
             && Linked(s.cx.code, s.orig, chain)
             && q in s.cx.code && q in Lookup(s.succs, s.orig[chain[j]].lastPc)
             && CanFlow(s.cx.code, s.orig[chain[j]].lastPc, q)
             && ((j == |chain| - 1 && s.Copies(s.before.blocks[i].start) == [])
                 || BranchesTo(s.cx.code, s.orig[chain[j]].lastPc, q))
    ensures q !in s.dups
  {
    var b := s.before.blocks[i];
    assert EndsChain(s.orig, s.before.continuations, b);
    if q in s.dups {
      EdgeToDuplicate(s, s.orig[s.OldChain(b.start)[j]].lastPc, q);
      if j == |s.OldChain(b.start)| - 1 {
        JumpReceives(s, i, q);
      }
    }
  }

  /** A duplicated block that owns nothing ends in a fall-through. */
  lemma DuplicateFalls(s: Pass, d: Pc)
    requires d in s.dups && d !in s.before.continuations
    ensures s.OldChain(d) == [d] && HasStart(s.before.blocks, d)
    ensures d in s.orig && s.orig[d].lastPc in s.cx.code && s.cx.code[s.orig[d].lastPc].term.Fall?
  {
    assert s.IsCandidate(d);
    var k :| 0 <= k < |s.before.blocks| && s.before.blocks[k].start == d && Candidate(s.cx, s.maxSize, s.before.blocks[k]);
    assert s.OldChain(d) == [d];
    assert EndsChain(s.orig, s.before.continuations, s.before.blocks[k]);
  }

  /** A duplicated block that owns nothing exits to blocks that are kept. */
  lemma SafeCopyExit(s: Pass, d: Pc, q: Pc)
    requires s.Safe() && d in s.dups && d in s.orig
    requires q in s.cx.code && q in Lookup(s.succs, s.orig[d].lastPc) && CanFlow(s.cx.code, s.orig[d].lastPc, q)
    ensures HasStart(s.before.blocks, q) && q !in s.dups
  {
    DuplicateFalls(s, d);
    FaithfulLinked(s.cx.code, s.succs, s.orig, s.before, d);
    FaithfulExit(s.cx.code, s.succs, s.orig, s.before, d, 0, q);
    if q in s.dups {
      EdgeToDuplicate(s, s.orig[d].lastPc, q);
    }
  }

  lemma AtCopy(a: seq<Pc>, b: seq<Pc>, j: nat)
    requires |a| <= j < |a + b|
    ensures (a + b)[j] in b
  {
  }

  lemma SafeExit(s: Pass, i: nat, chain: seq<Pc>, copies: seq<Pc>, j: nat, q: Pc)
    requires s.Safe() && i < |s.before.blocks|
    requires chain == s.OldChain(s.before.blocks[i].start) && copies == s.Copies(s.before.blocks[i].start)
    requires Linked(s.cx.code, s.orig, chain) && Linked(s.cx.code, s.orig, chain + copies)
    requires j < |chain + copies| && q in s.cx.code && q in Lookup(s.succs, s.orig[(chain + copies)[j]].lastPc)
    requires LeavesChain(s.cx.code, s.orig, chain + copies, j, q)
    ensures HasStart(s.before.blocks, q) && q !in s.dups
  {
    if j < |chain| {
      SafeOwnExit(s, i, j, q);
    } else {
      AtCopy(chain, copies, j);
      CopyFacts(s, s.before.blocks[i].start, (chain + copies)[j]);
      SafeCopyExit(s, (chain + copies)[j], q);
    }
  }

  lemma SafeExits(s: Pass, i: nat)
    requires s.Safe() && i < |s.before.blocks|
    requires Linked(s.cx.code, s.orig, s.NewChain(s.before.blocks[i].start))
    ensures ExitsReach(s.cx.code, s.succs, s.orig, s.after, s.before.blocks[i].start)
  {
    var b := s.before.blocks[i].start;
    var chain, copies := s.OldChain(b), s.Copies(b);
    DuplicatedChain(s, b);
    KeptBlocks(s);
    FaithfulLinked(s.cx.code, s.succs, s.orig, s.before, b);
    forall j, q | 0 <= j < |chain + copies| && q in s.cx.code && q in Lookup(s.succs, s.orig[(chain + copies)[j]].lastPc)
                  && LeavesChain(s.cx.code, s.orig, chain + copies, j, q)
      ensures HasStart(s.after.blocks, q)
    {
      SafeExit(s, i, chain, copies, j, q);
    }
  }

  lemma SafeRedirects(s: Pass, a: Pc)
    requires s.Safe() && a in s.after.absorbed
    ensures a in s.cx.code && !HasStart(s.after.blocks, a) && HasStart(s.after.blocks, s.after.absorbed[a])
  {
    KeptBlocks(s);
    if a in s.dups && HasReceiver(s.cx, s.before.blocks, a) {
      var i := ReceiverSurvives(s, a, s.after.absorbed[a]);
    } else {
      assert s.before.absorbed[a] in s.before.absorbed.Values;
    }
  }

  lemma SafeIsEnough(s: Pass)
    requires s.Safe()
    ensures Faithful(s.cx.code, s.succs, s.orig, LayoutOf(s.after))
  {
    KeptBlocks(s);
    forall b | HasStart(s.after.blocks, b)
      ensures Linked(s.cx.code, s.orig, s.NewChain(b)) && ExitsReach(s.cx.code, s.succs, s.orig, s.after, b)
    {
      var i :| 0 <= i < |s.before.blocks| && s.before.blocks[i].start == b;
      SafeLinks(s, i);
      SafeExits(s, i);
    }
    forall a | a in s.after.absorbed
      ensures a in s.cx.code && !HasStart(s.after.blocks, a) && HasStart(s.after.blocks, s.after.absorbed[a])
    {
      SafeRedirects(s, a);
    }
    TablesFaithful(s.cx.code, s.succs, s.orig, s.after);
  }

  // ----- and safety is needed -----

  ghost predicate StaysFaithful(s: Pass) {
    Faithful(s.cx.code, s.succs, s.orig, LayoutOf(s.after))
  }

  /** A duplicated block with continuations leaves redirections to itself behind. */
  lemma FaithfulOwnsNothing(s: Pass, d: Pc)
    requires StaysFaithful(s) && d in s.dups
    ensures d !in s.before.continuations
  {
    KeptBlocks(s);
    if d in s.before.continuations {
      assert d in s.before.absorbed.Values;
      var c :| c in s.before.absorbed && s.before.absorbed[c] == d;
      FaithfulRedirect(s.cx.code, s.succs, s.orig, s.before, c);
      RedirectKept(s, c);
      FaithfulRedirect(s.cx.code, s.succs, s.orig, s.after, c);
    }
  }

  lemma RedirectKept(s: Pass, c: Pc)
    requires c in s.before.absorbed && !HasStart(s.before.blocks, c)
    ensures c in s.after.absorbed && s.after.absorbed[c] == s.before.absorbed[c]
  {
    assert !s.IsCandidate(c);
  }

  /** The n-th copy of a faithful chain lines up with what is before it. */
  lemma CopyFallsOn(s: Pass, b: Pc, d: Pc)
    requires StaysFaithful(s) && d in s.Copies(b)
    ensures d in s.orig && EndsAt(s.cx.code, s.orig[d])
    ensures s.orig[d].lastPc in s.cx.code && s.cx.code[s.orig[d].lastPc].term.Fall?
  {
    CopyFacts(s, b, d);
    FaithfulOwnsNothing(s, d);
    DuplicateFalls(s, d);
  }

  lemma FaithfulCopy(s: Pass, i: nat, n: nat)
    requires StaysFaithful(s) && i < |s.before.blocks| && n < |s.Copies(s.before.blocks[i].start)|
    ensures LinesUpAt(s.cx.code, s.orig, s.before.blocks[i].lastPc, s.Copies(s.before.blocks[i].start), n)
  {
    var b, copies := s.before.blocks[i], s.Copies(s.before.blocks[i].start);
    ReceiverJumps(s, i, copies[n]);
    DuplicatedChain(s, b.start);
    FaithfulLinked(s.cx.code, s.succs, s.orig, s.after, b.start);
    AppendLinked(s.cx.code, s.orig, s.OldChain(b.start), copies, n);
    if n == 0 {
      assert EndsChain(s.orig, s.before.continuations, b);
    } else {
      CopyFallsOn(s, b.start, copies[n - 1]);
      FallsToNext(s.cx.code, s.orig, copies[n - 1], copies[n]);
    }
  }

  /** A block that falls through continues where it ends. */
  lemma FallsToNext(code: Code, orig: Blocks, d: Pc, q: Pc)
    requires d in orig && EndsAt(code, orig[d]) && orig[d].lastPc in code && code[orig[d].lastPc].term.Fall?
    requires Continues(code, orig[d].lastPc, q) && PlainFall(code, orig[d].lastPc)
    ensures orig[d].end == q
  {
  }

  lemma ReceiverJumps(s: Pass, i: nat, d: Pc)
    requires i < |s.before.blocks| && d in s.Copies(s.before.blocks[i].start)
    ensures IsJumpAt(s.cx.code, s.before.blocks[i].lastPc) && HasStart(s.after.blocks, s.before.blocks[i].start)
  {
    CopyFacts(s, s.before.blocks[i].start, d);
    var k := ReceiverSurvives(s, d, s.before.blocks[i].start);
    assert k == i;
  }

  lemma FaithfulLinesUp(s: Pass, i: nat)
    requires StaysFaithful(s) && i < |s.before.blocks|
    ensures LinesUp(s.cx.code, s.orig, s.before.blocks[i].lastPc, s.Copies(s.before.blocks[i].start))
  {
    forall n | 0 <= n < |s.Copies(s.before.blocks[i].start)|
      ensures LinesUpAt(s.cx.code, s.orig, s.before.blocks[i].lastPc, s.Copies(s.before.blocks[i].start), n)
    {
      FaithfulCopy(s, i, n);
    }
  }

  /** Tail duplication keeps the layout faithful exactly when it is safe. */
  lemma TailDuplicationExact(s: Pass)
    ensures Faithful(s.cx.code, s.succs, s.orig, LayoutOf(s.after)) <==> s.Safe()
  {
    if s.Safe() {
      SafeIsEnough(s);
    }
    if StaysFaithful(s) {
      forall d | d in s.dups
        ensures d !in s.before.continuations
      {
        FaithfulOwnsNothing(s, d);
      }
      forall i | 0 <= i < |s.before.blocks|
        ensures LinesUp(s.cx.code, s.orig, s.before.blocks[i].lastPc, s.Copies(s.before.blocks[i].start))
      {
        FaithfulLinesUp(s, i);
      }
    }
  }

  // ----- where the static successors of all blocks are recorded -----

  /** No duplicated block runs into another one: that edge is recorded, and no jump. */
  lemma NothingAfterCopy(s: Pass, e: Pc, d: Pc)
    requires StaticRecorded(s.cx.code, s.succs, s.orig) && e in s.dups && d in s.dups && d in s.orig
    requires e !in s.before.continuations
    ensures e in s.orig && s.orig[e].end != d
  {
    DuplicateFalls(s, e);
    if s.orig[e].end == d {
      EdgeToDuplicate(s, s.orig[e].lastPc, d);
    }
  }

  lemma SafeJumps(s: Pass, k: nat, d: Pc)
    requires s.Safe() && StaticRecorded(s.cx.code, s.succs, s.orig) && d in s.dups && k < |s.before.blocks|
    requires s.before.blocks[k].lastPc in Lookup(s.cx.preds, d)
    ensures s.before.blocks[k].lastPc in s.cx.code && s.cx.code[s.before.blocks[k].lastPc].term == Jump(d)
  {
    var b := s.before.blocks[k];
    assert s.IsCandidate(d);
    assert Receives(s.cx, s.before.blocks, d, b.start);
    DuplicatedChain(s, b.start);
    var copies := s.Copies(b.start);
    var n :| 0 <= n < |copies| && copies[n] == d;
    assert LinesUp(s.cx.code, s.orig, b.lastPc, copies);
    assert LinesUpAt(s.cx.code, s.orig, b.lastPc, copies, n);
    if n > 0 {
      CopyFacts(s, b.start, copies[n - 1]);
      CopyFacts(s, b.start, d);
      NothingAfterCopy(s, copies[n - 1], d);
    }
  }

  lemma FirstTwoDiffer(cs: seq<Pc>)
    requires NoDuplicates(cs) && |cs| > 1
    ensures cs[0] != cs[1]
  {
  }

  /** A jump leads to one address, so what it leads to is one copy. */
  lemma OneTarget(code: Code, orig: Blocks, last: Pc, copies: seq<Pc>)
    requires NoDuplicates(copies) && forall d | d in copies :: last in code && code[last].term == Jump(d)
    ensures LinesUp(code, orig, last, copies)
  {
    if copies != [] {
      assert copies[0] in copies;
    }
    if |copies| > 1 {
      assert copies[0] in copies && copies[1] in copies;
      FirstTwoDiffer(copies);
    }
  }

  lemma ReceiverJumpsTo(s: Pass, i: nat, d: Pc)
    requires s.OwnJumps() && i < |s.before.blocks| && d in s.Copies(s.before.blocks[i].start)
    ensures s.before.blocks[i].lastPc in s.cx.code && s.cx.code[s.before.blocks[i].lastPc].term == Jump(d)
  {
    CopyFacts(s, s.before.blocks[i].start, d);
    var k := ReceiverSurvives(s, d, s.before.blocks[i].start);
    assert k == i;
    assert JumpedTo(s.cx, s.before.blocks, d);
  }

  lemma JumpedLinesUp(s: Pass, i: nat)
    requires s.OwnJumps() && i < |s.before.blocks|
    ensures LinesUp(s.cx.code, s.orig, s.before.blocks[i].lastPc, s.Copies(s.before.blocks[i].start))
  {
    var b := s.before.blocks[i];
    DuplicatedChain(s, b.start);
    forall d | d in s.Copies(b.start)
      ensures b.lastPc in s.cx.code && s.cx.code[b.lastPc].term == Jump(d)
    {
      ReceiverJumpsTo(s, i, d);
    }
    OneTarget(s.cx.code, s.orig, b.lastPc, s.Copies(b.start));
  }

  /** Then duplication is safe exactly when no duplicated block owns continuations and every
      block that receives a copy ends in a jump to it. */
  lemma VisitedDuplication(s: Pass)
    requires StaticRecorded(s.cx.code, s.succs, s.orig)
    ensures s.Safe() <==> s.OwnJumps()
  {
    if s.Safe() {
      forall d, k | d in s.dups && 0 <= k < |s.before.blocks| && s.before.blocks[k].lastPc in Lookup(s.cx.preds, d)
        ensures s.before.blocks[k].lastPc in s.cx.code && s.cx.code[s.before.blocks[k].lastPc].term == Jump(d)
      {
        SafeJumps(s, k, d);
      }
    }
    if s.OwnJumps() {
      forall i | 0 <= i < |s.before.blocks|
        ensures LinesUp(s.cx.code, s.orig, s.before.blocks[i].lastPc, s.Copies(s.before.blocks[i].start))
      {
        JumpedLinesUp(s, i);
      }
    }
  }
}
