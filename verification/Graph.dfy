/**
  From the analyser's edges to leaders, predecessors and recorded runs.
 */
module Graph {
  import opened Code
  import opened Values
  import opened Registers
  import opened Analysis
  import opened Trace
  import opened Formation
  import opened Layout

  // ----- leaders -----

  ghost predicate IsLeader(t: Setup, succs: map<Word, set<Word>>, q: Word) {
    || q in t.functionEntries + t.internalTargets + t.returnSites
    || exists p | p in succs :: LeadsFrom(t, p, succs[p], q)
  }

  /** q is a target of the control-flow instruction at p, or follows it. */
  predicate LeadsFrom(t: Setup, p: Word, targets: set<Word>, q: Word) {
    && p in t.slots && t.slots[p].decoded.IsControlFlow()
    && (q in targets || (q == After(p, t.slots[p].size) && q in t.slots))
  }

  method ComputeLeaders(t: Setup, succs: map<Word, set<Word>>) returns (leaders: set<Word>)
    ensures forall q :: q in leaders <==> IsLeader(t, succs, q)
  {
    leaders := t.functionEntries + t.internalTargets + t.returnSites;
    ghost var seeds := leaders;
    var rest := succs.Keys;
    while rest != {}
      invariant rest <= succs.Keys
      invariant forall q :: q in leaders <==> q in seeds || exists p | p in succs && p !in rest :: LeadsFrom(t, p, succs[p], q)
    {
      var p :| p in rest;
      ghost var before := leaders;
      if p in t.slots && t.slots[p].decoded.IsControlFlow() {
        leaders := leaders + succs[p];
        var next := After(p, t.slots[p].size);
        if next in t.slots {
          leaders := leaders + {next};
        }
      }
      assert forall q :: q in leaders <==> q in before || LeadsFrom(t, p, succs[p], q);
      LeadersStep(t, succs, seeds, rest, p, before, leaders);
      rest := rest - {p};
    }
  }

  lemma LeadersStep(t: Setup, succs: map<Word, set<Word>>, seeds: set<Word>, rest: set<Word>, p: Word,
                    before: set<Word>, leaders: set<Word>)
    requires p in rest && rest <= succs.Keys
    requires forall q :: q in before <==> q in seeds || exists x | x in succs && x !in rest :: LeadsFrom(t, x, succs[x], q)
    requires forall q :: q in leaders <==> q in before || LeadsFrom(t, p, succs[p], q)
    ensures forall q :: q in leaders <==> q in seeds || exists x | x in succs && x !in rest - {p} :: LeadsFrom(t, x, succs[x], q)
  {
  }

  // ----- decoded and lifted code agree -----

  /** The lifted terminator of a decoded instruction. */
  predicate Lifts(pc: Word, d: Decoded, term: Terminator) {
    match d.kind
    case Jal => term == Jump(AddSigned(pc, d.imm))
    case Jalr => term.JumpDyn?
    case Branch => term.Branch? && term.taken == AddSigned(pc, d.imm)
    case _ => IsOrdinary(term)
  }

  ghost predicate Agrees(t: Setup, code: Code) {
    && (forall p: Pc | p in code :: p < WORD && p + code[p].size < WORD && p in t.slots)
    && (forall p | p in t.slots :: p in code && code[p].size == t.slots[p].size && Lifts(p, t.slots[p].decoded, code[p].term))
  }

  lemma OrdinaryEdge(t: Setup, code: Code, succs: map<Word, set<Word>>, p: Word, q: Word)
    requires Agrees(t, code) && p in succs && Explained(t, p, succs[p]) && q in succs[p]
    requires !t.slots[p].decoded.IsControlFlow()
    ensures p in code && q == NextPc(code, p) && IsOrdinary(code[p].term)
  {
    var f: Facts :| q in SuccessorsOf(t, p, t.slots[p].size, t.slots[p].decoded, f);
    assert p + code[p].size < WORD;
  }

  /** The computed leaders cover the analyser's edges. */
  lemma LeadersCoverEdges(t: Setup, code: Code, succs: map<Word, set<Word>>, leaders: set<Word>)
    requires Agrees(t, code) && forall p | p in succs :: Explained(t, p, succs[p])
    requires forall q :: q in leaders <==> IsLeader(t, succs, q)
    ensures LeadersCover(code, succs, leaders)
  {
    forall p, q | p in succs && q in succs[p]
      ensures q in leaders || (p in code && q == NextPc(code, p) && IsOrdinary(code[p].term))
    {
      assert Explained(t, p, succs[p]);
      if t.slots[p].decoded.IsControlFlow() {
        assert LeadsFrom(t, p, succs[p], q);
        assert IsLeader(t, succs, q);
      } else {
        OrdinaryEdge(t, code, succs, p, q);
      }
    }
  }

  /** The static successors of every visited instruction are recorded, and visited. */
  lemma StaticEdgesRecorded(t: Setup, code: Code, facts: map<Word, Facts>, succs: map<Word, set<Word>>, p: Word, q: Pc)
    requires WellEncoded(t) && Agrees(t, code) && Settled(t, facts, succs, p) && p in facts && p in code && q in code
    requires StaticSuccessor(code, p, q) && PlainFall(code, p)
    ensures p in succs && q in succs[p] && q in facts
  {
    var s := t.slots[p];
    StaticTarget(t, code, p, q, facts[p]);
    assert q in SuccessorsOf(t, p, s.size, s.decoded, facts[p]);
  }

  lemma StaticTarget(t: Setup, code: Code, p: Word, q: Word, f: Facts)
    requires p in code && p + code[p].size < WORD && p in t.slots && q in t.slots && PlainFall(code, p)
    requires code[p].size == t.slots[p].size && Lifts(p, t.slots[p].decoded, code[p].term) && StaticSuccessor(code, p, q)
    ensures q in SuccessorsOf(t, p, t.slots[p].size, t.slots[p].decoded, f)
  {
  }

  // ----- predecessors -----

  /** A way to split the work of the parallel fold: chunks of entries, combined pairwise. */
  datatype Work = Chunk(entries: seq<(Pc, set<Pc>)>) | Combine(left: Work, right: Work)
  {
    function Entries(): seq<(Pc, set<Pc>)> {
      match this
      case Chunk(entries) => entries
      case Combine(left, right) => left.Entries() + right.Entries()
    }
  }

  predicate HasEdge(entries: seq<(Pc, set<Pc>)>, p: Pc, q: Pc) {
    exists i | 0 <= i < |entries| :: entries[i].0 == p && q in entries[i].1
  }

  /** preds holds exactly the reversed edges. */
  ghost predicate Reverses(entries: seq<(Pc, set<Pc>)>, preds: Edges) {
    && (forall p, q :: p in Lookup(preds, q) <==> HasEdge(entries, p, q))
    && (forall q | q in preds :: preds[q] != {})
  }

  /** p was added to the predecessors of the targets in `done`. */
  ghost predicate Inserted(preds: Edges, p: Pc, done: set<Pc>, preds': Edges) {
    && preds'.Keys == preds.Keys + done
    && forall q | q in preds' :: preds'[q] == if q in done then Lookup(preds, q) + {p} else Lookup(preds, q)
  }

  lemma InsertOne(preds: Edges, p: Pc, done: set<Pc>, mid: Edges, q: Pc)
    requires Inserted(preds, p, done, mid) && q !in done
    ensures Inserted(preds, p, done + {q}, mid[q := Lookup(mid, q) + {p}])
  {
  }

  lemma InsertedEdges(preds: Edges, p: Pc, targets: set<Pc>, preds': Edges)
    requires Inserted(preds, p, targets, preds')
    ensures forall x, q :: x in Lookup(preds', q) <==> x in Lookup(preds, q) || (x == p && q in targets)
    ensures (forall q | q in preds :: preds[q] != {}) ==> forall q | q in preds' :: preds'[q] != {}
  {
    forall q: Pc
      ensures Lookup(preds', q) == if q in targets then Lookup(preds, q) + {p} else Lookup(preds, q)
    {
    }
  }

  method InsertTargets(preds: Edges, p: Pc, targets: set<Pc>) returns (preds': Edges)
    ensures forall x, q :: x in Lookup(preds', q) <==> x in Lookup(preds, q) || (x == p && q in targets)
    ensures (forall q | q in preds :: preds[q] != {}) ==> forall q | q in preds' :: preds'[q] != {}
  {
    preds' := preds;
    var rest := targets;
    while rest != {}
      invariant rest <= targets && Inserted(preds, p, targets - rest, preds')
    {
      var q :| q in rest;
      InsertOne(preds, p, targets - rest, preds', q);
      preds' := preds'[q := Lookup(preds', q) + {p}];
      assert targets - rest + {q} == targets - (rest - {q});
      rest := rest - {q};
    }
    assert targets - rest == targets;
    InsertedEdges(preds, p, targets, preds');
  }

  lemma EdgePush(entries: seq<(Pc, set<Pc>)>, i: nat)
    requires i < |entries|
    ensures forall p, q :: HasEdge(entries[..i + 1], p, q) <==>
              HasEdge(entries[..i], p, q) || (p == entries[i].0 && q in entries[i].1)
  {
    var more := entries[..i + 1];
    assert more[i] == entries[i];
    forall p, q
      ensures HasEdge(more, p, q) <==> HasEdge(entries[..i], p, q) || (p == entries[i].0 && q in entries[i].1)
    {
      if HasEdge(entries[..i], p, q) {
        var k :| 0 <= k < i && entries[..i][k].0 == p && q in entries[..i][k].1;
        assert more[k] == entries[..i][k];
      }
      if HasEdge(more, p, q) {
        var k :| 0 <= k < |more| && more[k].0 == p && q in more[k].1;
        assert k < i ==> entries[..i][k] == more[k];
      }
    }
  }

  /** One chunk of the fold. */
  method FoldChunk(entries: seq<(Pc, set<Pc>)>) returns (preds: Edges)
    ensures Reverses(entries, preds)
  {
    preds := map[];
    for i := 0 to |entries|
      invariant Reverses(entries[..i], preds)
    {
      EdgePush(entries, i);
      preds := InsertTargets(preds, entries[i].0, entries[i].1);
    }
    assert entries[..|entries|] == entries;
  }

  /** Add the second map to the first. */
  method MergeEdges(a: Edges, b: Edges) returns (r: Edges)
    ensures forall p, q :: p in Lookup(r, q) <==> p in Lookup(a, q) || p in Lookup(b, q)
    ensures (forall q | q in a :: a[q] != {}) && (forall q | q in b :: b[q] != {}) ==> forall q | q in r :: r[q] != {}
  {
    r := a;
    var rest := b.Keys;
    while rest != {}
      invariant rest <= b.Keys
      invariant forall p, q :: p in Lookup(r, q) <==> p in Lookup(a, q) || (p in Lookup(b, q) && q !in rest)
      invariant (forall q | q in a :: a[q] != {}) && (forall q | q in b :: b[q] != {}) ==> forall q | q in r :: r[q] != {}
    {
      var q :| q in rest;
      r := r[q := Lookup(r, q) + b[q]];
      rest := rest - {q};
    }
  }

  lemma EdgeConcat(a: seq<(Pc, set<Pc>)>, b: seq<(Pc, set<Pc>)>, p: Pc, q: Pc)
    ensures HasEdge(a + b, p, q) <==> HasEdge(a, p, q) || HasEdge(b, p, q)
  {
    var all := a + b;
    if HasEdge(a, p, q) {
      var k :| 0 <= k < |a| && a[k].0 == p && q in a[k].1;
      assert all[k] == a[k];
    }
    if HasEdge(b, p, q) {
      var k :| 0 <= k < |b| && b[k].0 == p && q in b[k].1;
      assert all[|a| + k] == b[k];
    }
    if HasEdge(all, p, q) {
      var k :| 0 <= k < |all| && all[k].0 == p && q in all[k].1;
      assert if k < |a| then a[k] == all[k] else b[k - |a|] == all[k];
    }
  }

  /** The parallel fold and reduction, for any split of the work. */
  method FoldAndReduce(work: Work) returns (preds: Edges)
    ensures Reverses(work.Entries(), preds)
    decreases work
  {
    match work {
      case Chunk(entries) => preds := FoldChunk(entries);
      case Combine(left, right) =>
        var a := FoldAndReduce(left);
        var b := FoldAndReduce(right);
        preds := MergeEdges(a, b);
        forall p, q
          ensures HasEdge(work.Entries(), p, q) <==> HasEdge(left.Entries(), p, q) || HasEdge(right.Entries(), p, q)
        {
          EdgeConcat(left.Entries(), right.Entries(), p, q);
        }
    }
  }

  /** The work goes through exactly the entries of the map. */
  ghost predicate Covers(entries: seq<(Pc, set<Pc>)>, succs: Edges) {
    forall p, s :: (p, s) in entries <==> p in succs && succs[p] == s
  }

  /** preds is the transpose of succs. */
  ghost predicate Transposes(succs: Edges, preds: Edges) {
    && (forall p, q :: p in Lookup(preds, q) <==> q in Lookup(succs, p))
    && (forall q | q in preds :: preds[q] != {})
  }

  method BuildPredecessors(ghost succs: Edges, work: Work) returns (preds: Edges)
    requires Covers(work.Entries(), succs)
    ensures Transposes(succs, preds)
  {
    preds := FoldAndReduce(work);
    forall p, q
      ensures HasEdge(work.Entries(), p, q) <==> q in Lookup(succs, p)
    {
      CoveredEdge(work.Entries(), succs, p, q);
    }
  }

  lemma CoveredEdge(entries: seq<(Pc, set<Pc>)>, succs: Edges, p: Pc, q: Pc)
    requires Covers(entries, succs)
    ensures HasEdge(entries, p, q) <==> q in Lookup(succs, p)
  {
    if HasEdge(entries, p, q) {
      var i :| 0 <= i < |entries| && entries[i].0 == p && q in entries[i].1;
      assert (p, entries[i].1) in entries;
    }
    if p in succs {
      assert (p, succs[p]) in entries;
      var i :| 0 <= i < |entries| && entries[i] == (p, succs[p]);
    }
  }
}
