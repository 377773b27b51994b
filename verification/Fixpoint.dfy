/**
  The worklist loop: what every round keeps, and why it ends.
 */
module Fixpoint {
  import opened Sets
  import opened Code
  import opened Values
  import opened Registers
  import opened Analysis
  import opened Worklist

  // ----- how often facts can rise -----

  function Rank(m: Meaning): nat
    requires Bounded(m)
  {
    if m.Top? then MAX_VALUES else |m.words| - 1
  }

  /** Rises so far of registers r and up. */
  function RankFrom(f: Facts, r: nat): (n: nat)
    requires r <= NUM_REGS
    ensures n <= (NUM_REGS - r) * MAX_VALUES
    decreases NUM_REGS - r
  {
    if r == NUM_REGS then 0 else Rank(f[r]) + RankFrom(f, r + 1)
  }

  function RankOf(f: Facts): (n: nat)
    ensures n <= 31 * 16
  {
    RankFrom(f, 1)
  }

  lemma RankRises(a: Meaning, b: Meaning)
    requires Bounded(a) && Bounded(b) && Leq(a, b)
    ensures Rank(a) <= Rank(b) && (a != b ==> Rank(a) < Rank(b))
  {
    if a.OneOf? && b.OneOf? {
      SubsetSize(a.words, b.words);
    }
  }

  lemma {:induction false} RankFromRises(f: Facts, g: Facts, r: nat)
    requires r <= NUM_REGS && Below(f, g)
    ensures RankFrom(f, r) <= RankFrom(g, r)
    ensures (exists k | r <= k < NUM_REGS :: f[k] != g[k]) ==> RankFrom(f, r) < RankFrom(g, r)
    decreases NUM_REGS - r
  {
    if r < NUM_REGS {
      RankFromRises(f, g, r + 1);
      RankRises(f[r], g[r]);
    }
  }

  lemma SameFacts(f: Facts, g: Facts)
    requires forall k | 1 <= k < NUM_REGS :: f[k] == g[k]
    ensures f == g
  {
  }

  lemma FactsDiffer(f: Facts, g: Facts) returns (k: nat)
    requires f != g
    ensures 1 <= k < NUM_REGS && f[k] != g[k]
  {
    if forall k | 1 <= k < NUM_REGS :: f[k] == g[k] {
      SameFacts(f, g);
    }
    k :| 1 <= k < NUM_REGS && f[k] != g[k];
  }

  /** A strict rise raises the rank. */
  lemma RankOfRises(f: Facts, g: Facts)
    requires Below(f, g) && f != g
    ensures RankOf(f) < RankOf(g)
  {
    var k := FactsDiffer(f, g);
    RankFromRises(f, g, 1);
  }

  // ----- the queue -----

  /** The part of the list still to be visited is free of duplicates and is `inList`. */
  ghost predicate Queued(list: seq<Word>, idx: nat, inList: set<Word>) {
    idx <= |list| && multiset(list[idx..]) == multiset(inList)
  }

  /** An address is listed at most once more than its facts have risen. */
  ghost predicate Counted(facts: map<Word, Facts>, list: seq<Word>) {
    forall p | p in list :: p in facts && multiset(list)[p] <= 1 + RankOf(facts[p])
  }

  lemma Enqueue(list: seq<Word>, idx: nat, inList: set<Word>, q: Word)
    requires Queued(list, idx, inList) && q !in inList
    ensures Queued(list + [q], idx, inList + {q})
  {
    assert (list + [q])[idx..] == list[idx..] + [q];
    assert multiset(inList + {q}) == multiset(inList) + multiset{q};
  }

  lemma Dequeue(list: seq<Word>, idx: nat, inList: set<Word>)
    requires Queued(list, idx, inList) && idx < |list|
    ensures list[idx] in inList && Queued(list, idx + 1, inList - {list[idx]})
  {
    var pc := list[idx];
    assert list[idx..] == [pc] + list[idx + 1..];
    assert pc in multiset(list[idx..]);
    assert multiset(inList) == multiset(inList - {pc}) + multiset{pc};
    assert multiset(list[idx..]) == multiset(list[idx + 1..]) + multiset{pc};
    forall w: Word
      ensures multiset(list[idx + 1..])[w] == multiset(inList - {pc})[w]
    {
      assert multiset(list[idx..])[w] == multiset(inList)[w];
    }
  }

  /** What the facts of target become. */
  ghost function Raised(facts: map<Word, Facts>, target: Word, out: Facts): Facts {
    if target in facts then JoinFacts(facts[target], out) else out
  }

  ghost predicate Rises(facts: map<Word, Facts>, target: Word, out: Facts) {
    target !in facts || Raised(facts, target, out) != facts[target]
  }

  lemma CountRise(facts: map<Word, Facts>, list: seq<Word>, target: Word, out: Facts)
    requires Counted(facts, list) && Rises(facts, target, out)
    ensures Counted(facts[target := Raised(facts, target, out)], list + [target])
  {
    var facts' := facts[target := Raised(facts, target, out)];
    if target in facts {
      BelowJoin(facts[target], out);
      RankOfRises(facts[target], facts'[target]);
    }
    forall p | p in list + [target]
      ensures p in facts' && multiset(list + [target])[p] <= 1 + RankOf(facts'[p])
    {
      assert multiset(list + [target])[p] == multiset(list)[p] + (if p == target then 1 else 0);
      assert p in list || multiset(list)[p] == 0;
    }
  }

  lemma CountKept(facts: map<Word, Facts>, list: seq<Word>, target: Word, out: Facts)
    requires Counted(facts, list)
    ensures Counted(facts[target := Raised(facts, target, out)], list)
  {
    if target in facts {
      BelowJoin(facts[target], out);
      RankFromRises(facts[target], Raised(facts, target, out), 1);
    }
  }

  ghost predicate ListedAtMost(list: seq<Word>, keys: set<Word>, bound: nat) {
    forall p | p in list :: p in keys && multiset(list)[p] <= bound
  }

  /** Few listings per address make a short list. */
  lemma {:induction false} ListLength(list: seq<Word>, keys: set<Word>, bound: nat)
    requires ListedAtMost(list, keys, bound)
    ensures |list| <= bound * |keys|
    decreases |keys|
  {
    if keys == {} {
      if list != [] {
        FirstListed(list);
      }
    } else {
      var k :| k in keys;
      DropKey(list, keys, bound, k);
      ListLength(Without(list, k), keys - {k}, bound);
      Distribute(bound, |keys|, |keys - {k}|);
    }
  }

  lemma FirstListed(list: seq<Word>)
    requires list != []
    ensures list[0] in list
  {
  }

  lemma Distribute(bound: nat, n: nat, m: nat)
    requires n == m + 1
    ensures bound * n == bound * m + bound
  {
  }

  lemma DropKey(list: seq<Word>, keys: set<Word>, bound: nat, k: Word)
    requires ListedAtMost(list, keys, bound) && k in keys
    ensures ListedAtMost(Without(list, k), keys - {k}, bound) && |list| <= |Without(list, k)| + bound
  {
    assert k in list || multiset(list)[k] == 0;
  }

  ghost function Without(list: seq<Word>, k: Word): (r: seq<Word>)
    ensures |list| == |r| + multiset(list)[k]
    ensures forall p | p != k :: multiset(r)[p] == multiset(list)[p]
    ensures k !in r && forall p | p in r :: p in list
  {
    if list == [] then []
    else
      assert list == [list[0]] + list[1..];
      if list[0] == k then Without(list[1..], k) else [list[0]] + Without(list[1..], k)
  }

  // ----- spreading facts to successors -----

  /** `done` targets have received `out`. */
  ghost predicate Spreads(facts: map<Word, Facts>, out: Facts, done: set<Word>, facts': map<Word, Facts>) {
    && facts'.Keys == facts.Keys + done
    && forall q | q in facts' :: facts'[q] == if q in done then Raised(facts, q, out) else facts[q]
  }

  /** Whatever rose is listed. */
  ghost predicate RisenListed(facts: map<Word, Facts>, facts': map<Word, Facts>, inList: set<Word>) {
    forall q | q in facts' && q !in inList :: q in facts && facts'[q] == facts[q]
  }

  lemma SpreadMore(facts: map<Word, Facts>, out: Facts, done: set<Word>, mid: map<Word, Facts>, target: Word)
    requires Spreads(facts, out, done, mid) && target !in done
    ensures Spreads(facts, out, done + {target}, mid[target := Raised(mid, target, out)])
    ensures Rises(mid, target, out) <==> Rises(facts, target, out)
  {
  }

  lemma SpreadRises(facts: map<Word, Facts>, out: Facts, done: set<Word>, facts': map<Word, Facts>, q: Word)
    requires Spreads(facts, out, done, facts') && q in facts
    ensures q in facts' && Below(facts[q], facts'[q])
  {
    BelowJoin(facts[q], out);
    assert Below(facts[q], facts[q]);
  }

  /** An address whose facts did not change stays settled when others rise. */
  lemma StaysSettled(t: Setup, facts: map<Word, Facts>, succs: map<Word, set<Word>>, out: Facts, done: set<Word>,
                     facts': map<Word, Facts>, succs': map<Word, set<Word>>, p: Word)
    requires WellEncoded(t) && Settled(t, facts, succs, p) && Spreads(facts, out, done, facts')
    requires p in facts && p in facts' && facts'[p] == facts[p]
    requires p in succs ==> p in succs' && succs[p] <= succs'[p]
    ensures Settled(t, facts', succs', p)
  {
    if p in t.slots {
      var s := t.slots[p];
      var o := TransferFacts(t, p, s.size, s.decoded, facts[p]);
      forall q | q in SuccessorsOf(t, p, s.size, s.decoded, facts[p])
        ensures q in succs'[p] && q in facts' && Below(o, facts'[q])
      {
        SpreadRises(facts, out, done, facts', q);
        BelowTransitive(o, facts[q], facts'[q]);
      }
    }
  }

  /** The visited address is settled, unless its own facts rose. */
  lemma VisitedSettled(t: Setup, facts: map<Word, Facts>, pc: Word, facts': map<Word, Facts>, succs': map<Word, set<Word>>)
    requires WellEncoded(t) && pc in facts && pc in t.slots
    requires var s := t.slots[pc];
             && Spreads(facts, TransferFacts(t, pc, s.size, s.decoded, facts[pc]),
                        SuccessorsOf(t, pc, s.size, s.decoded, facts[pc]), facts')
             && pc in succs' && SuccessorsOf(t, pc, s.size, s.decoded, facts[pc]) <= succs'[pc]
    requires pc in facts' && facts'[pc] == facts[pc]
    ensures Settled(t, facts', succs', pc)
  {
    var s := t.slots[pc];
    var out := TransferFacts(t, pc, s.size, s.decoded, facts[pc]);
    forall q | q in SuccessorsOf(t, pc, s.size, s.decoded, facts[pc])
      ensures q in facts' && Below(out, facts'[q])
    {
      if q in facts {
        BelowJoin(facts[q], out);
      } else {
        assert Below(out, out);
      }
    }
  }

  // ----- states in place -----

  type Owners = map<array<RegisterValue>, Word>

  /** Each address has a state of its own that holds its facts. */
  ghost predicate Represents(states: map<Word, RegisterState>, owner: Owners, facts: map<Word, Facts>)
    reads owner.Keys
  {
    && states.Keys == facts.Keys
    && forall p | p in states ::
         && states[p].regs in owner && owner[states[p].regs] == p
         && states[p].Valid() && states[p].Known() == facts[p]
  }

  /** Bring the facts of a visited address to one successor. */
  method Visit(states: map<Word, RegisterState>, ghost owner: Owners, ghost facts: map<Word, Facts>,
               list: seq<Word>, inList: set<Word>, target: Word, out: RegisterState)
    returns (states': map<Word, RegisterState>, ghost owner': Owners, ghost facts': map<Word, Facts>,
             list': seq<Word>, inList': set<Word>)
    requires Represents(states, owner, facts) && out.Valid() && out.regs !in owner
    modifies owner.Keys
    ensures out.Valid() && out.Known() == old(out.Known()) && out.regs !in owner'
    ensures Represents(states', owner', facts')
    ensures forall a | a in owner' :: a in owner || fresh(a)
    ensures facts' == facts[target := Raised(facts, target, old(out.Known()))]
    ensures var grows := Rises(facts, target, old(out.Known())) && target !in inList;
            && list' == (if grows then list + [target] else list)
            && inList' == (if grows then inList + {target} else inList)
  {
    states', owner', list', inList' := states, owner, list, inList;
    facts' := facts[target := Raised(facts, target, out.Known())];
    if target in states {
      var changed := states[target].Merge(out);
      if changed && target !in inList {
        list', inList' := list + [target], inList + {target};
      }
    } else {
      var copy := new RegisterState.Clone(out);
      states' := states[target := copy];
      owner' := owner[copy.regs := target];
      if target !in inList {
        list', inList' := list + [target], inList + {target};
      }
    }
  }

  /** The queue after one more successor. */
  lemma VisitQueue(facts: map<Word, Facts>, mid: map<Word, Facts>, list: seq<Word>, idx: nat, inList: set<Word>,
                   target: Word, out: Facts, list': seq<Word>, inList': set<Word>)
    requires Queued(list, idx, inList) && Counted(mid, list) && RisenListed(facts, mid, inList)
    requires var grows := Rises(mid, target, out) && target !in inList;
             && list' == (if grows then list + [target] else list)
             && inList' == (if grows then inList + {target} else inList)
    ensures var facts' := mid[target := Raised(mid, target, out)];
            Queued(list', idx, inList') && Counted(facts', list') && RisenListed(facts, facts', inList')
  {
    if Rises(mid, target, out) && target !in inList {
      Enqueue(list, idx, inList, target);
      CountRise(mid, list, target, out);
    } else {
      CountKept(mid, list, target, out);
    }
  }

  /** A round under way: `done` targets have received `out`, and what rose is queued. */
  ghost predicate Spreading(facts: map<Word, Facts>, out: Facts, done: set<Word>, facts': map<Word, Facts>,
                            idx: nat, list': seq<Word>, inList: set<Word>, inList': set<Word>)
  {
    && Spreads(facts, out, done, facts')
    && Queued(list', idx, inList') && Counted(facts', list') && inList <= inList'
    && RisenListed(facts, facts', inList')
  }

  lemma SpreadStep(facts: map<Word, Facts>, out: Facts, targets: set<Word>, rest: set<Word>, mid: map<Word, Facts>, idx: nat,
                   list: seq<Word>, first: set<Word>, inList: set<Word>, target: Word,
                   facts': map<Word, Facts>, list': seq<Word>, inList': set<Word>)
    requires rest <= targets && target in rest && Spreading(facts, out, targets - rest, mid, idx, list, first, inList)
    requires facts' == mid[target := Raised(mid, target, out)]
    requires var grows := Rises(mid, target, out) && target !in inList;
             && list' == (if grows then list + [target] else list)
             && inList' == (if grows then inList + {target} else inList)
    ensures Spreading(facts, out, targets - (rest - {target}), facts', idx, list', first, inList')
  {
    var done := targets - rest;
    VisitQueue(facts, mid, list, idx, inList, target, out, list', inList');
    SpreadMore(facts, out, done, mid, target);
    assert done + {target} == targets - (rest - {target});
  }

  /** One more target of a round. */
  method VisitNext(states: map<Word, RegisterState>, ghost owner: Owners, ghost facts: map<Word, Facts>,
                   ghost known: Facts, ghost mid: map<Word, Facts>, ghost targets: set<Word>, ghost rest: set<Word>,
                   list: seq<Word>, ghost idx: nat, ghost first: set<Word>, inList: set<Word>, target: Word,
                   out: RegisterState)
    returns (states': map<Word, RegisterState>, ghost owner': Owners, ghost facts': map<Word, Facts>,
             list': seq<Word>, inList': set<Word>)
    requires Represents(states, owner, mid) && out.Valid() && out.Known() == known && out.regs !in owner
    requires rest <= targets && target in rest
    requires Spreading(facts, known, targets - rest, mid, idx, list, first, inList)
    modifies owner.Keys
    ensures out.Valid() && out.Known() == known && out.regs !in owner'
    ensures Represents(states', owner', facts')
    ensures forall a | a in owner' :: a in owner || fresh(a)
    ensures Spreading(facts, known, targets - (rest - {target}), facts', idx, list', first, inList')
  {
    states', owner', facts', list', inList' := Visit(states, owner, mid, list, inList, target, out);
    SpreadStep(facts, known, targets, rest, mid, idx, list, first, inList, target, facts', list', inList');
  }

  /** Bring the facts of a visited address to all its successors, in an arbitrary order. */
  method Spread(states: map<Word, RegisterState>, ghost owner: Owners, ghost facts: map<Word, Facts>,
                list: seq<Word>, ghost idx: nat, inList: set<Word>, targets: set<Word>, out: RegisterState)
    returns (states': map<Word, RegisterState>, ghost owner': Owners, ghost facts': map<Word, Facts>,
             list': seq<Word>, inList': set<Word>)
    requires Represents(states, owner, facts) && out.Valid() && out.regs !in owner
    requires Queued(list, idx, inList) && Counted(facts, list)
    modifies owner.Keys
    ensures Represents(states', owner', facts')
    ensures forall a | a in owner' :: a in owner || fresh(a)
    ensures Spreading(facts, old(out.Known()), targets - {}, facts', idx, list', inList, inList')
  {
    states', owner', facts', list', inList' := states, owner, facts, list, inList;
    var rest := targets;
    ghost var known := out.Known();
    SpreadNothing(facts, known, idx, list, inList, targets);
    while rest != {}
      invariant rest <= targets
      invariant Represents(states', owner', facts') && out.Valid() && out.Known() == known && out.regs !in owner'
      invariant forall a | a in owner' :: a in owner || fresh(a)
      invariant Spreading(facts, known, targets - rest, facts', idx, list', inList, inList')
    {
      var target :| target in rest;
      states', owner', facts', list', inList' :=
        VisitNext(states', owner', facts, known, facts', targets, rest, list', idx, inList, inList', target, out);
      rest := rest - {target};
    }
  }

  lemma SpreadNothing(facts: map<Word, Facts>, out: Facts, idx: nat, list: seq<Word>, inList: set<Word>, targets: set<Word>)
    requires Queued(list, idx, inList) && Counted(facts, list)
    ensures Spreading(facts, out, targets - targets, facts, idx, list, inList, inList)
  {
  }

  // ----- a round -----

  /** What holds between rounds: everything not waiting is settled. */
  ghost predicate Consistent(t: Setup, facts: map<Word, Facts>, succs: map<Word, set<Word>>,
                             list: seq<Word>, idx: nat, inList: set<Word>)
    requires WellEncoded(t)
  {
    && Queued(list, idx, inList) && Counted(facts, list) && Seeded(t, facts)
    && (forall p | p in facts && p !in inList :: Settled(t, facts, succs, p))
    && (forall p | p in succs :: Explained(t, p, succs[p]))
  }

  function Extended(succs: map<Word, set<Word>>, pc: Word, more: set<Word>): map<Word, set<Word>> {
    succs[pc := (if pc in succs then succs[pc] else {}) + more]
  }

  lemma SeedsRise(t: Setup, facts: map<Word, Facts>, out: Facts, done: set<Word>, facts': map<Word, Facts>)
    requires Seeded(t, facts) && Spreads(facts, out, done, facts')
    ensures Seeded(t, facts')
  {
    forall pc | pc in t.functionEntries + t.internalTargets
      ensures pc in facts' && Below(NothingKnown(), facts'[pc])
    {
      SpreadRises(facts, out, done, facts', pc);
      BelowTransitive(NothingKnown(), facts[pc], facts'[pc]);
    }
  }

  lemma StillExplained(t: Setup, succs: map<Word, set<Word>>, pc: Word, f: Facts)
    requires pc in t.slots && forall p | p in succs :: Explained(t, p, succs[p])
    ensures var succs' := Extended(succs, pc, SuccessorsOf(t, pc, t.slots[pc].size, t.slots[pc].decoded, f));
            forall p | p in succs' :: Explained(t, p, succs'[p])
  {
    var succs' := Extended(succs, pc, SuccessorsOf(t, pc, t.slots[pc].size, t.slots[pc].decoded, f));
    forall p | p in succs'
      ensures Explained(t, p, succs'[p])
    {
      if p == pc && pc in succs {
        assert Explained(t, pc, succs[pc]);
      }
    }
  }

  /** Visiting the next address in the list keeps everything else settled. */
  lemma RoundKeeps(t: Setup, facts: map<Word, Facts>, succs: map<Word, set<Word>>, list: seq<Word>, idx: nat,
                   inList: set<Word>, pc: Word, out: Facts, targets: set<Word>,
                   facts': map<Word, Facts>, list': seq<Word>, inList': set<Word>)
    requires WellEncoded(t) && Consistent(t, facts, succs, list, idx, inList)
    requires pc in facts && pc in t.slots
    requires out == TransferFacts(t, pc, t.slots[pc].size, t.slots[pc].decoded, facts[pc])
    requires targets == SuccessorsOf(t, pc, t.slots[pc].size, t.slots[pc].decoded, facts[pc])
    requires Spreading(facts, out, targets - {}, facts', idx + 1, list', inList - {pc}, inList')
    ensures Consistent(t, facts', Extended(succs, pc, targets), list', idx + 1, inList')
  {
    assert targets - {} == targets;
    var succs' := Extended(succs, pc, targets);
    StillExplained(t, succs, pc, facts[pc]);
    SeedsRise(t, facts, out, targets, facts');
    forall p | p in facts' && p !in inList'
      ensures Settled(t, facts', succs', p)
    {
      if p == pc {
        VisitedSettled(t, facts, pc, facts', succs');
      } else {
        StaysSettled(t, facts, succs, out, targets, facts', succs', p);
      }
    }
  }

  /** An address without an instruction has nothing to settle. */
  lemma SkipKeeps(t: Setup, facts: map<Word, Facts>, succs: map<Word, set<Word>>, list: seq<Word>, idx: nat, inList: set<Word>)
    requires WellEncoded(t) && Consistent(t, facts, succs, list, idx, inList)
    requires idx < |list| && list[idx] !in t.slots
    ensures Consistent(t, facts, succs, list, idx + 1, inList - {list[idx]})
  {
    Dequeue(list, idx, inList);
  }

  /** No targets are known for the indirect jump at p. */
  ghost predicate Stuck(t: Setup, facts: map<Word, Facts>, p: Word) {
    p in t.slots && p in facts && Unresolvable(t, p, t.slots[p].size, t.slots[p].decoded, facts[p])
  }

  /** Only such jumps are marked, and all of them that are not waiting. */
  ghost predicate Marked(t: Setup, facts: map<Word, Facts>, inList: set<Word>, unresolved: set<Word>) {
    && (forall p | p in unresolved :: Stuck(t, facts, p))
    && (forall p | Stuck(t, facts, p) && p !in inList :: p in unresolved)
  }

  lemma StaysStuck(t: Setup, facts: map<Word, Facts>, out: Facts, done: set<Word>, facts': map<Word, Facts>, p: Word)
    requires WellEncoded(t) && Spreads(facts, out, done, facts') && Stuck(t, facts, p)
    ensures Stuck(t, facts', p)
  {
    SpreadRises(facts, out, done, facts', p);
    assert Leq(RefFact(facts[p], t.slots[p].decoded.rs1.value), RefFact(facts'[p], t.slots[p].decoded.rs1.value));
  }

  /** Facts only rise, so a marked jump stays one no targets are known for. */
  lemma MarksKept(t: Setup, facts: map<Word, Facts>, out: Facts, targets: set<Word>, facts': map<Word, Facts>, pc: Word,
                  inList: set<Word>, inList': set<Word>, unresolved: set<Word>, unresolved': set<Word>)
    requires WellEncoded(t) && Marked(t, facts, inList, unresolved) && Spreads(facts, out, targets - {}, facts')
    requires RisenListed(facts, facts', inList') && inList - {pc} <= inList'
    requires unresolved' == if Stuck(t, facts, pc) then unresolved + {pc} else unresolved
    ensures Marked(t, facts', inList', unresolved')
  {
    forall p | p in unresolved'
      ensures Stuck(t, facts', p)
    {
      StaysStuck(t, facts, out, targets - {}, facts', p);
    }
    forall p | Stuck(t, facts', p) && p !in inList'
      ensures p in unresolved'
    {
      assert Stuck(t, facts, p);
    }
  }

  // ----- where facts can arise -----

  ghost function Union(m: map<Word, set<Word>>): set<Word> {
    set k, w | k in m && w in m[k] :: w
  }

  /** Every address the analyser can ever reach. */
  ghost function Universe(t: Setup): set<Word> {
    t.functionEntries + t.internalTargets + t.returnSites + Union(t.callReturns) + Union(t.funcTargets)
    + t.slots.Keys + (set pc | pc in t.slots :: After(pc, t.slots[pc].size))
  }

  lemma {:induction false} ScanWithin(t: Setup, pc: nat, budget: nat)
    ensures ScanTargets(t, pc, budget) <= t.slots.Keys
    decreases budget
  {
    if pc < t.end && budget > 0 && pc in t.slots {
      ScanWithin(t, pc + t.slots[pc].size, budget - 1);
    }
  }

  lemma SuccessorsWithin(t: Setup, pc: Word, f: Facts)
    requires pc in t.slots
    ensures SuccessorsOf(t, pc, t.slots[pc].size, t.slots[pc].decoded, f) <= Universe(t)
  {
    var s := t.slots[pc];
    AfterWithin(t, pc);
    if s.decoded.kind.Jalr? && !Resolved(s.decoded, f) {
      GuessWithin(t, pc);
    }
  }

  lemma AfterWithin(t: Setup, pc: Word)
    requires pc in t.slots
    ensures After(pc, t.slots[pc].size) in Universe(t) && t.slots.Keys <= Universe(t)
  {
  }

  lemma GuessWithin(t: Setup, pc: Word)
    requires pc in t.slots
    ensures GuessTargets(t, pc, t.slots[pc].size, t.slots[pc].decoded) <= Universe(t)
  {
    AfterWithin(t, pc);
    ReturnWithin(t, pc);
    SwitchWithin(t, pc, t.slots[pc].size);
  }

  lemma ReturnWithin(t: Setup, pc: Word)
    ensures ReturnTargets(t, pc) <= Universe(t)
  {
  }

  lemma SwitchWithin(t: Setup, pc: Word, size: nat)
    ensures SwitchTargets(t, pc, size) <= Universe(t)
  {
    ScanWithin(t, pc + size, MAX_JUMP_TABLE_SCAN);
  }

  /** No list is longer than 1 + 31 * 16 listings per address. */
  lemma ListBound(t: Setup, facts: map<Word, Facts>, list: seq<Word>)
    requires Counted(facts, list) && facts.Keys <= Universe(t)
    ensures |list| <= 497 * |Universe(t)|
  {
    forall p | p in list
      ensures p in Universe(t) && multiset(list)[p] <= 497
    {
      assert p in facts.Keys;
    }
    ListLength(list, Universe(t), 497);
  }

  // ----- the loop -----

  /** Nothing is known at the given addresses. */
  ghost function SeedFacts(addrs: set<Word>): map<Word, Facts> {
    map p | p in addrs :: NothingKnown()
  }

  /** Start at one more address. */
  method SeedNext(addr: Word, states: map<Word, RegisterState>, ghost owner: Owners, list: seq<Word>, inList: set<Word>)
    returns (states': map<Word, RegisterState>, ghost owner': Owners, list': seq<Word>, inList': set<Word>)
    requires Represents(states, owner, SeedFacts(inList)) && Queued(list, 0, inList)
    ensures Represents(states', owner', SeedFacts(inList')) && Queued(list', 0, inList')
    ensures forall a | a in owner' :: a in owner || fresh(a)
    ensures inList' == inList + {addr} && list <= list'
  {
    states', owner', list', inList' := states, owner, list, inList;
    if addr !in inList {
      var state := new RegisterState();
      Enqueue(list, 0, inList, addr);
      states', owner' := states[addr := state], owner[state.regs := addr];
      list', inList' := list + [addr], inList + {addr};
    }
  }

  /** Start from more addresses, in an arbitrary order behind those listed, knowing nothing. */
  method Seed(addrs: set<Word>, states: map<Word, RegisterState>, ghost owner: Owners, list: seq<Word>, inList: set<Word>)
    returns (states': map<Word, RegisterState>, ghost owner': Owners, list': seq<Word>, inList': set<Word>)
    requires Represents(states, owner, SeedFacts(inList)) && Queued(list, 0, inList)
    ensures Represents(states', owner', SeedFacts(inList')) && Queued(list', 0, inList')
    ensures forall a | a in owner' :: a in owner || fresh(a)
    ensures inList' == inList + addrs && list <= list'
  {
    states', owner', list', inList' := states, owner, list, inList;
    var rest := addrs;
    while rest != {}
      invariant Represents(states', owner', SeedFacts(inList')) && Queued(list', 0, inList')
      invariant forall a | a in owner' :: a in owner || fresh(a)
      invariant inList' + rest == inList + addrs && list <= list'
    {
      var addr :| addr in rest;
      MoveOver(inList', rest, addr);
      states', owner', list', inList' := SeedNext(addr, states', owner', list', inList');
      rest := rest - {addr};
    }
  }

  lemma MoveOver(s: set<Word>, rest: set<Word>, x: Word)
    requires x in rest
    ensures s + {x} + (rest - {x}) == s + rest
  {
  }

  lemma SeedsConsistent(t: Setup, list: seq<Word>, inList: set<Word>)
    requires WellEncoded(t) && Queued(list, 0, inList) && inList == t.functionEntries + t.internalTargets
    ensures Consistent(t, SeedFacts(inList), map[], list, 0, inList) && SeedFacts(inList).Keys <= Universe(t)
  {
    assert list[0..] == list;
    forall p | p in list
      ensures p in inList && multiset(list)[p] <= 1
    {
      assert p in multiset(list) && p in inList;
    }
    assert Below(NothingKnown(), NothingKnown());
  }

  /** Successors and outgoing state of an address. */
  method Prepare(t: Setup, pc: Word, ghost facts: map<Word, Facts>, from: RegisterState, unresolved: set<Word>)
    returns (targets: set<Word>, unresolved': set<Word>, out: RegisterState)
    requires WellEncoded(t) && Ascending(t.sortedEntries) && pc in t.slots
    requires pc in facts && from.Valid() && from.Known() == facts[pc]
    ensures targets == SuccessorsOf(t, pc, t.slots[pc].size, t.slots[pc].decoded, facts[pc])
    ensures unresolved' == if Stuck(t, facts, pc) then unresolved + {pc} else unresolved
    ensures fresh(out.regs) && out.Valid()
    ensures out.Known() == TransferFacts(t, pc, t.slots[pc].size, t.slots[pc].decoded, facts[pc])
  {
    out := new RegisterState.Clone(from);
    var stuck;
    targets, stuck := GetSuccessors(t, pc, t.slots[pc].size, t.slots[pc].decoded, out);
    unresolved' := if stuck then unresolved + {pc} else unresolved;
    Transfer(t, pc, t.slots[pc].size, t.slots[pc].decoded, out);
  }

  /** A round keeps everything consistent and within the universe. */
  lemma RoundDone(t: Setup, facts: map<Word, Facts>, succs: map<Word, set<Word>>, list: seq<Word>, idx: nat,
                  inList: set<Word>, pc: Word, out: Facts, targets: set<Word>,
                  facts': map<Word, Facts>, succs': map<Word, set<Word>>, list': seq<Word>, inList': set<Word>,
                  unresolved: set<Word>, unresolved': set<Word>)
    requires WellEncoded(t) && Consistent(t, facts, succs, list, idx, inList) && facts.Keys <= Universe(t)
    requires Marked(t, facts, inList, unresolved)
    requires unresolved' == if Stuck(t, facts, pc) then unresolved + {pc} else unresolved
    requires pc in facts && pc in t.slots && succs' == Extended(succs, pc, targets)
    requires out == TransferFacts(t, pc, t.slots[pc].size, t.slots[pc].decoded, facts[pc])
    requires targets == SuccessorsOf(t, pc, t.slots[pc].size, t.slots[pc].decoded, facts[pc])
    requires Spreading(facts, out, targets - {}, facts', idx + 1, list', inList - {pc}, inList')
    ensures Consistent(t, facts', succs', list', idx + 1, inList') && facts'.Keys <= Universe(t)
    ensures Marked(t, facts', inList', unresolved')
  {
    MarksKept(t, facts, out, targets, facts', pc, inList, inList', unresolved, unresolved');
    RoundKeeps(t, facts, succs, list, idx, inList, pc, out, targets, facts', list', inList');
    SuccessorsWithin(t, pc, facts[pc]);
  }

  /** Visit one address that has an instruction: successors, transfer, spread. */
  method Round(t: Setup, pc: Word, states: map<Word, RegisterState>, ghost owner: Owners, ghost facts: map<Word, Facts>,
               succs: map<Word, set<Word>>, list: seq<Word>, ghost idx: nat, inList: set<Word>, unresolved: set<Word>)
    returns (states': map<Word, RegisterState>, ghost owner': Owners, ghost facts': map<Word, Facts>,
             succs': map<Word, set<Word>>, list': seq<Word>, inList': set<Word>, unresolved': set<Word>)
    requires WellEncoded(t) && Ascending(t.sortedEntries)
    requires Represents(states, owner, facts) && facts.Keys <= Universe(t)
    requires Consistent(t, facts, succs, list, idx, inList) && Marked(t, facts, inList, unresolved)
    requires idx < |list| && pc == list[idx] && pc in t.slots && pc in states
    modifies owner.Keys
    ensures Represents(states', owner', facts') && facts'.Keys <= Universe(t)
    ensures forall a | a in owner' :: a in owner || fresh(a)
    ensures Consistent(t, facts', succs', list', idx + 1, inList') && Marked(t, facts', inList', unresolved')
  {
    Dequeue(list, idx, inList);
    var targets, out;
    targets, unresolved', out := Prepare(t, pc, facts, states[pc], unresolved);
    ghost var known := out.Known();
    states', owner', facts', list', inList' := Spread(states, owner, facts, list, idx + 1, inList - {pc}, targets, out);
    succs' := Extended(succs, pc, targets);
    RoundDone(t, facts, succs, list, idx, inList, pc, known, targets, facts', succs', list', inList', unresolved, unresolved');
  }

  const MAX_ITERATIONS_MULTIPLIER: nat := 20

  /** The cap on visits, saturated at the greatest machine word. */
  function MaxIterations(span: nat, usizeMax: nat): nat {
    var units := if span <= usizeMax then span else usizeMax / MAX_ITERATIONS_MULTIPLIER;
    if units * MAX_ITERATIONS_MULTIPLIER <= usizeMax then units * MAX_ITERATIONS_MULTIPLIER else usizeMax
  }

  /** The invariant of the worklist loop before entry idx of the list. */
  ghost predicate Underway(t: Setup, facts: map<Word, Facts>, succs: map<Word, set<Word>>, list: seq<Word>, idx: nat,
                           inList: set<Word>, unresolved: set<Word>)
    requires WellEncoded(t)
  {
    && facts.Keys <= Universe(t) && idx <= |list| <= 497 * |Universe(t)|
    && Consistent(t, facts, succs, list, idx, inList) && Marked(t, facts, inList, unresolved)
  }

  method Start(t: Setup)
    returns (states: map<Word, RegisterState>, ghost owner: Owners, ghost facts: map<Word, Facts>,
             list: seq<Word>, inList: set<Word>)
    requires WellEncoded(t)
    ensures Represents(states, owner, facts) && (forall a | a in owner :: fresh(a))
    ensures Underway(t, facts, map[], list, 0, inList, {})
  {
    states, owner, list, inList := Seed(t.functionEntries, map[], map[], [], {});
    states, owner, list, inList := Seed(t.internalTargets, states, owner, list, inList);
    facts := SeedFacts(inList);
    SeedsUnderway(t, list, inList);
  }

  lemma SeedsUnderway(t: Setup, list: seq<Word>, inList: set<Word>)
    requires WellEncoded(t) && Queued(list, 0, inList) && inList == t.functionEntries + t.internalTargets
    ensures Underway(t, SeedFacts(inList), map[], list, 0, inList, {})
  {
    SeedsConsistent(t, list, inList);
    ListBound(t, SeedFacts(inList), list);
    assert Marked(t, SeedFacts(inList), inList, {}) by {
      assert SeedFacts(inList).Keys == inList;
    }
  }

  lemma SkipUnderway(t: Setup, facts: map<Word, Facts>, succs: map<Word, set<Word>>, list: seq<Word>, idx: nat,
                     inList: set<Word>, unresolved: set<Word>)
    requires WellEncoded(t) && Underway(t, facts, succs, list, idx, inList, unresolved)
    requires idx < |list| && list[idx] !in t.slots
    ensures Underway(t, facts, succs, list, idx + 1, inList - {list[idx]}, unresolved)
  {
    SkipKeeps(t, facts, succs, list, idx, inList);
  }

  /** Take the next address off the list. */
  method Next(t: Setup, states: map<Word, RegisterState>, ghost owner: Owners, ghost facts: map<Word, Facts>,
              succs: map<Word, set<Word>>, list: seq<Word>, idx: nat, inList: set<Word>, unresolved: set<Word>)
    returns (states': map<Word, RegisterState>, ghost owner': Owners, ghost facts': map<Word, Facts>,
             succs': map<Word, set<Word>>, list': seq<Word>, inList': set<Word>, unresolved': set<Word>)
    requires WellEncoded(t) && Ascending(t.sortedEntries)
    requires Represents(states, owner, facts)
    requires Underway(t, facts, succs, list, idx, inList, unresolved) && idx < |list|
    modifies owner.Keys
    ensures Represents(states', owner', facts')
    ensures forall a | a in owner' :: a in owner || fresh(a)
    ensures Underway(t, facts', succs', list', idx + 1, inList', unresolved')
  {
    var pc := list[idx];
    assert pc in list;
    if pc !in t.slots {
      SkipUnderway(t, facts, succs, list, idx, inList, unresolved);
      return states, owner, facts, succs, list, inList - {pc}, unresolved;
    }
    states', owner', facts', succs', list', inList', unresolved' :=
      Round(t, pc, states, owner, facts, succs, list, idx, inList, unresolved);
    ListBound(t, facts', list');
  }

  /** No address is listed more than 1 + 31 * 16 times. */
  ghost predicate SeldomListed(list: seq<Word>) {
    forall p | p in list :: multiset(list)[p] <= 1 + 31 * 16
  }

  lemma CountedSeldom(facts: map<Word, Facts>, list: seq<Word>)
    requires Counted(facts, list)
    ensures SeldomListed(list)
  {
  }

  /** The analysis of a table of `span` bytes: `listed` are the addresses in the order of
      their visits. Whether it ends by exhausting the list or at the cap, no address is
      visited more than 1 + 31 * 16 times; exhausted, it has reached a fixpoint. */
  method RunWorklist(t: Setup, span: nat, usizeMax: nat)
    returns (succs: map<Word, set<Word>>, unresolved: set<Word>, visits: nat, exhausted: bool,
             ghost facts: map<Word, Facts>, ghost listed: seq<Word>)
    requires WellEncoded(t) && Ascending(t.sortedEntries)
    ensures exhausted ==> PostFixpoint(t, facts, succs)
    ensures visits <= |listed| <= 497 * |Universe(t)| && SeldomListed(listed)
    ensures visits <= MaxIterations(span, usizeMax) + 1
    ensures MaxIterations(span, usizeMax) >= 497 * |Universe(t)| ==> exhausted
    ensures forall p | p in unresolved :: Stuck(t, facts, p)
    ensures exhausted ==> forall p | Stuck(t, facts, p) :: p in unresolved
  {
    var states, list, inList;
    ghost var owner;
    states, owner, facts, list, inList := Start(t);
    succs, unresolved, visits := map[], {}, 0;
    var maxIterations := MaxIterations(span, usizeMax);
    ghost var bound := 497 * |Universe(t)|;
    while visits < |list|
      invariant Represents(states, owner, facts) && (forall a | a in owner :: fresh(a))
      invariant Underway(t, facts, succs, list, visits, inList, unresolved)
      invariant |list| <= bound && visits <= maxIterations + 1
      decreases bound - visits
    {
      if visits > maxIterations {
        Stopped(t, facts, succs, list, visits, inList, unresolved);
        return succs, unresolved, visits, false, facts, list;
      }
      states, owner, facts, succs, list, inList, unresolved :=
        Next(t, states, owner, facts, succs, list, visits, inList, unresolved);
      visits := visits + 1;
    }
    Finished(t, facts, succs, list, inList, unresolved);
    Stopped(t, facts, succs, list, visits, inList, unresolved);
    exhausted, listed := true, list;
  }

  lemma Stopped(t: Setup, facts: map<Word, Facts>, succs: map<Word, set<Word>>, list: seq<Word>, idx: nat, inList: set<Word>,
                unresolved: set<Word>)
    requires WellEncoded(t) && Underway(t, facts, succs, list, idx, inList, unresolved)
    ensures idx <= |list| <= 497 * |Universe(t)| && SeldomListed(list) && forall p | p in unresolved :: Stuck(t, facts, p)
  {
    CountedSeldom(facts, list);
  }

  lemma Finished(t: Setup, facts: map<Word, Facts>, succs: map<Word, set<Word>>, list: seq<Word>, inList: set<Word>,
                 unresolved: set<Word>)
    requires WellEncoded(t) && Underway(t, facts, succs, list, |list|, inList, unresolved)
    ensures PostFixpoint(t, facts, succs)
    ensures forall p | Stuck(t, facts, p) :: p in unresolved
  {
    Exhausted(t, facts, succs, list, inList);
  }

  /** With nothing waiting, everything is settled. */
  lemma Exhausted(t: Setup, facts: map<Word, Facts>, succs: map<Word, set<Word>>, list: seq<Word>, inList: set<Word>)
    requires WellEncoded(t) && Consistent(t, facts, succs, list, |list|, inList)
    ensures PostFixpoint(t, facts, succs) && inList == {}
  {
    assert list[|list|..] == [];
    forall p
      ensures p !in inList
    {
      assert multiset(inList)[p] == 0;
    }
  }
}
