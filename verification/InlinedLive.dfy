/**
  Block functions with inlined taken paths keep every recorded run exactly when they do
  without and every inlined branch that recorded runs reach leads right.
 */
module InlinedLive {
  import opened Code
  import opened Text
  import opened Trace
  import opened Layout
  import opened Exact
  import opened Inlined

  /** Every recorded run from a block function stays the same with inlining. */
  ghost predicate SameInlinedRuns(code: Code, succs: Edges, em: Emitted, inlines: Inlines) {
    && ValidEmission(em)
    && forall m: Machine<int>, b, n: nat | b in em.blocks && RunRecorded(code, succs, m, Running(b, 0), n)
         && RunLands(code, em, m, Running(b, 0), n) :: SameInlinedRun(code, em, inlines, m, b, 0, n)
  }

  // ----- probing one block function -----

  lemma MainStep(code: Code, succs: Edges, em: Emitted, inlines: Inlines, b: Pc, k: nat, take: bool, q: Pc, i: nat)
    requires PlainFalls(code) && CodeEmission(code, em) && ValidEmission(em) && b in em.blocks
    requires LiveTo(code, succs, em.blocks[b], k) && i < k
    ensures InlineStep(em, inlines, Probe(em.blocks[b], k, take, q), Main(b, i, i)) == Main(b, i + 1, i + 1)
  {
    ProbeStep(code, succs, em, b, k, take, q, i);
  }

  /** From instruction i, the probe gets to instruction k with inlining, too. */
  ghost predicate MainRuns(em: Emitted, inlines: Inlines, b: Pc, k: nat, take: bool, q: Pc, i: nat)
    requires ValidEmission(em) && b in em.blocks && i <= k < |em.blocks[b]|
  {
    var m := Probe(em.blocks[b], k, take, q);
    ExecuteInlined(em, inlines, m, Main(b, i, i), k - i + 1).1 == InlineStep(em, inlines, m, Main(b, k, k))
  }

  lemma {:induction false} MainRun(code: Code, succs: Edges, em: Emitted, inlines: Inlines, b: Pc, k: nat, take: bool, q: Pc, i: nat)
    requires PlainFalls(code) && CodeEmission(code, em) && ValidEmission(em) && b in em.blocks
    requires LiveTo(code, succs, em.blocks[b], k) && i <= k
    ensures MainRuns(em, inlines, b, k, take, q, i)
    decreases k - i
  {
    if i < k {
      MainStep(code, succs, em, inlines, b, k, take, q, i);
      MainRun(code, succs, em, inlines, b, k, take, q, i + 1);
      MainBack(em, inlines, b, k, take, q, i);
    } else {
      var m := Probe(em.blocks[b], k, take, q);
      var d := InlineStep(em, inlines, m, Main(b, k, k));
      assert ExecuteInlined(em, inlines, m, d, 0).1 == d;
    }
  }

  lemma MainBack(em: Emitted, inlines: Inlines, b: Pc, k: nat, take: bool, q: Pc, i: nat)
    requires ValidEmission(em) && b in em.blocks && i < k < |em.blocks[b]| && MainRuns(em, inlines, b, k, take, q, i + 1)
    requires InlineStep(em, inlines, Probe(em.blocks[b], k, take, q), Main(b, i, i)) == Main(b, i + 1, i + 1)
    ensures MainRuns(em, inlines, b, k, take, q, i)
  {
  }

  lemma InlinedSlot(code: Code, succs: Edges, em: Emitted, inlines: Inlines, b: Pc)
    requires CodeEmission(code, em) && SameInlinedRuns(code, succs, em, inlines) && b in em.blocks
    ensures Dispatched(em, b) == Some(Block(b))
  {
    var m := Probe([], 0, false, 0);
    assert RunRecorded(code, succs, m, Running(b, 0), 0) && RunLands(code, em, m, Running(b, 0), 0);
    assert SameInlinedRun(code, em, inlines, m, b, 0, 0);
    var d := Dispatch(em, b, 0);
    assert d.At? && CodeBody(code, d.block, em.blocks[d.block]);
  }

  /** If runs stay the same, both sides agree on what follows instruction k. */
  lemma MainAgrees(code: Code, succs: Edges, em: Emitted, inlines: Inlines, b: Pc, k: nat, take: bool, q: Pc)
    requires PlainFalls(code) && CodeEmission(code, em) && SameInlinedRuns(code, succs, em, inlines) && b in em.blocks
    requires LiveTo(code, succs, em.blocks[b], k)
    requires var m := Probe(em.blocks[b], k, take, q);
             StepOnEdge(code, succs, m, Running(em.blocks[b][k].pc, k)) && LandsAt(code, em, m, Running(em.blocks[b][k].pc, k))
    ensures var m := Probe(em.blocks[b], k, take, q);
            Matches(em, Step(code, m, Running(em.blocks[b][k].pc, k)), Erase(InlineStep(em, inlines, m, Main(b, k, k))))
  {
    assert CodeBody(code, b, em.blocks[b]);
    ProbeRun(code, succs, em, b, k, take, q, 0);
    MainRun(code, succs, em, inlines, b, k, take, q, 0);
    InlinedSlot(code, succs, em, inlines, b);
    SameFromEntry(code, succs, em, inlines, Probe(em.blocks[b], k, take, q), b, k + 1);
  }

  /** The last instruction of b is a branch with its target inlined. */
  ghost predicate InlinesLast(em: Emitted, inlines: Inlines, b: Pc)
    requires ValidEmission(em) && b in em.blocks
  {
    LastInsn(em, b).term.Branch? && LastInsn(em, b).pc in inlines
  }

  /** Elsewhere a step with inlining is a step without, so both sides agree without it. */
  lemma PlainAgrees(code: Code, succs: Edges, em: Emitted, inlines: Inlines, b: Pc, k: nat)
    requires PlainFalls(code) && CodeEmission(code, em) && SameInlinedRuns(code, succs, em, inlines) && b in em.blocks
    requires LiveTo(code, succs, em.blocks[b], k) && (k == |em.blocks[b]| - 1 ==> !InlinesLast(em, inlines, b))
    ensures AgreesAt(code, succs, em, b, k)
  {
    forall take, q
      ensures ProbeAgreed(code, succs, em, b, k, take, q)
    {
      var m, c := Probe(em.blocks[b], k, take, q), Running(em.blocks[b][k].pc, k);
      if StepOnEdge(code, succs, m, c) && LandsAt(code, em, m, c) {
        MainAgrees(code, succs, em, inlines, b, k, take, q);
        assert InlineStep(em, inlines, m, Main(b, k, k)) == Enter(BlockStep(em, m, At(b, k, k)));
      }
    }
  }

  // ----- the inlined branch -----

  /** Where a call of `after` matches what the code does, it leads there. */
  lemma MatchLeads(code: Code, succs: Edges, em: Emitted, p: Pc, q: Pc, after: Pc, s: int, c: Config<int>)
    requires ValidEmission(em) && CodeEmission(code, em) && Matches(em, c, Call(em, after, s))
    requires c == if q in code then Running(q, s) else Halted(s)
    ensures LeadsTo(code, succs, em, p, q, after)
  {
    var d := Call(em, after, s);
    if d.At? {
      assert CodeBody(code, d.block, em.blocks[d.block]);
    }
  }

  /** Both ways out of the branch at the end of b. */
  lemma BranchAgrees(code: Code, succs: Edges, em: Emitted, inlines: Inlines, b: Pc, take: bool)
    requires PlainFalls(code) && CodeEmission(code, em) && SameInlinedRuns(code, succs, em, inlines) && b in em.blocks
    requires LiveTo(code, succs, em.blocks[b], |em.blocks[b]| - 1) && InlinesLast(em, inlines, b)
    requires var last := LastInsn(em, b);
             var q := if take then last.term.taken else FallOf(last);
             q in code ==> q in Lookup(succs, last.pc)
    ensures var last, k := LastInsn(em, b), |em.blocks[b]| - 1;
            var m, q := Probe(em.blocks[b], k, take, 0), if take then last.term.taken else FallOf(last);
            Matches(em, if q in code then Running(q, k + 1) else Halted(k + 1), Erase(InlineStep(em, inlines, m, Main(b, k, k))))
  {
    var k := |em.blocks[b]| - 1;
    LastIsCode(code, em, b);
    MainAgrees(code, succs, em, inlines, b, k, take, 0);
  }

  /** Recorded exits of the branch lead to block functions. */
  lemma BranchRight(code: Code, succs: Edges, em: Emitted, inlines: Inlines, b: Pc)
    requires PlainFalls(code) && CodeEmission(code, em) && SameInlinedRuns(code, succs, em, inlines) && b in em.blocks
    requires LiveTo(code, succs, em.blocks[b], |em.blocks[b]| - 1) && InlinesLast(em, inlines, b)
    ensures LastInsn(em, b).pc in code && RightAt(code, succs, em, b, |em.blocks[b]| - 1)
  {
    var body, k := em.blocks[b], |em.blocks[b]| - 1;
    LastIsCode(code, em, b);
    forall q | q in code && q in Lookup(succs, body[k].pc) && Leaves(code, body, k, q)
      ensures q in em.blocks
    {
      var take := BranchesTo(code, body[k].pc, q);
      BranchAgrees(code, succs, em, inlines, b, take);
      var d := Erase(InlineStep(em, inlines, Probe(body, k, take, 0), Main(b, k, k)));
      assert CodeBody(code, d.block, em.blocks[d.block]);
    }
  }

  /** The taken branch gets to its target. */
  lemma TakenRight(code: Code, succs: Edges, em: Emitted, inlines: Inlines, b: Pc, t: Pc)
    requires PlainFalls(code) && CodeEmission(code, em) && SameInlinedRuns(code, succs, em, inlines)
    requires InlinesAt(em, inlines, b, t) && LiveTo(code, succs, em.blocks[b], |em.blocks[b]| - 1)
    ensures var p, taken := LastInsn(em, b).pc, LastInsn(em, b).term.taken;
            if t in em.blocks then taken in code && (taken in Lookup(succs, p) ==> t == taken)
            else LeadsTo(code, succs, em, p, taken, AfterBranch(em, b))
  {
    var last, k := LastInsn(em, b), |em.blocks[b]| - 1;
    var m, taken := Probe(em.blocks[b], k, true, 0), LastInsn(em, b).term.taken;
    if taken in code ==> taken in Lookup(succs, last.pc) {
      BranchAgrees(code, succs, em, inlines, b, true);
      var c := if taken in code then Running(taken, k + 1) else Halted(k + 1);
      if t in em.blocks {
        assert InlineStep(em, inlines, m, Main(b, k, k)) == Inside(b, t, 0, k + 1);
        assert CodeBody(code, t, em.blocks[t]);
      } else {
        MatchLeads(code, succs, em, last.pc, taken, AfterBranch(em, b), k + 1, c);
      }
    }
  }

  // ----- out of the inlined body -----

  /** A machine that counts steps, runs through a, takes the branch at its end and runs
      through z. */
  ghost function Turn(a: seq<IrInsn>, z: seq<IrInsn>): Machine<int> {
    Machine((p: Pc, s: int) => s + 1, (p: Pc, s: int) => s == |a| - 1,
            (p: Pc, s: int) => if 0 <= s + 1 < |a| + |z| then (a + z)[s + 1].pc else 0)
  }

  /** Where the two sides are after s steps. */
  ghost function TurnCode(a: seq<IrInsn>, z: seq<IrInsn>, s: nat): Config<int>
    requires s < |a| + |z|
  {
    Running((a + z)[s].pc, s)
  }

  ghost function TurnInlined(a: seq<IrInsn>, b: Pc, t: Pc, s: nat): InlineConfig<int> {
    if s < |a| then Main(b, s, s) else Inside(b, t, s - |a|, s)
  }

  /** The branch at the end of b, with t inlined, is recorded, and both bodies are live. */
  ghost predicate Turns(code: Code, succs: Edges, em: Emitted, inlines: Inlines, b: Pc, t: Pc) {
    && PlainFalls(code) && CodeEmission(code, em) && ValidEmission(em) && InlinesAt(em, inlines, b, t) && t in em.blocks
    && t == LastInsn(em, b).term.taken && t in code && t in Lookup(succs, LastInsn(em, b).pc)
    && LiveTo(code, succs, em.blocks[b], |em.blocks[b]| - 1) && LiveTo(code, succs, em.blocks[t], |em.blocks[t]| - 1)
  }

  /** Running on inside a body. */
  lemma PassStep(code: Code, succs: Edges, em: Emitted, m: Machine<int>, p: Pc, q: Pc, s: int)
    requires PlainFalls(code) && Passes(code, succs, p, q) && !m.takes(p, s) && m.dynamic(p, s) == q && m.effect(p, s) == s + 1
    ensures Step(code, m, Running(p, s)) == Running(q, s + 1)
    ensures StepOnEdge(code, succs, m, Running(p, s)) && LandsAt(code, em, m, Running(p, s))
  {
    assert PlainFall(code, p);
  }

  /** What one step of the turn does, on both sides. */
  ghost predicate TurnsOn(code: Code, succs: Edges, em: Emitted, inlines: Inlines, b: Pc, t: Pc, s: nat)
    requires ValidEmission(em) && b in em.blocks && t in em.blocks && s + 1 < |em.blocks[b]| + |em.blocks[t]|
  {
    var a, z := em.blocks[b], em.blocks[t];
    var m, c, d := Turn(a, z), TurnCode(a, z, s), TurnInlined(a, b, t, s);
    && Step(code, m, c) == TurnCode(a, z, s + 1)
    && StepOnEdge(code, succs, m, c) && LandsAt(code, em, m, c)
    && ValidInline(em, inlines, d) && InlineStep(em, inlines, m, d) == TurnInlined(a, b, t, s + 1)
  }

  lemma TurnStep(code: Code, succs: Edges, em: Emitted, inlines: Inlines, b: Pc, t: Pc, s: nat)
    requires Turns(code, succs, em, inlines, b, t) && s + 1 < |em.blocks[b]| + |em.blocks[t]|
    ensures TurnsOn(code, succs, em, inlines, b, t, s)
  {
    var a, z := em.blocks[b], em.blocks[t];
    var m := Turn(a, z);
    assert CodeBody(code, b, a) && CodeBody(code, t, z);
    if s == |a| - 1 {
      LastIsCode(code, em, b);
    } else if s < |a| {
      assert Passes(code, succs, a[s].pc, a[s + 1].pc);
      PassStep(code, succs, em, m, a[s].pc, a[s + 1].pc, s);
      assert CodeInsn(code, a[s]);
    } else {
      var i := s - |a|;
      assert Passes(code, succs, z[i].pc, z[i + 1].pc);
      PassStep(code, succs, em, m, z[i].pc, z[i + 1].pc, s);
      assert CodeInsn(code, z[i]);
    }
  }

  /** The turn from step s on comes to its last step, on the edges and landing all along. */
  ghost predicate TurnsFrom(code: Code, succs: Edges, em: Emitted, inlines: Inlines, b: Pc, t: Pc, s: nat)
    requires ValidEmission(em) && b in em.blocks && t in em.blocks && s < |em.blocks[b]| + |em.blocks[t]|
  {
    var a, z := em.blocks[b], em.blocks[t];
    var m, c, d, n := Turn(a, z), TurnCode(a, z, s), TurnInlined(a, b, t, s), |a| + |z| - s;
    && RunRecorded(code, succs, m, c, n) && RunLands(code, em, m, c, n)
    && Execute(code, m, c, n).1 == Step(code, m, TurnCode(a, z, |a| + |z| - 1))
    && ValidInline(em, inlines, d) && ValidInline(em, inlines, TurnInlined(a, b, t, |a| + |z| - 1))
    && ExecuteInlined(em, inlines, m, d, n).1 == InlineStep(em, inlines, m, TurnInlined(a, b, t, |a| + |z| - 1))
  }

  lemma TurnsBack(code: Code, succs: Edges, em: Emitted, inlines: Inlines, b: Pc, t: Pc, s: nat)
    requires ValidEmission(em) && b in em.blocks && t in em.blocks && s + 1 < |em.blocks[b]| + |em.blocks[t]|
    requires TurnsOn(code, succs, em, inlines, b, t, s) && TurnsFrom(code, succs, em, inlines, b, t, s + 1)
    ensures TurnsFrom(code, succs, em, inlines, b, t, s)
  {
  }

  lemma TurnsLast(code: Code, succs: Edges, em: Emitted, inlines: Inlines, b: Pc, t: Pc)
    requires Turns(code, succs, em, inlines, b, t)
    requires var a, z := em.blocks[b], em.blocks[t];
             var m, c := Turn(a, z), TurnCode(a, z, |a| + |z| - 1);
             StepOnEdge(code, succs, m, c) && LandsAt(code, em, m, c)
    ensures TurnsFrom(code, succs, em, inlines, b, t, |em.blocks[b]| + |em.blocks[t]| - 1)
  {
    var a, z := em.blocks[b], em.blocks[t];
    var m, s := Turn(a, z), |a| + |z| - 1;
    var c, d := Step(code, m, TurnCode(a, z, s)), InlineStep(em, inlines, m, TurnInlined(a, b, t, s));
    assert RunRecorded(code, succs, m, c, 0) && RunLands(code, em, m, c, 0);
    assert Execute(code, m, c, 0).1 == c && ExecuteInlined(em, inlines, m, d, 0).1 == d;
  }

  lemma {:induction false} TurnRun(code: Code, succs: Edges, em: Emitted, inlines: Inlines, b: Pc, t: Pc, s: nat)
    requires Turns(code, succs, em, inlines, b, t) && s < |em.blocks[b]| + |em.blocks[t]|
    requires TurnsFrom(code, succs, em, inlines, b, t, |em.blocks[b]| + |em.blocks[t]| - 1)
    ensures TurnsFrom(code, succs, em, inlines, b, t, s)
    decreases |em.blocks[b]| + |em.blocks[t]| - s
  {
    if s + 1 < |em.blocks[b]| + |em.blocks[t]| {
      TurnStep(code, succs, em, inlines, b, t, s);
      TurnRun(code, succs, em, inlines, b, t, s + 1);
      TurnsBack(code, succs, em, inlines, b, t, s);
    }
  }

  /** If runs stay the same, both sides agree on what follows the turn. */
  lemma TurnAgrees(code: Code, succs: Edges, em: Emitted, inlines: Inlines, b: Pc, t: Pc)
    requires Turns(code, succs, em, inlines, b, t) && SameInlinedRuns(code, succs, em, inlines)
    requires TurnsFrom(code, succs, em, inlines, b, t, 0)
    ensures var a, z := em.blocks[b], em.blocks[t];
            var m, s := Turn(a, z), |a| + |z| - 1;
            Matches(em, Step(code, m, TurnCode(a, z, s)), Erase(InlineStep(em, inlines, m, TurnInlined(a, b, t, s))))
  {
    var a, z := em.blocks[b], em.blocks[t];
    assert CodeBody(code, b, a) && (a + z)[0] == a[0];
    InlinedSlot(code, succs, em, inlines, b);
    SameFromEntry(code, succs, em, inlines, Turn(a, z), b, |a| + |z|);
  }

  /** Recorded runs that stay the same do so from the first instruction of b. */
  lemma SameFromEntry(code: Code, succs: Edges, em: Emitted, inlines: Inlines, m: Machine<int>, b: Pc, n: nat)
    requires SameInlinedRuns(code, succs, em, inlines) && b in em.blocks && Dispatched(em, b) == Some(Block(b))
    requires RunRecorded(code, succs, m, Running(b, 0), n) && RunLands(code, em, m, Running(b, 0), n)
    ensures SameInlinedFrom(code, em, inlines, m, Running(b, 0), Main(b, 0, 0), n)
  {
    assert SameInlinedRun(code, em, inlines, m, b, 0, n);
    assert Enter(Dispatch(em, b, 0)) == Main(b, 0, 0);
  }

  /** The last step of the turn falls through in the code, and out of t with inlining. */
  lemma TurnEnds(code: Code, succs: Edges, em: Emitted, inlines: Inlines, b: Pc, t: Pc)
    requires Turns(code, succs, em, inlines, b, t) && LastInsn(em, t).term.Branch?
    ensures var a, z, q := em.blocks[b], em.blocks[t], FallOf(LastInsn(em, t));
            var m, s := Turn(a, z), |a| + |z| - 1;
            && (a + z)[s] == LastInsn(em, t)
            && Step(code, m, TurnCode(a, z, s)) == (if q in code then Running(q, s + 1) else Halted(s + 1))
            && LandsAt(code, em, m, TurnCode(a, z, s))
            && InlineStep(em, inlines, m, TurnInlined(a, b, t, s)) == Enter(Call(em, AfterBranch(em, b), s + 1))
  {
    LastIsCode(code, em, t);
  }

  /** Falling out of the inlined body leads where the code falls through to. */
  lemma OutRight(code: Code, succs: Edges, em: Emitted, inlines: Inlines, b: Pc, t: Pc)
    requires Turns(code, succs, em, inlines, b, t) && SameInlinedRuns(code, succs, em, inlines)
    requires LastInsn(em, t).term.Branch?
    ensures LeadsTo(code, succs, em, LastInsn(em, t).pc, FallOf(LastInsn(em, t)), AfterBranch(em, b))
  {
    var q, s := FallOf(LastInsn(em, t)), |em.blocks[b]| + |em.blocks[t]| - 1;
    TurnEnds(code, succs, em, inlines, b, t);
    if q in code ==> q in Lookup(succs, LastInsn(em, t).pc) {
      TurnsLast(code, succs, em, inlines, b, t);
      TurnRun(code, succs, em, inlines, b, t, 0);
      TurnAgrees(code, succs, em, inlines, b, t);
      MatchLeads(code, succs, em, LastInsn(em, t).pc, q, AfterBranch(em, b), s + 1,
                 if q in code then Running(q, s + 1) else Halted(s + 1));
    }
  }

  lemma SameIsRight(code: Code, succs: Edges, em: Emitted, inlines: Inlines, b: Pc, t: Pc)
    requires PlainFalls(code) && CodeEmission(code, em) && SameInlinedRuns(code, succs, em, inlines)
    requires InlinesAt(em, inlines, b, t) && LiveTo(code, succs, em.blocks[b], |em.blocks[b]| - 1)
    ensures InlineRight(code, succs, em, b, t)
  {
    TakenRight(code, succs, em, inlines, b, t);
    if t in em.blocks && t in Lookup(succs, LastInsn(em, b).pc) && t == LastInsn(em, b).term.taken
       && LastInsn(em, t).term.Branch? && LiveTo(code, succs, em.blocks[t], |em.blocks[t]| - 1) {
      OutRight(code, succs, em, inlines, b, t);
    }
  }

  // ----- exactly -----

  lemma SameInlinedLive(code: Code, succs: Edges, em: Emitted, inlines: Inlines)
    requires PlainFalls(code) && CodeEmission(code, em) && SameInlinedRuns(code, succs, em, inlines)
    ensures LiveEmission(code, succs, em) && Slotted(em) && LiveInlines(code, succs, em, inlines)
  {
    forall b, i: nat | b in em.blocks && LiveTo(code, succs, em.blocks[b], i)
      ensures em.blocks[b][i].pc in code && RightAt(code, succs, em, b, i)
    {
      if i == |em.blocks[b]| - 1 && InlinesLast(em, inlines, b) {
        BranchRight(code, succs, em, inlines, b);
      } else {
        PlainAgrees(code, succs, em, inlines, b, i);
        AgreedIsRight(code, succs, em, b, i);
      }
    }
    forall b | b in em.blocks
      ensures Dispatched(em, b) == Some(Block(b))
    {
      InlinedSlot(code, succs, em, inlines, b);
    }
    forall b, t | InlinesAt(em, inlines, b, t) && LiveTo(code, succs, em.blocks[b], |em.blocks[b]| - 1)
      ensures InlineRight(code, succs, em, b, t)
    {
      SameIsRight(code, succs, em, inlines, b, t);
    }
  }

  /** With inlined taken paths, every recorded run is kept exactly when what those runs reach
      is right, inlined branches included, and every block function has its slot. */
  lemma SameInlinedRunsExact(code: Code, succs: Edges, em: Emitted, inlines: Inlines)
    requires PlainFalls(code) && CodeEmission(code, em)
    ensures SameInlinedRuns(code, succs, em, inlines) <==>
            LiveEmission(code, succs, em) && Slotted(em) && LiveInlines(code, succs, em, inlines)
  {
    if SameInlinedRuns(code, succs, em, inlines) {
      SameInlinedLive(code, succs, em, inlines);
    }
    if LiveEmission(code, succs, em) && Slotted(em) && LiveInlines(code, succs, em, inlines) {
      forall m: Machine<int>, b, n: nat | b in em.blocks && RunRecorded(code, succs, m, Running(b, 0), n)
                                          && RunLands(code, em, m, Running(b, 0), n)
        ensures SameInlinedRun(code, em, inlines, m, b, 0, n)
      {
        LiveInlinedRun(code, succs, em, inlines, m, b, 0, n);
      }
    }
  }

  // ----- layouts -----

  /** The run of n steps from `entry` executes the same instructions through the block
      functions with inlined taken paths, and ends at the same one with the same state. */
  ghost predicate KeepsInlinedRun<S>(code: Code, orig: Blocks, l: Layout, inlines: Inlines, m: Machine<S>, entry: Pc, s: S, n: nat) {
    && Sized(code) && Chained(orig, l) && entry in l.chains
    && SameInlinedRun(code, Emission(code, orig, l), inlines, m, entry, s, n)
  }

  /** Redirections lead to block functions and every recorded run from one is kept. */
  ghost predicate KeepsInlinedRuns(code: Code, succs: Edges, orig: Blocks, l: Layout, inlines: Inlines) {
    && l.absorbed.Values <= l.chains.Keys
    && forall m: Machine<int>, b, n: nat | b in l.chains && RunRecorded(code, succs, m, Running(b, 0), n)
         && LandsIn(code, orig, l, m, b, 0, n) :: KeepsInlinedRun(code, orig, l, inlines, m, b, 0, n)
  }

  /** Every inlined branch of the lifted chains that recorded runs reach leads right. */
  ghost predicate LiveBranches(code: Code, succs: Edges, orig: Blocks, l: Layout, inlines: Inlines) {
    Sized(code) && Chained(orig, l) && LiveInlines(code, succs, Emission(code, orig, l), inlines)
  }

  lemma KeptIsSameInlined(code: Code, succs: Edges, orig: Blocks, l: Layout, inlines: Inlines)
    requires Sized(code) && Chained(orig, l) && KeepsInlinedRuns(code, succs, orig, l, inlines)
    requires CodeEmission(code, Emission(code, orig, l))
    ensures SameInlinedRuns(code, succs, Emission(code, orig, l), inlines)
  {
    var em := Emission(code, orig, l);
    EmissionIsValid(code, orig, l);
    forall m: Machine<int>, b, n: nat | b in em.blocks && RunRecorded(code, succs, m, Running(b, 0), n)
                                        && RunLands(code, em, m, Running(b, 0), n)
      ensures SameInlinedRun(code, em, inlines, m, b, 0, n)
    {
      assert LandsIn(code, orig, l, m, b, 0, n);
      assert KeepsInlinedRun(code, orig, l, inlines, m, b, 0, n);
    }
  }

  lemma SameIsKeptInlined(code: Code, succs: Edges, orig: Blocks, l: Layout, inlines: Inlines)
    requires Sized(code) && Chained(orig, l) && SameInlinedRuns(code, succs, Emission(code, orig, l), inlines)
    ensures KeepsInlinedRuns(code, succs, orig, l, inlines)
  {
    var em := Emission(code, orig, l);
    forall m: Machine<int>, b, n: nat | b in l.chains && RunRecorded(code, succs, m, Running(b, 0), n)
                                        && LandsIn(code, orig, l, m, b, 0, n)
      ensures KeepsInlinedRun(code, orig, l, inlines, m, b, 0, n)
    {
      assert SameInlinedRun(code, em, inlines, m, b, 0, n);
    }
    ValidRedirects(code, orig, l);
  }

  /** With inlined taken paths, a layout keeps every recorded run exactly when what those runs
      reach is right, inlined branches included, and every block function has its slot. */
  lemma InlinedRunsExact(code: Code, succs: Edges, orig: Blocks, l: Layout, inlines: Inlines)
    requires WellFormed(code) && GoodBlocks(code, orig) && Headed(code, orig, l)
    ensures KeepsInlinedRuns(code, succs, orig, l, inlines) <==>
            LiveLayout(code, succs, orig, l) && HasSlots(code, orig, l) && LiveBranches(code, succs, orig, l, inlines)
  {
    EmissionIsCode(code, orig, l);
    SameInlinedRunsExact(code, succs, Emission(code, orig, l), inlines);
    if KeepsInlinedRuns(code, succs, orig, l, inlines) {
      KeptIsSameInlined(code, succs, orig, l, inlines);
    }
    if SameInlinedRuns(code, succs, Emission(code, orig, l), inlines) {
      SameIsKeptInlined(code, succs, orig, l, inlines);
    }
  }

  /** A run from a block function of such a layout. */
  lemma LiveLayoutInlined<S(!new)>(code: Code, succs: Edges, orig: Blocks, l: Layout, inlines: Inlines, m: Machine<S>,
                                   e: Pc, s: S, n: nat)
    requires PlainFalls(code) && LiveLayout(code, succs, orig, l) && HasSlots(code, orig, l)
    requires LiveBranches(code, succs, orig, l, inlines)
    requires e in l.chains && RunRecorded(code, succs, m, Running(e, s), n)
    ensures KeepsInlinedRun(code, orig, l, inlines, m, e, s, n) <==> LandsIn(code, orig, l, m, e, s, n)
  {
    LiveInlinedRun(code, succs, Emission(code, orig, l), inlines, m, e, s, n);
  }
}
