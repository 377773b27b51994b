/**
  Taken branches with their target inlined: the block function that ends in such a
  branch runs the body of the target in place instead of calling it.
 */
module Inlined {
  import opened Code
  import opened Text
  import opened Trace
  import opened Layout

  /** `Inside(b, t, i, s)`: in block function b, about to run instruction i of the inlined t. */
  datatype InlineConfig<S> =
    | Main(block: Pc, index: nat, state: S)
    | Inside(from: Pc, target: Pc, index: nat, state: S)
    | Ended(state: S)
    | Lost(state: S)

  type Inlines = map<Pc, Range>

  function Enter<S>(c: BlockConfig<S>): InlineConfig<S> {
    match c
    case At(b, i, s) => Main(b, i, s)
    case Stopped(s) => Ended(s)
    case Astray(s) => Lost(s)
  }

  /** The configuration of the block functions without inlining. */
  function Erase<S>(c: InlineConfig<S>): BlockConfig<S> {
    match c
    case Main(b, i, s) => At(b, i, s)
    case Inside(_, t, i, s) => At(t, i, s)
    case Ended(s) => Stopped(s)
    case Lost(s) => Astray(s)
  }

  function LastInsn(em: Emitted, b: Pc): IrInsn
    requires ValidEmission(em) && b in em.blocks
  {
    em.blocks[b][|em.blocks[b]| - 1]
  }

  /** Block function b ends in a branch with its target t inlined. */
  ghost predicate InlinesAt(em: Emitted, inlines: Inlines, b: Pc, t: Pc)
    requires ValidEmission(em)
  {
    && b in em.blocks && LastInsn(em, b).term.Branch?
    && LastInsn(em, b).pc in inlines && inlines[LastInsn(em, b).pc].0 == t
  }

  ghost predicate ValidInline<S>(em: Emitted, inlines: Inlines, c: InlineConfig<S>)
    requires ValidEmission(em)
  {
    ValidConfig(em, Erase(c)) && (c.Inside? ==> InlinesAt(em, inlines, c.from, c.target))
  }

  function AfterBranch(em: Emitted, b: Pc): Pc
    requires ValidEmission(em) && b in em.blocks
  {
    LastInsn(em, b).pc + LastInsn(em, b).size
  }

  /** Only the last instruction of a block function has its target inlined. A target that
      is no block function leaves the branch empty, and a branch at the end of an inlined
      body falls out of it: both go on after the branch. */
  ghost function InlineStep<S>(em: Emitted, inlines: Inlines, m: Machine<S>, c: InlineConfig<S>): (d: InlineConfig<S>)
    requires ValidEmission(em) && ValidInline(em, inlines, c)
    ensures ValidInline(em, inlines, d)
  {
    match c
    case Ended(_) => c
    case Lost(_) => c
    case Main(b, i, s) =>
      var ir := em.blocks[b][i];
      if i == |em.blocks[b]| - 1 && ir.term.Branch? && ir.pc in inlines then
        var t, s' := inlines[ir.pc].0, m.effect(ir.pc, s);
        if m.takes(ir.pc, s) && t in em.blocks then Inside(b, t, 0, s') else Enter(Call(em, AfterBranch(em, b), s'))
      else Enter(BlockStep(em, m, At(b, i, s)))
    case Inside(b, t, i, s) =>
      var ir := em.blocks[t][i];
      if RunsOn(em, m, At(t, i, s)) then Inside(b, t, i + 1, m.effect(ir.pc, s))
      else if ir.term.Branch? && !m.takes(ir.pc, s) then Enter(Call(em, AfterBranch(em, b), m.effect(ir.pc, s)))
      else Enter(BlockStep(em, m, At(t, i, s)))
  }

  ghost function ExecuteInlined<S>(em: Emitted, inlines: Inlines, m: Machine<S>, c: InlineConfig<S>, n: nat): (seq<Pc>, InlineConfig<S>)
    requires ValidEmission(em) && ValidInline(em, inlines, c)
    decreases n
  {
    if n == 0 || c.Ended? || c.Lost? then ([], c) else
    var (t, d) := ExecuteInlined(em, inlines, m, InlineStep(em, inlines, m, c), n - 1);
    ([em.blocks[Erase(c).block][Erase(c).index].pc] + t, d)
  }

  // ----- when inlining changes nothing -----

  /** The block function a call of q runs, if any. */
  function Goal(em: Emitted, q: Pc): Option<Pc> {
    if q in em.blocks || q in em.absorbed then Some(Resolve(em, q)) else None
  }

  function FallOf(ir: IrInsn): Pc
    requires ir.term.Branch?
  {
    if ir.term.fall.Some? then ir.term.fall.value else ir.pc + ir.size
  }

  /** Not taken, the branch at the end of b goes where its fall-through leads. */
  ghost predicate FallServed(em: Emitted, inlines: Inlines, b: Pc)
    requires ValidEmission(em) && b in em.blocks
  {
    forall t | InlinesAt(em, inlines, b, t) :: Goal(em, FallOf(LastInsn(em, b))) == Goal(em, AfterBranch(em, b))
  }

  /** Taken, it runs what a call of its target would: the inlined block function, which
      does not end in a branch with another fall-through. */
  ghost predicate TakenServed(em: Emitted, inlines: Inlines, b: Pc)
    requires ValidEmission(em) && b in em.blocks
  {
    forall t | InlinesAt(em, inlines, b, t) ::
      var taken := Goal(em, LastInsn(em, b).term.taken);
      if t in em.blocks then
        taken == Some(t) && (LastInsn(em, t).term.Branch? ==> Goal(em, FallOf(LastInsn(em, t))) == Goal(em, AfterBranch(em, b)))
      else taken == Goal(em, AfterBranch(em, b))
  }

  ghost predicate Served(em: Emitted, inlines: Inlines) {
    ValidEmission(em) && forall b | b in em.blocks :: FallServed(em, inlines, b) && TakenServed(em, inlines, b)
  }

  lemma SameCall<S>(em: Emitted, p: Pc, q: Pc, s: S)
    requires ValidEmission(em)
    ensures Goal(em, p) == Goal(em, q) <==> Call(em, p, s) == Call(em, q, s)
  {
  }

  /** Where the branch decisions of c are served, a step with inlining is a step without. */
  lemma StepErases<S>(em: Emitted, inlines: Inlines, m: Machine<S>, c: InlineConfig<S>)
    requires ValidEmission(em) && ValidInline(em, inlines, c)
    requires c.Main? ==> FallServed(em, inlines, c.block)
    requires c.Main? && m.takes(em.blocks[c.block][c.index].pc, c.state) ==> TakenServed(em, inlines, c.block)
    requires c.Inside? ==> TakenServed(em, inlines, c.from)
    ensures Erase(InlineStep(em, inlines, m, c)) == BlockStep(em, m, Erase(c))
  {
    if c.Main? {
      var ir := em.blocks[c.block][c.index];
      if c.index == |em.blocks[c.block]| - 1 && ir.term.Branch? && ir.pc in inlines {
        assert InlinesAt(em, inlines, c.block, inlines[ir.pc].0);
      }
    } else if c.Inside? {
      assert InlinesAt(em, inlines, c.from, c.target);
    }
  }

  lemma {:induction false} InlinedSame<S>(em: Emitted, inlines: Inlines, m: Machine<S>, c: InlineConfig<S>, n: nat)
    requires Served(em, inlines) && ValidInline(em, inlines, c)
    ensures ExecuteInlined(em, inlines, m, c, n).0 == ExecuteBlocks(em, m, Erase(c), n).0
    ensures Erase(ExecuteInlined(em, inlines, m, c, n).1) == ExecuteBlocks(em, m, Erase(c), n).1
    decreases n
  {
    if n > 0 && !c.Ended? && !c.Lost? {
      StepErases(em, inlines, m, c);
      InlinedSame(em, inlines, m, InlineStep(em, inlines, m, c), n - 1);
    }
  }

  /** Runs from every place, with every machine, stay the same. */
  ghost predicate SameInlined(em: Emitted, inlines: Inlines)
    requires ValidEmission(em)
  {
    forall m: Machine<int>, c: InlineConfig<int>, n: nat | ValidInline(em, inlines, c) ::
      && ExecuteInlined(em, inlines, m, c, n).0 == ExecuteBlocks(em, m, Erase(c), n).0
      && Erase(ExecuteInlined(em, inlines, m, c, n).1) == ExecuteBlocks(em, m, Erase(c), n).1
  }

  /** A machine that takes all branches, or none. */
  ghost function Taking(take: bool): Machine<int> {
    Machine((p: Pc, s: int) => s, (p: Pc, s: int) => take, (p: Pc, s: int) => 0)
  }

  lemma OneStep(em: Emitted, inlines: Inlines, m: Machine<int>, c: InlineConfig<int>)
    requires ValidEmission(em) && SameInlined(em, inlines) && ValidInline(em, inlines, c) && Erase(c).At?
    ensures Erase(InlineStep(em, inlines, m, c)) == BlockStep(em, m, Erase(c))
  {
    var d, e := InlineStep(em, inlines, m, c), BlockStep(em, m, Erase(c));
    assert ExecuteInlined(em, inlines, m, d, 0).1 == d && ExecuteBlocks(em, m, e, 0).1 == e;
    assert ExecuteInlined(em, inlines, m, c, 1).1 == d && ExecuteBlocks(em, m, Erase(c), 1).1 == e;
  }

  lemma NeedsServed(em: Emitted, inlines: Inlines, b: Pc, t: Pc)
    requires ValidEmission(em) && SameInlined(em, inlines) && InlinesAt(em, inlines, b, t)
    ensures FallServed(em, inlines, b) && TakenServed(em, inlines, b)
  {
    var last, after := LastInsn(em, b), AfterBranch(em, b);
    var c := Main(b, |em.blocks[b]| - 1, 0);
    OneStep(em, inlines, Taking(false), c);
    SameCall(em, FallOf(last), after, 0);
    OneStep(em, inlines, Taking(true), c);
    if t in em.blocks {
      assert Call(em, last.term.taken, 0) == At(t, 0, 0);
      if LastInsn(em, t).term.Branch? {
        OneStep(em, inlines, Taking(false), Inside(b, t, |em.blocks[t]| - 1, 0));
        SameCall(em, FallOf(LastInsn(em, t)), after, 0);
      }
    } else {
      SameCall(em, last.term.taken, after, 0);
    }
  }

  /** Inlining changes no run exactly when every inlined branch is served. */
  lemma InlinedExact(em: Emitted, inlines: Inlines)
    requires ValidEmission(em)
    ensures SameInlined(em, inlines) <==> Served(em, inlines)
  {
    if Served(em, inlines) {
      forall m: Machine<int>, c: InlineConfig<int>, n: nat | ValidInline(em, inlines, c)
        ensures ExecuteInlined(em, inlines, m, c, n).0 == ExecuteBlocks(em, m, Erase(c), n).0
        ensures Erase(ExecuteInlined(em, inlines, m, c, n).1) == ExecuteBlocks(em, m, Erase(c), n).1
      {
        InlinedSame(em, inlines, m, c, n);
      }
    }
    if SameInlined(em, inlines) {
      forall b, t | InlinesAt(em, inlines, b, t)
        ensures FallServed(em, inlines, b) && TakenServed(em, inlines, b)
      {
        NeedsServed(em, inlines, b, t);
      }
    }
  }

  // ----- recorded runs -----

  /** Where a recorded run goes from p to q, a call of `after` goes there, too. */
  ghost predicate LeadsTo(code: Code, succs: Edges, em: Emitted, p: Pc, q: Pc, after: Pc) {
    if q in code then q in Lookup(succs, p) ==> Goal(em, after) == Some(q) else Goal(em, after) == None
  }

  /** A recorded run that falls out of the inlined t goes on at `after`. */
  ghost predicate FallsOut(code: Code, succs: Edges, em: Emitted, t: Pc, after: Pc)
    requires ValidEmission(em) && t in em.blocks
  {
    LastInsn(em, t).term.Branch? && LiveTo(code, succs, em.blocks[t], |em.blocks[t]| - 1) ==>
      LeadsTo(code, succs, em, LastInsn(em, t).pc, FallOf(LastInsn(em, t)), after)
  }

  /** Taking the branch at the end of b with t inlined, a recorded run gets to the target and
      out of it again. */
  ghost predicate InlineRight(code: Code, succs: Edges, em: Emitted, b: Pc, t: Pc)
    requires ValidEmission(em) && b in em.blocks && LastInsn(em, b).term.Branch?
  {
    var p, taken, after := LastInsn(em, b).pc, LastInsn(em, b).term.taken, AfterBranch(em, b);
    if t in em.blocks then
      taken in code && (taken in Lookup(succs, p) ==> t == taken && FallsOut(code, succs, em, t, after))
    else LeadsTo(code, succs, em, p, taken, after)
  }

  /** So does every inlined branch that recorded runs reach. */
  ghost predicate LiveInlines(code: Code, succs: Edges, em: Emitted, inlines: Inlines) {
    && ValidEmission(em)
    && forall b, t | InlinesAt(em, inlines, b, t) && LiveTo(code, succs, em.blocks[b], |em.blocks[b]| - 1) ::
         InlineRight(code, succs, em, b, t)
  }

  /** In lockstep, inside inlined bodies that lead out right. */
  ghost predicate InlineLock<S>(code: Code, succs: Edges, em: Emitted, inlines: Inlines, c: Config<S>, d: InlineConfig<S>)
    requires ValidEmission(em)
  {
    && Lockstep(code, succs, em, c, Erase(d)) && ValidInline(em, inlines, d)
    && (d.Inside? ==> FallsOut(code, succs, em, d.target, AfterBranch(em, d.from)))
  }

  lemma GoalOfBlock(em: Emitted, q: Pc)
    requires ValidEmission(em) && em.absorbed.Keys !! em.blocks.Keys
    ensures q in em.blocks ==> Goal(em, q) == Some(q)
    ensures Goal(em, q).Some? ==> Goal(em, q).value in em.blocks
  {
  }

  /** Where a call of `after` leads where the run goes, it is a call of that address. */
  lemma SameLead<S>(code: Code, succs: Edges, em: Emitted, p: Pc, q: Pc, after: Pc, s: S)
    requires ValidEmission(em) && CodeEmission(code, em) && LeadsTo(code, succs, em, p, q, after)
    requires q in code ==> q in Lookup(succs, p)
    ensures Call(em, after, s) == Call(em, q, s)
  {
    BlocksInCode(code, em);
    GoalOfBlock(em, q);
    GoalOfBlock(em, after);
    SameCall(em, after, q, s);
  }

  lemma LastIsCode(code: Code, em: Emitted, b: Pc)
    requires PlainFalls(code) && ValidEmission(em) && CodeEmission(code, em) && b in em.blocks
    ensures var last := LastInsn(em, b);
            && CodeInsn(code, last) && AfterBranch(em, b) == NextPc(code, last.pc)
            && (last.term.Branch? ==> last.term == code[last.pc].term && FallOf(last) == AfterBranch(em, b))
  {
    assert CodeBody(code, b, em.blocks[b]);
    assert CodeInsn(code, LastInsn(em, b));
    assert PlainFall(code, LastInsn(em, b).pc);
  }

  /** Taking an inlined branch. */
  lemma TakenErases<S>(code: Code, succs: Edges, em: Emitted, inlines: Inlines, m: Machine<S>, c: Config<S>, b: Pc, i: nat)
    requires PlainFalls(code) && CodeEmission(code, em) && LiveInlines(code, succs, em, inlines)
    requires b in em.blocks && i == |em.blocks[b]| - 1 && InlineLock(code, succs, em, inlines, c, Main(b, i, c.state))
    requires LastInsn(em, b).term.Branch? && LastInsn(em, b).pc in inlines
    requires c.Running? && StepOnEdge(code, succs, m, c) && m.takes(c.pc, c.state)
    ensures var d := Main(b, i, c.state);
            && Erase(InlineStep(em, inlines, m, d)) == BlockStep(em, m, Erase(d))
            && var e := InlineStep(em, inlines, m, d); e.Inside? ==> FallsOut(code, succs, em, e.target, AfterBranch(em, e.from))
  {
    var t := inlines[LastInsn(em, b).pc].0;
    LastIsCode(code, em, b);
    assert InlinesAt(em, inlines, b, t) && InlineRight(code, succs, em, b, t);
    var taken := LastInsn(em, b).term.taken;
    if t in em.blocks {
      assert t == taken;
      GoalOfBlock(em, taken);
    } else {
      SameLead(code, succs, em, c.pc, taken, AfterBranch(em, b), m.effect(c.pc, c.state));
    }
  }

  /** Leaving an inlined body by a branch that is not taken. */
  lemma OutErases<S>(code: Code, succs: Edges, em: Emitted, inlines: Inlines, m: Machine<S>, c: Config<S>, d: InlineConfig<S>)
    requires PlainFalls(code) && ValidEmission(em) && CodeEmission(code, em) && InlineLock(code, succs, em, inlines, c, d)
    requires d.Inside? && d.index == |em.blocks[d.target]| - 1 && LastInsn(em, d.target).term.Branch?
    requires c.Running? && StepOnEdge(code, succs, m, c) && !m.takes(c.pc, c.state)
    ensures Erase(InlineStep(em, inlines, m, d)) == BlockStep(em, m, Erase(d)) && !InlineStep(em, inlines, m, d).Inside?
  {
    LastIsCode(code, em, d.target);
    SameLead(code, succs, em, c.pc, FallOf(LastInsn(em, d.target)), AfterBranch(em, d.from), m.effect(c.pc, c.state));
  }

  /** A recorded step with inlining is a step without. */
  lemma LiveErases<S>(code: Code, succs: Edges, em: Emitted, inlines: Inlines, m: Machine<S>, c: Config<S>, d: InlineConfig<S>)
    requires PlainFalls(code) && CodeEmission(code, em) && LiveInlines(code, succs, em, inlines)
    requires c.Running? && InlineLock(code, succs, em, inlines, c, d) && StepOnEdge(code, succs, m, c)
    ensures Erase(InlineStep(em, inlines, m, d)) == BlockStep(em, m, Erase(d))
    ensures var e := InlineStep(em, inlines, m, d); e.Inside? ==> FallsOut(code, succs, em, e.target, AfterBranch(em, e.from))
  {
    if d.Main? {
      var ir := em.blocks[d.block][d.index];
      if d.index == |em.blocks[d.block]| - 1 && ir.term.Branch? && ir.pc in inlines {
        LastIsCode(code, em, d.block);
        if m.takes(ir.pc, d.state) {
          TakenErases(code, succs, em, inlines, m, c, d.block, d.index);
        }
      }
    } else {
      var ir := em.blocks[d.target][d.index];
      if !RunsOn(em, m, Erase(d)) && ir.term.Branch? && !m.takes(ir.pc, d.state) {
        OutErases(code, succs, em, inlines, m, c, d);
      }
    }
  }

  /** Every recorded step from an inlined configuration in lockstep is a step without inlining. */
  ghost predicate KeepsErasing<S(!new)>(code: Code, succs: Edges, em: Emitted, inlines: Inlines, m: Machine<S>)
    requires ValidEmission(em)
  {
    forall c: Config<S>, d: InlineConfig<S>
      | c.Running? && InlineLock(code, succs, em, inlines, c, d) && StepOnEdge(code, succs, m, c) ::
      ErasesAt(code, succs, em, inlines, m, d)
  }

  ghost predicate ErasesAt<S>(code: Code, succs: Edges, em: Emitted, inlines: Inlines, m: Machine<S>, d: InlineConfig<S>)
    requires ValidEmission(em) && ValidInline(em, inlines, d)
  {
    var e := InlineStep(em, inlines, m, d);
    Erase(e) == BlockStep(em, m, Erase(d)) && (e.Inside? ==> FallsOut(code, succs, em, e.target, AfterBranch(em, e.from)))
  }

  lemma AlwaysErasing<S(!new)>(code: Code, succs: Edges, em: Emitted, inlines: Inlines, m: Machine<S>)
    requires PlainFalls(code) && CodeEmission(code, em) && LiveInlines(code, succs, em, inlines)
    ensures KeepsErasing(code, succs, em, inlines, m)
  {
    forall c: Config<S>, d: InlineConfig<S>
      | c.Running? && InlineLock(code, succs, em, inlines, c, d) && StepOnEdge(code, succs, m, c)
      ensures ErasesAt(code, succs, em, inlines, m, d)
    {
      LiveErases(code, succs, em, inlines, m, c, d);
    }
  }

  /** Recorded runs with inlining execute the same instructions with the same states as
      without. */
  lemma {:induction false} InlinedTrace<S(!new)>(code: Code, succs: Edges, em: Emitted, inlines: Inlines, m: Machine<S>,
                                                 c: Config<S>, d: InlineConfig<S>, n: nat)
    requires ValidEmission(em) && KeepsErasing(code, succs, em, inlines, m) && InlineLock(code, succs, em, inlines, c, d)
    requires KeepsGoing(code, succs, em, m) && Going(code, succs, em, m, c, Erase(d), n)
    ensures ExecuteInlined(em, inlines, m, d, n).0 == ExecuteBlocks(em, m, Erase(d), n).0
    ensures Erase(ExecuteInlined(em, inlines, m, d, n).1) == ExecuteBlocks(em, m, Erase(d), n).1
    decreases n
  {
    if n > 0 && c.Running? {
      assert ErasesAt(code, succs, em, inlines, m, d);
      assert Going(code, succs, em, m, Step(code, m, c), BlockStep(em, m, Erase(d)), n - 1);
      InlinedTrace(code, succs, em, inlines, m, Step(code, m, c), InlineStep(em, inlines, m, d), n - 1);
    }
  }

  /** n steps from c run the same way through the block functions with inlined paths from d. */
  ghost predicate SameInlinedFrom<S>(code: Code, em: Emitted, inlines: Inlines, m: Machine<S>, c: Config<S>,
                                     d: InlineConfig<S>, n: nat)
    requires ValidEmission(em) && ValidInline(em, inlines, d)
  {
    && Execute(code, m, c, n).0 == ExecuteInlined(em, inlines, m, d, n).0
    && ValidConfig(em, Erase(ExecuteInlined(em, inlines, m, d, n).1))
    && Matches(em, Execute(code, m, c, n).1, Erase(ExecuteInlined(em, inlines, m, d, n).1))
  }

  lemma InlinedTail<S>(code: Code, em: Emitted, inlines: Inlines, m: Machine<S>, c: Config<S>, d: InlineConfig<S>, n: nat)
    requires ValidEmission(em) && ValidInline(em, inlines, d) && c.Running? && Erase(d).At? && n > 0
    requires SameInlinedFrom(code, em, inlines, m, c, d, n)
    ensures SameInlinedFrom(code, em, inlines, m, Step(code, m, c), InlineStep(em, inlines, m, d), n - 1)
    ensures Step(code, m, c).Halted? ==> InlineStep(em, inlines, m, d).Ended?
  {
    var next, step := Step(code, m, c), InlineStep(em, inlines, m, d);
    var t, u := Execute(code, m, next, n - 1).0, ExecuteInlined(em, inlines, m, step, n - 1).0;
    assert ([c.pc] + t)[1..] == t && ([em.blocks[Erase(d).block][Erase(d).index].pc] + u)[1..] == u;
  }

  /** A recorded run that stays the same with inlining lands in traps only. */
  lemma {:induction false} InlinedLands<S(!new)>(code: Code, succs: Edges, em: Emitted, inlines: Inlines, m: Machine<S>,
                                                 c: Config<S>, d: InlineConfig<S>, n: nat)
    requires ValidEmission(em) && KeepsErasing(code, succs, em, inlines, m) && InlineLock(code, succs, em, inlines, c, d)
    requires Notices(code, succs, em, m)
    requires RunRecorded(code, succs, m, c, n) && SameInlinedFrom(code, em, inlines, m, c, d, n)
    ensures RunLands(code, em, m, c, n)
    decreases n
  {
    if n > 0 && c.Running? {
      assert ErasesAt(code, succs, em, inlines, m, d);
      InlinedTail(code, em, inlines, m, c, d, n);
      assert NoticesAt(code, succs, em, m, c, Erase(d));
      InlinedLands(code, succs, em, inlines, m, Step(code, m, c), InlineStep(em, inlines, m, d), n - 1);
    }
  }

  /** n steps from `entry`, found through the dispatch table, run the same way with inlining. */
  ghost predicate SameInlinedRun<S>(code: Code, em: Emitted, inlines: Inlines, m: Machine<S>, entry: Pc, s: S, n: nat) {
    ValidEmission(em) && SameInlinedFrom(code, em, inlines, m, Running(entry, s), Enter(Dispatch(em, entry, s)), n)
  }

  /** Where all that recorded runs reach is right, inlined branches included, and every block
      function has its slot, a recorded run from a block function is kept exactly when its
      computed jumps off the code find traps. */
  lemma LiveInlinedRun<S(!new)>(code: Code, succs: Edges, em: Emitted, inlines: Inlines, m: Machine<S>, entry: Pc, s: S, n: nat)
    requires PlainFalls(code) && LiveEmission(code, succs, em) && Slotted(em) && entry in em.blocks
    requires LiveInlines(code, succs, em, inlines) && RunRecorded(code, succs, m, Running(entry, s), n)
    ensures SameInlinedRun(code, em, inlines, m, entry, s, n) <==> RunLands(code, em, m, Running(entry, s), n)
  {
    LiveStart(code, succs, em, entry);
    assert Dispatched(em, entry) == Some(Block(entry));
    AlwaysErasing(code, succs, em, inlines, m);
    var c, d := Running(entry, s), Dispatch(em, entry, s);
    if RunLands(code, em, m, c, n) {
      AlwaysGoing(code, succs, em, m);
      SameGoing(code, succs, em, m, c, d, n);
      InlinedTrace(code, succs, em, inlines, m, c, Enter(d), n);
    } else if SameInlinedRun(code, em, inlines, m, entry, s, n) {
      AlwaysNotices(code, succs, em, m);
      InlinedLands(code, succs, em, inlines, m, c, Enter(d), n);
    }
  }

  // ----- served on recorded branches -----

  /** Fall-throughs are served, and taken branches wherever they are recorded. */
  ghost predicate ServedOn(code: Code, succs: Edges, em: Emitted, inlines: Inlines) {
    && ValidEmission(em)
    && forall b, t | InlinesAt(em, inlines, b, t) ::
         && FallServed(em, inlines, b)
         && LastInsn(em, b).term.taken in code
         && (LastInsn(em, b).term.taken in Lookup(succs, LastInsn(em, b).pc) ==> TakenServed(em, inlines, b))
  }

  /** Where recorded exits are right, a recorded fall-through leads to a block function. */
  lemma FallLeads(code: Code, succs: Edges, em: Emitted, t: Pc, after: Pc)
    requires PlainFalls(code) && LiveEmission(code, succs, em) && t in em.blocks && LastInsn(em, t).term.Branch?
    requires LiveTo(code, succs, em.blocks[t], |em.blocks[t]| - 1) && Goal(em, FallOf(LastInsn(em, t))) == Goal(em, after)
    ensures LeadsTo(code, succs, em, LastInsn(em, t).pc, FallOf(LastInsn(em, t)), after)
  {
    LastIsCode(code, em, t);
    BlocksInCode(code, em);
    var q := FallOf(LastInsn(em, t));
    assert RightAt(code, succs, em, t, |em.blocks[t]| - 1);
    if q in code && q in Lookup(succs, LastInsn(em, t).pc) {
      assert Leaves(code, em.blocks[t], |em.blocks[t]| - 1, q);
      GoalOfBlock(em, q);
    }
  }

  lemma ServedRight(code: Code, succs: Edges, em: Emitted, inlines: Inlines, b: Pc, t: Pc)
    requires PlainFalls(code) && LiveEmission(code, succs, em) && ServedOn(code, succs, em, inlines)
    requires InlinesAt(em, inlines, b, t) && LiveTo(code, succs, em.blocks[b], |em.blocks[b]| - 1)
    ensures InlineRight(code, succs, em, b, t)
  {
    var p, taken, after := LastInsn(em, b).pc, LastInsn(em, b).term.taken, AfterBranch(em, b);
    LastIsCode(code, em, b);
    if taken in Lookup(succs, p) {
      assert RightAt(code, succs, em, b, |em.blocks[b]| - 1);
      assert Leaves(code, em.blocks[b], |em.blocks[b]| - 1, taken);
      GoalOfBlock(em, taken);
      if t in em.blocks && LastInsn(em, t).term.Branch? && LiveTo(code, succs, em.blocks[t], |em.blocks[t]| - 1) {
        FallLeads(code, succs, em, t, after);
      }
    }
  }

  lemma ServedLive(code: Code, succs: Edges, em: Emitted, inlines: Inlines)
    requires PlainFalls(code) && LiveEmission(code, succs, em) && ServedOn(code, succs, em, inlines)
    ensures LiveInlines(code, succs, em, inlines)
  {
    forall b, t | InlinesAt(em, inlines, b, t) && LiveTo(code, succs, em.blocks[b], |em.blocks[b]| - 1)
      ensures InlineRight(code, succs, em, b, t)
    {
      ServedRight(code, succs, em, inlines, b, t);
    }
  }
}
