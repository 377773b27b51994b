/**
  Execution of the original code one instruction at a time, execution of the
  emitted block functions, and the lockstep theorem between the two.
 */
module Trace {
  import opened Code
  import opened Text

  /** The data path, left open: what an instruction does to the machine state,
      whether a branch is taken and where a computed jump goes. */
  datatype Machine<!S> = Machine(effect: (Pc, S) -> S, takes: (Pc, S) -> bool, dynamic: (Pc, S) -> Pc)

  datatype Config<S> = Running(pc: Pc, state: S) | Halted(state: S)

  /** Destination of the terminator at pc; `next` is where falling through leads. */
  function Destination<S>(term: Terminator, next: Pc, m: Machine<S>, pc: Pc, s: S): Option<Pc> {
    match term
    case Fall(t) => if t.Some? then t else Some(next)
    case Jump(t) => Some(t)
    case JumpDyn => Some(m.dynamic(pc, s))
    case Branch(t, f) => if m.takes(pc, s) then Some(t) else if f.Some? then f else Some(next)
    case Exit => None
    case Trap => None
  }

  /** One instruction of the original program; leaving the code halts. */
  function Step<S>(code: Code, m: Machine<S>, c: Config<S>): Config<S> {
    match c
    case Halted(_) => c
    case Running(pc, s) =>
      if pc !in code then Halted(s) else
      var s' := m.effect(pc, s);
      match Destination(code[pc].term, NextPc(code, pc), m, pc, s)
      case None => Halted(s')
      case Some(q) => if q in code then Running(q, s') else Halted(s')
  }

  /** The program counters executed in n steps, and the configuration reached. */
  function Execute<S>(code: Code, m: Machine<S>, c: Config<S>, n: nat): (seq<Pc>, Config<S>)
    decreases n
  {
    if n == 0 || c.Halted? then ([], c) else
    var (t, d) := Execute(code, m, Step(code, m, c), n - 1);
    ([c.pc] + t, d)
  }

  /** The next step is an edge of the recorded graph, or a halt. */
  ghost predicate StepOnEdge<S>(code: Code, succs: Edges, m: Machine<S>, c: Config<S>)
    requires c.Running?
  {
    var d := Step(code, m, c);
    d.Running? ==> d.pc in Lookup(succs, c.pc)
  }

  /** Every transfer of the next n steps is an edge of the recorded graph. */
  ghost predicate RunRecorded<S>(code: Code, succs: Edges, m: Machine<S>, c: Config<S>, n: nat)
    decreases n
  {
    n == 0 || c.Halted? || (StepOnEdge(code, succs, m, c) && RunRecorded(code, succs, m, Step(code, m, c), n - 1))
  }

  // ----- emitted blocks -----

  /** `At(b, i, s)`: about to run instruction i of block function b. `Astray`: the index of
      an address was past the dispatch table, and nothing is known of what runs next. */
  datatype BlockConfig<S> = At(block: Pc, index: nat, state: S) | Stopped(state: S) | Astray(state: S)

  ghost predicate ValidConfig<S>(em: Emitted, c: BlockConfig<S>) {
    c.At? ==> c.block in em.blocks && c.index < |em.blocks[c.block]|
  }

  function Resolve(em: Emitted, q: Pc): Pc {
    if q in em.absorbed then em.absorbed[q] else q
  }

  /** A tail call to address q: the resolved block function, or an exit. */
  function Call<S>(em: Emitted, q: Pc, s: S): (c: BlockConfig<S>)
    requires ValidEmission(em)
    ensures ValidConfig(em, c)
  {
    if q in em.blocks || q in em.absorbed then At(Resolve(em, q), 0, s) else Stopped(s)
  }

  /** The entry of a run and computed jumps go through the dispatch table. */
  ghost function Dispatch<S>(em: Emitted, q: Pc, s: S): (c: BlockConfig<S>)
    requires ValidEmission(em)
    ensures ValidConfig(em, c)
  {
    match Dispatched(em, q)
    case None => Astray(s)
    case Some(TrapEntry) => Stopped(s)
    case Some(Block(b)) => At(b, 0, s)
  }

  ghost function GoTo<S>(em: Emitted, term: Terminator, q: Pc, s: S): (c: BlockConfig<S>)
    requires ValidEmission(em)
    ensures ValidConfig(em, c)
  {
    if term.JumpDyn? then Dispatch(em, q, s) else Call(em, q, s)
  }

  /** Only the last instruction of a block function follows its terminator; before
      it, a branch is a side exit and anything else runs on. */
  ghost function BlockStep<S>(em: Emitted, m: Machine<S>, c: BlockConfig<S>): (d: BlockConfig<S>)
    requires ValidEmission(em) && ValidConfig(em, c)
    ensures ValidConfig(em, d)
  {
    match c
    case Stopped(_) => c
    case Astray(_) => c
    case At(b, i, s) =>
      var ir := em.blocks[b][i];
      var s' := m.effect(ir.pc, s);
      if i == |em.blocks[b]| - 1 then
        match Destination(ir.term, ir.pc + ir.size, m, ir.pc, s)
        case None => Stopped(s')
        case Some(q) => GoTo(em, ir.term, q, s')
      else if ir.term.Branch? && m.takes(ir.pc, s) then Call(em, ir.term.taken, s')
      else At(b, i + 1, s')
  }

  ghost function ExecuteBlocks<S>(em: Emitted, m: Machine<S>, c: BlockConfig<S>, n: nat): (seq<Pc>, BlockConfig<S>)
    requires ValidEmission(em) && ValidConfig(em, c)
    decreases n
  {
    if n == 0 || !c.At? then ([], c) else
    var (t, d) := ExecuteBlocks(em, m, BlockStep(em, m, c), n - 1);
    ([em.blocks[c.block][c.index].pc] + t, d)
  }

  /** A computed jump off the code finds the trap in the dispatch table. */
  ghost predicate LandsAt<S>(code: Code, em: Emitted, m: Machine<S>, c: Config<S>)
    requires c.Running?
  {
    c.pc in code && code[c.pc].term.JumpDyn? && m.dynamic(c.pc, c.state) !in code ==>
      Dispatched(em, m.dynamic(c.pc, c.state)) == Some(TrapEntry)
  }

  /** So do all computed jumps of the next n steps. */
  ghost predicate RunLands<S>(code: Code, em: Emitted, m: Machine<S>, c: Config<S>, n: nat)
    decreases n
  {
    n == 0 || c.Halted? || (LandsAt(code, em, m, c) && RunLands(code, em, m, Step(code, m, c), n - 1))
  }

  // ----- lockstep -----

  /** The lifted terminator is that of the code, up to an explicit fall-through. */
  ghost predicate SameTerminator(code: Code, ir: IrInsn)
    requires ir.pc in code
  {
    ir.term == code[ir.pc].term || (code[ir.pc].term.Fall? && ir.term == Fall(Some(NextPc(code, ir.pc))))
  }

  ghost predicate CodeInsn(code: Code, ir: IrInsn) {
    ir.pc in code && ir.size == code[ir.pc].size && SameTerminator(code, ir)
  }

  /** The instructions are those of the code. */
  ghost predicate CodeBody(code: Code, start: Pc, body: seq<IrInsn>) {
    && body != [] && body[0].pc == start
    && forall i | 0 <= i < |body| :: CodeInsn(code, body[i])
  }

  ghost predicate CodeEmission(code: Code, em: Emitted) {
    && (forall b | b in em.blocks :: CodeBody(code, b, em.blocks[b]))
    && em.absorbed.Keys !! em.blocks.Keys && em.absorbed.Keys <= code.Keys
  }

  /** A recorded run may pass from p to q without taking a branch. */
  ghost predicate Passes(code: Code, succs: Edges, p: Pc, q: Pc) {
    && p in code && q in code && q in Lookup(succs, p)
    && (Continues(code, p, q) || code[p].term.JumpDyn?)
  }

  /** A recorded run may pass through the body from its start to instruction i. */
  ghost predicate LiveTo(code: Code, succs: Edges, body: seq<IrInsn>, i: nat) {
    i < |body| && forall k | 0 <= k < i :: Passes(code, succs, body[k].pc, body[k + 1].pc)
  }

  /** The instruction at p, followed by `next` in the body, goes on there wherever a recorded
      run does not leave by a taken branch. */
  ghost predicate RunsOnTo(code: Code, succs: Edges, em: Emitted, p: Pc, next: Pc)
    requires p in code
  {
    match code[p].term
    case Exit => false
    case Trap => false
    case JumpDyn =>
      && (forall q | q in code && q in Lookup(succs, p) :: q == next)
      && (forall q: Pc | q !in code :: Dispatched(em, q) != Some(TrapEntry))
    case Jump(t) => t in code && (t in Lookup(succs, p) ==> t == next)
    case _ => NextPc(code, p) in code && (NextPc(code, p) in Lookup(succs, p) ==> NextPc(code, p) == next)
  }

  /** Control leaves the body of a block function from instruction i for address q. */
  ghost predicate Leaves(code: Code, body: seq<IrInsn>, i: nat, q: Pc)
    requires i < |body| && body[i].pc in code
  {
    && CanFlow(code, body[i].pc, q)
    && (i == |body| - 1 || BranchesTo(code, body[i].pc, q))
  }

  /** Instruction i of block function b runs on right, and its recorded exits lead to
      block functions. */
  ghost predicate RightAt(code: Code, succs: Edges, em: Emitted, b: Pc, i: nat)
    requires b in em.blocks && i < |em.blocks[b]| && em.blocks[b][i].pc in code
  {
    var body := em.blocks[b];
    && (i < |body| - 1 ==> RunsOnTo(code, succs, em, body[i].pc, body[i + 1].pc))
    && (forall q | q in code && q in Lookup(succs, body[i].pc) && Leaves(code, body, i, q) :: q in em.blocks)
  }

  /** All instructions that recorded runs reach are right. */
  ghost predicate LiveEmission(code: Code, succs: Edges, em: Emitted) {
    && ValidEmission(em) && CodeEmission(code, em)
    && forall b, i: nat | b in em.blocks && LiveTo(code, succs, em.blocks[b], i) ::
         em.blocks[b][i].pc in code && RightAt(code, succs, em, b, i)
  }

  /** The two configurations stand at the same instruction with the same state. */
  ghost predicate Matches<S>(em: Emitted, c: Config<S>, d: BlockConfig<S>)
    requires ValidConfig(em, d)
  {
    && c.state == d.state && !d.Astray?
    && (c.Running? <==> d.At?)
    && (d.At? ==> em.blocks[d.block][d.index].pc == c.pc)
  }

  /** They match, at an instruction a recorded run may reach. */
  ghost predicate Lockstep<S>(code: Code, succs: Edges, em: Emitted, c: Config<S>, d: BlockConfig<S>) {
    && ValidConfig(em, d) && Matches(em, c, d)
    && (d.At? ==> LiveTo(code, succs, em.blocks[d.block], d.index))
  }

  /** n steps from c run the same way through the block functions from d. */
  ghost predicate SameFrom<S>(code: Code, em: Emitted, m: Machine<S>, c: Config<S>, d: BlockConfig<S>, n: nat)
    requires ValidEmission(em) && ValidConfig(em, d)
  {
    && Execute(code, m, c, n).0 == ExecuteBlocks(em, m, d, n).0
    && ValidConfig(em, ExecuteBlocks(em, m, d, n).1)
    && Matches(em, Execute(code, m, c, n).1, ExecuteBlocks(em, m, d, n).1)
  }

  /** So do n steps from `entry`, found through the dispatch table. */
  ghost predicate SameRun<S>(code: Code, em: Emitted, m: Machine<S>, entry: Pc, s: S, n: nat) {
    ValidEmission(em) && SameFrom(code, em, m, Running(entry, s), Dispatch(em, entry, s), n)
  }

  /** The machine runs on to the next instruction of the body. */
  predicate RunsOn<S>(em: Emitted, m: Machine<S>, d: BlockConfig<S>)
    requires d.At? && d.block in em.blocks && d.index < |em.blocks[d.block]|
  {
    var ir := em.blocks[d.block][d.index];
    d.index < |em.blocks[d.block]| - 1 && !(ir.term.Branch? && m.takes(ir.pc, d.state))
  }

  lemma LiveStart(code: Code, succs: Edges, em: Emitted, b: Pc)
    requires CodeEmission(code, em) && b in em.blocks
    ensures LiveTo(code, succs, em.blocks[b], 0) && em.blocks[b][0].pc == b
  {
    assert CodeBody(code, b, em.blocks[b]);
  }

  lemma LiveNext(code: Code, succs: Edges, body: seq<IrInsn>, i: nat)
    requires LiveTo(code, succs, body, i) && i + 1 < |body| && Passes(code, succs, body[i].pc, body[i + 1].pc)
    ensures LiveTo(code, succs, body, i + 1)
  {
  }

  /** What a step of the code that takes no branch does, if it is right to run on. */
  lemma CodeRunsOn<S>(code: Code, succs: Edges, em: Emitted, m: Machine<S>, p: Pc, s: S, next: Pc)
    requires p in code && PlainFall(code, p) && RunsOnTo(code, succs, em, p, next)
    requires !(code[p].term.Branch? && m.takes(p, s))
    requires StepOnEdge(code, succs, m, Running(p, s)) && LandsAt(code, em, m, Running(p, s))
    ensures Step(code, m, Running(p, s)) == Running(next, m.effect(p, s)) && Passes(code, succs, p, next)
  {
  }

  lemma StepInside<S>(code: Code, succs: Edges, em: Emitted, m: Machine<S>, c: Config<S>, d: BlockConfig<S>)
    requires PlainFalls(code) && LiveEmission(code, succs, em)
    requires c.Running? && Lockstep(code, succs, em, c, d) && RunsOn(em, m, d)
    requires StepOnEdge(code, succs, m, c) && LandsAt(code, em, m, c)
    ensures Lockstep(code, succs, em, Step(code, m, c), BlockStep(em, m, d))
  {
    var body := em.blocks[d.block];
    assert CodeBody(code, d.block, body);
    assert CodeInsn(code, body[d.index]) && RightAt(code, succs, em, d.block, d.index);
    assert PlainFall(code, c.pc);
    CodeRunsOn(code, succs, em, m, c.pc, c.state, body[d.index + 1].pc);
    LiveNext(code, succs, body, d.index);
  }

  /** Leaving a body is a call of the address the code goes to, a jump through the table, or a stop. */
  lemma BlockLeaves<S>(code: Code, em: Emitted, m: Machine<S>, c: Config<S>, d: BlockConfig<S>)
    requires PlainFalls(code) && ValidEmission(em) && em.blocks.Keys <= code.Keys && em.absorbed.Keys <= code.Keys
    requires c.Running? && ValidConfig(em, d) && Matches(em, c, d) && !RunsOn(em, m, d)
    requires CodeInsn(code, em.blocks[d.block][d.index]) && LandsAt(code, em, m, c)
    ensures var next, body := Step(code, m, c), em.blocks[d.block];
            && (next.Running? ==> Leaves(code, body, d.index, next.pc))
            && (next.Running? ==> BlockStep(em, m, d) == GoTo(em, code[c.pc].term, next.pc, next.state))
            && (next.Halted? ==> BlockStep(em, m, d) == Stopped(next.state))
  {
    assert PlainFall(code, c.pc);
  }

  lemma BlocksInCode(code: Code, em: Emitted)
    requires CodeEmission(code, em)
    ensures em.blocks.Keys <= code.Keys
  {
    forall b | b in em.blocks
      ensures b in code
    {
      assert CodeBody(code, b, em.blocks[b]);
      assert CodeInsn(code, em.blocks[b][0]);
    }
  }

  lemma StepOutside<S>(code: Code, succs: Edges, em: Emitted, m: Machine<S>, c: Config<S>, d: BlockConfig<S>)
    requires PlainFalls(code) && LiveEmission(code, succs, em) && Slotted(em)
    requires c.Running? && Lockstep(code, succs, em, c, d) && !RunsOn(em, m, d)
    requires StepOnEdge(code, succs, m, c) && LandsAt(code, em, m, c)
    ensures Lockstep(code, succs, em, Step(code, m, c), BlockStep(em, m, d))
  {
    BlocksInCode(code, em);
    assert CodeBody(code, d.block, em.blocks[d.block]);
    assert CodeInsn(code, em.blocks[d.block][d.index]);
    BlockLeaves(code, em, m, c, d);
    var next := Step(code, m, c);
    if next.Running? {
      assert RightAt(code, succs, em, d.block, d.index);
      LiveStart(code, succs, em, next.pc);
    }
  }

  lemma StepMatches<S>(code: Code, succs: Edges, em: Emitted, m: Machine<S>, c: Config<S>, d: BlockConfig<S>)
    requires PlainFalls(code) && LiveEmission(code, succs, em) && Slotted(em)
    requires c.Running? && Lockstep(code, succs, em, c, d)
    requires StepOnEdge(code, succs, m, c) && LandsAt(code, em, m, c)
    ensures Lockstep(code, succs, em, Step(code, m, c), BlockStep(em, m, d))
  {
    if RunsOn(em, m, d) {
      StepInside(code, succs, em, m, c, d);
    } else {
      StepOutside(code, succs, em, m, c, d);
    }
  }

  /** One more step in front of runs that stay the same. */
  lemma SameStep<S>(code: Code, em: Emitted, m: Machine<S>, c: Config<S>, d: BlockConfig<S>, n: nat)
    requires ValidEmission(em) && ValidConfig(em, d) && Matches(em, c, d) && n > 0 && c.Running?
    requires Execute(code, m, Step(code, m, c), n - 1).0 == ExecuteBlocks(em, m, BlockStep(em, m, d), n - 1).0
    ensures Execute(code, m, c, n).0 == ExecuteBlocks(em, m, d, n).0
    ensures Execute(code, m, c, n).1 == Execute(code, m, Step(code, m, c), n - 1).1
    ensures ExecuteBlocks(em, m, d, n).1 == ExecuteBlocks(em, m, BlockStep(em, m, d), n - 1).1
  {
  }

  /** In lockstep, with n recorded steps to go. */
  ghost predicate Going<S>(code: Code, succs: Edges, em: Emitted, m: Machine<S>, c: Config<S>, d: BlockConfig<S>, n: int) {
    Lockstep(code, succs, em, c, d) && n >= 0 && RunRecorded(code, succs, m, c, n) && RunLands(code, em, m, c, n)
  }

  lemma GoingOn<S>(code: Code, succs: Edges, em: Emitted, m: Machine<S>, c: Config<S>, d: BlockConfig<S>, n: int)
    requires PlainFalls(code) && LiveEmission(code, succs, em) && Slotted(em)
    requires Going(code, succs, em, m, c, d, n) && c.Running? && n > 0
    ensures Going(code, succs, em, m, Step(code, m, c), BlockStep(em, m, d), n - 1)
  {
    StepMatches(code, succs, em, m, c, d);
  }

  /** Every step keeps the two sides going. */
  ghost predicate KeepsGoing<S(!new)>(code: Code, succs: Edges, em: Emitted, m: Machine<S>)
    requires ValidEmission(em)
  {
    forall c: Config<S>, d: BlockConfig<S>, n: int | Going(code, succs, em, m, c, d, n) && c.Running? && n > 0 ::
      Going(code, succs, em, m, Step(code, m, c), BlockStep(em, m, d), n - 1)
  }

  lemma AlwaysGoing<S(!new)>(code: Code, succs: Edges, em: Emitted, m: Machine<S>)
    requires PlainFalls(code) && LiveEmission(code, succs, em) && Slotted(em)
    ensures KeepsGoing(code, succs, em, m)
  {
    forall c: Config<S>, d: BlockConfig<S>, n: int | Going(code, succs, em, m, c, d, n) && c.Running? && n > 0
      ensures Going(code, succs, em, m, Step(code, m, c), BlockStep(em, m, d), n - 1)
    {
      GoingOn(code, succs, em, m, c, d, n);
    }
  }

  lemma {:induction false} SameGoing<S(!new)>(code: Code, succs: Edges, em: Emitted, m: Machine<S>,
                                              c: Config<S>, d: BlockConfig<S>, n: nat)
    requires ValidEmission(em) && KeepsGoing(code, succs, em, m) && Going(code, succs, em, m, c, d, n)
    ensures Execute(code, m, c, n).0 == ExecuteBlocks(em, m, d, n).0
    ensures Lockstep(code, succs, em, Execute(code, m, c, n).1, ExecuteBlocks(em, m, d, n).1)
    decreases n
  {
    if n > 0 && c.Running? {
      SameGoing(code, succs, em, m, Step(code, m, c), BlockStep(em, m, d), n - 1);
      SameStep(code, em, m, c, d, n);
    }
  }

  /** Every recorded run executes the same program counters with the same states
      through the emitted blocks as through the original code. */
  lemma SameTrace<S(!new)>(code: Code, succs: Edges, em: Emitted, m: Machine<S>, c: Config<S>, d: BlockConfig<S>, n: nat)
    requires PlainFalls(code) && LiveEmission(code, succs, em) && Slotted(em)
    requires Lockstep(code, succs, em, c, d)
    requires RunRecorded(code, succs, m, c, n) && RunLands(code, em, m, c, n)
    ensures Execute(code, m, c, n).0 == ExecuteBlocks(em, m, d, n).0
    ensures Lockstep(code, succs, em, Execute(code, m, c, n).1, ExecuteBlocks(em, m, d, n).1)
  {
    AlwaysGoing(code, succs, em, m);
    SameGoing(code, succs, em, m, c, d, n);
  }

  // ----- jumps off the code -----

  /** A computed jump off the code that finds no trap stops the code but not the block functions. */
  lemma OffCode<S>(code: Code, succs: Edges, em: Emitted, m: Machine<S>, c: Config<S>, d: BlockConfig<S>)
    requires LiveEmission(code, succs, em) && c.Running? && Lockstep(code, succs, em, c, d) && !LandsAt(code, em, m, c)
    ensures Step(code, m, c).Halted? && !BlockStep(em, m, d).Stopped?
  {
    assert CodeBody(code, d.block, em.blocks[d.block]);
    assert CodeInsn(code, em.blocks[d.block][d.index]);
  }

  ghost predicate Notices<S(!new)>(code: Code, succs: Edges, em: Emitted, m: Machine<S>)
    requires ValidEmission(em)
  {
    forall c: Config<S>, d: BlockConfig<S> | c.Running? && Lockstep(code, succs, em, c, d) && StepOnEdge(code, succs, m, c) ::
      NoticesAt(code, succs, em, m, c, d)
  }

  /** A step stays in lockstep exactly when it lands. */
  ghost predicate NoticesAt<S>(code: Code, succs: Edges, em: Emitted, m: Machine<S>, c: Config<S>, d: BlockConfig<S>)
    requires ValidEmission(em) && ValidConfig(em, d) && c.Running?
  {
    if LandsAt(code, em, m, c) then Lockstep(code, succs, em, Step(code, m, c), BlockStep(em, m, d))
    else Step(code, m, c).Halted? && !BlockStep(em, m, d).Stopped?
  }

  lemma NoticesStep<S>(code: Code, succs: Edges, em: Emitted, m: Machine<S>, c: Config<S>, d: BlockConfig<S>)
    requires PlainFalls(code) && LiveEmission(code, succs, em) && Slotted(em)
    requires c.Running? && Lockstep(code, succs, em, c, d) && StepOnEdge(code, succs, m, c)
    ensures NoticesAt(code, succs, em, m, c, d)
  {
    if LandsAt(code, em, m, c) {
      StepMatches(code, succs, em, m, c, d);
    } else {
      OffCode(code, succs, em, m, c, d);
    }
  }

  lemma AlwaysNotices<S(!new)>(code: Code, succs: Edges, em: Emitted, m: Machine<S>)
    requires PlainFalls(code) && LiveEmission(code, succs, em) && Slotted(em)
    ensures Notices(code, succs, em, m)
  {
    forall c: Config<S>, d: BlockConfig<S> | c.Running? && Lockstep(code, succs, em, c, d) && StepOnEdge(code, succs, m, c)
      ensures NoticesAt(code, succs, em, m, c, d)
    {
      NoticesStep(code, succs, em, m, c, d);
    }
  }

  lemma SameTail<S>(code: Code, em: Emitted, m: Machine<S>, c: Config<S>, d: BlockConfig<S>, n: nat)
    requires ValidEmission(em) && ValidConfig(em, d) && c.Running? && d.At? && n > 0 && SameFrom(code, em, m, c, d, n)
    ensures SameFrom(code, em, m, Step(code, m, c), BlockStep(em, m, d), n - 1)
    ensures Step(code, m, c).Halted? ==> BlockStep(em, m, d).Stopped?
  {
    var next, step := Step(code, m, c), BlockStep(em, m, d);
    var t, u := Execute(code, m, next, n - 1).0, ExecuteBlocks(em, m, step, n - 1).0;
    assert ([c.pc] + t)[1..] == t && ([em.blocks[d.block][d.index].pc] + u)[1..] == u;
  }

  /** A recorded run that stays the same lands in traps only. */
  lemma {:induction false} LandsNeeded<S(!new)>(code: Code, succs: Edges, em: Emitted, m: Machine<S>,
                                                c: Config<S>, d: BlockConfig<S>, n: nat)
    requires ValidEmission(em) && Notices(code, succs, em, m) && Lockstep(code, succs, em, c, d)
    requires RunRecorded(code, succs, m, c, n) && SameFrom(code, em, m, c, d, n)
    ensures RunLands(code, em, m, c, n)
    decreases n
  {
    if n > 0 && c.Running? {
      SameTail(code, em, m, c, d, n);
      assert NoticesAt(code, succs, em, m, c, d);
      LandsNeeded(code, succs, em, m, Step(code, m, c), BlockStep(em, m, d), n - 1);
    }
  }

  /** Where all instructions that recorded runs reach are right and every block function has
      its slot, a recorded run from a block function is kept exactly when its computed jumps
      off the code find traps. */
  lemma LiveRun<S(!new)>(code: Code, succs: Edges, em: Emitted, m: Machine<S>, entry: Pc, s: S, n: nat)
    requires PlainFalls(code) && LiveEmission(code, succs, em) && Slotted(em) && entry in em.blocks
    requires RunRecorded(code, succs, m, Running(entry, s), n)
    ensures SameRun(code, em, m, entry, s, n) <==> RunLands(code, em, m, Running(entry, s), n)
  {
    LiveStart(code, succs, em, entry);
    assert Dispatched(em, entry) == Some(Block(entry));
    if RunLands(code, em, m, Running(entry, s), n) {
      SameTrace(code, succs, em, m, Running(entry, s), Dispatch(em, entry, s), n);
    } else if SameRun(code, em, m, entry, s, n) {
      AlwaysNotices(code, succs, em, m);
      LandsNeeded(code, succs, em, m, Running(entry, s), Dispatch(em, entry, s), n);
    }
  }

  // ----- faithful emissions -----

  ghost predicate FaithfulBody(code: Code, start: Pc, body: seq<IrInsn>) {
    && CodeBody(code, start, body)
    && (forall i | 0 <= i < |body| - 1 :: Continues(code, body[i].pc, body[i + 1].pc))
  }

  /** Bodies follow the code all along, and all recorded exits lead to block functions. */
  ghost predicate FaithfulEmission(code: Code, succs: Edges, em: Emitted) {
    && ValidEmission(em) && CodeEmission(code, em)
    && (forall b | b in em.blocks :: FaithfulBody(code, b, em.blocks[b]))
    && (forall b, i, q | b in em.blocks && 0 <= i < |em.blocks[b]| && q in code
          && q in Lookup(succs, em.blocks[b][i].pc) && Leaves(code, em.blocks[b], i, q) :: q in em.blocks)
  }

  lemma ContinuesRight(code: Code, succs: Edges, em: Emitted, p: Pc, next: Pc)
    requires p in code && next in code && Continues(code, p, next)
    ensures RunsOnTo(code, succs, em, p, next)
  {
  }

  lemma FaithfulIsLive(code: Code, succs: Edges, em: Emitted)
    requires FaithfulEmission(code, succs, em)
    ensures LiveEmission(code, succs, em)
  {
    forall b, i: nat | b in em.blocks && LiveTo(code, succs, em.blocks[b], i)
      ensures em.blocks[b][i].pc in code && RightAt(code, succs, em, b, i)
    {
      var body := em.blocks[b];
      assert FaithfulBody(code, b, body) && CodeInsn(code, body[i]);
      if i < |body| - 1 {
        assert CodeInsn(code, body[i + 1]);
        ContinuesRight(code, succs, em, body[i].pc, body[i + 1].pc);
      }
    }
  }

  /** A faithful emission whose block functions have their slots keeps a recorded run from a
      block function exactly when its computed jumps off the code find traps. */
  lemma FaithfulRun<S(!new)>(code: Code, succs: Edges, em: Emitted, m: Machine<S>, entry: Pc, s: S, n: nat)
    requires PlainFalls(code) && FaithfulEmission(code, succs, em) && Slotted(em) && entry in em.blocks
    requires RunRecorded(code, succs, m, Running(entry, s), n)
    ensures SameRun(code, em, m, entry, s, n) <==> RunLands(code, em, m, Running(entry, s), n)
  {
    FaithfulIsLive(code, succs, em);
    LiveRun(code, succs, em, m, entry, s, n);
  }
}
