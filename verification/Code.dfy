/**
  Decoded code as the block passes and the emitter see it: a table from program
  counters to instruction sizes and lifted terminators.
 */
module Code {
  type Pc = nat

  datatype Option<+T> = None | Some(value: T)

  /** How an instruction passes control on (rvr-ir terminator). */
  datatype Terminator =
    | Fall(next: Option<Pc>)
    | Jump(target: Pc)
    | JumpDyn
    | Branch(taken: Pc, fall: Option<Pc>)
    | Exit
    | Trap
  {
    predicate IsControlFlow() {
      !Fall?
    }
  }

  datatype Insn = Insn(size: nat, term: Terminator)

  type Code = map<Pc, Insn>

  /** Successor and predecessor relations, keyed by program counter. */
  type Edges = map<Pc, set<Pc>>

  function NextPc(code: Code, p: Pc): Pc
    requires p in code
  {
    p + code[p].size
  }

  /** An explicit fall-through target names the following instruction. */
  predicate PlainFall(code: Code, p: Pc)
    requires p in code
  {
    match code[p].term
    case Fall(Some(t)) => t == NextPc(code, p)
    case Branch(_, Some(t)) => t == NextPc(code, p)
    case _ => true
  }

  ghost predicate PlainFalls(code: Code) {
    forall p | p in code :: PlainFall(code, p)
  }

  /** Sizes are those of RISC-V, instructions do not overlap. */
  ghost predicate WellFormed(code: Code) {
    && (forall p | p in code :: code[p].size in {2, 4} && PlainFall(code, p))
    && (forall p {:trigger Clear(code, p)} | p in code :: Clear(code, p))
  }

  /** The next instruction begins after the one at p. */
  ghost predicate Clear(code: Code, p: Pc)
    requires p in code
  {
    forall q | q in code && p < q :: NextPc(code, p) <= q
  }

  /** Control may pass from p to q. */
  predicate CanFlow(code: Code, p: Pc, q: Pc)
    requires p in code
  {
    match code[p].term
    case Fall(_) => q == NextPc(code, p)
    case Jump(t) => q == t
    case JumpDyn => true
    case Branch(t, _) => q == t || q == NextPc(code, p)
    case Exit => false
    case Trap => false
  }

  /** Control passes from p to q unless p is a branch that is taken. */
  predicate Continues(code: Code, p: Pc, q: Pc)
    requires p in code
  {
    match code[p].term
    case Fall(_) => q == NextPc(code, p)
    case Jump(t) => q == t
    case Branch(_, _) => q == NextPc(code, p)
    case _ => false
  }

  /** p is a branch to q. */
  predicate BranchesTo(code: Code, p: Pc, q: Pc)
    requires p in code
  {
    code[p].term.Branch? && q == code[p].term.taken
  }

  /** q is a successor the terminator of p names. */
  predicate StaticSuccessor(code: Code, p: Pc, q: Pc)
    requires p in code
  {
    Continues(code, p, q) || BranchesTo(code, p, q)
  }

  function Lookup(edges: Edges, p: Pc): set<Pc> {
    if p in edges then edges[p] else {}
  }
}
