/**
  Load-reserved and store-conditional over whole runs.
 */
module Reservation {
  import opened Bits
  import opened Ir
  import opened Atomics

  datatype Instr =
    | Lr(w: Width, rd: nat, rs1: nat)
    | Sc(w: Width, rd: nat, rs1: nat, rs2: nat)
    | Amo(op: AmoOp, w: Width, rd: nat, rs1: nat, rs2: nat)
    | StoreTo(w: Width, rs1: nat, rs2: nat, offset: int)
    | Plain

  function LiftLr(w: Width, rd: nat, rs1: nat): seq<Stmt> {
    [Write(ToResAddr, Reg(rs1)), Write(ToResValid, Imm(1)), Write(ToReg(rd), MemAddr(Reg(rs1), w, w.W4?))]
  }

  function Holds(x: Xlen, rs1: nat): Expr {
    MakeAnd(x, Binary(Ne, ResValid, Imm(0)), Binary(Eq, ResAddr, Reg(rs1)))
  }

  function LiftSc(x: Xlen, w: Width, rd: nat, rs1: nat, rs2: nat): seq<Stmt> {
    [If(Holds(x, rs1),
        [Write(ToMem(Reg(rs1), 0, w), Reg(rs2)), Write(ToReg(rd), Imm(0)), Write(ToResValid, Imm(0))],
        [Write(ToReg(rd), Imm(1)), Write(ToResValid, Imm(0))])]
  }

  function LiftStore(w: Width, rs1: nat, rs2: nat, offset: int): seq<Stmt> {
    [Write(ToMem(Reg(rs1), offset, w), Reg(rs2)), Write(ToResValid, Imm(0))]
  }

  predicate Encodable(x: Xlen, i: Instr) {
    match i
    case Lr(w, _, _) => w.W4? || (w.W8? && x.Rv64?)
    case Sc(w, _, _, _) => w.W4? || (w.W8? && x.Rv64?)
    case Amo(_, w, _, _, _) => w.W4? || (w.W8? && x.Rv64?)
    case _ => true
  }

  /** One instruction; a plain one may do anything but touch the reservation. */
  ghost predicate Runs(x: Xlen, env: Env, i: Instr, s: State, t: State) {
    match i
    case Lr(w, rd, rs1) => t == ExecAll(x, env, s, LiftLr(w, rd, rs1))
    case Sc(w, rd, rs1, rs2) => t == ExecAll(x, env, s, LiftSc(x, w, rd, rs1, rs2))
    case Amo(op, w, rd, rs1, rs2) => t == ExecAll(x, env, s, LiftAmo(x, op, w, rd, rs1, rs2))
    case StoreTo(w, rs1, rs2, offset) => t == ExecAll(x, env, s, LiftStore(w, rs1, rs2, offset))
    case Plain => GoodState(x, t) && t.resAddr == s.resAddr && t.resValid == s.resValid
  }

  ghost predicate Run(x: Xlen, env: Env, instrs: seq<Instr>, states: seq<State>) {
    && |states| == |instrs| + 1 && GoodState(x, states[0]) && Fits(x, states[0].resAddr)
    && forall i | 0 <= i < |instrs| :: Encodable(x, instrs[i]) && Runs(x, env, instrs[i], states[i], states[i + 1])
  }

  /** The latest instruction before i that touches the reservation. */
  function LastTouch(instrs: seq<Instr>, i: nat): (j: int)
    requires i <= |instrs|
    ensures -1 <= j < i
  {
    if i == 0 then -1 else if instrs[i - 1].Plain? then LastTouch(instrs, i - 1) else i - 1
  }

  // ----- single instructions -----

  lemma Unroll3(x: Xlen, env: Env, s: State, a: Stmt, b: Stmt, c: Stmt)
    ensures ExecAll(x, env, s, [a, b, c]) == Exec(x, env, Exec(x, env, Exec(x, env, s, a), b), c)
  {
    var s1 := Exec(x, env, s, a);
    var s2 := Exec(x, env, s1, b);
    assert [a, b, c][1..] == [b, c] && [b, c][1..] == [c];
    ExecOne(x, env, s2, c);
    assert ExecAll(x, env, s1, [b, c]) == ExecAll(x, env, s2, [c]);
  }

  lemma Unroll2(x: Xlen, env: Env, s: State, a: Stmt, b: Stmt)
    ensures ExecAll(x, env, s, [a, b]) == Exec(x, env, Exec(x, env, s, a), b)
  {
    assert [a, b][1..] == [b];
    ExecOne(x, env, Exec(x, env, s, a), b);
  }

  /** A load-reserved reserves the address in rs1. */
  lemma LrReserves(x: Xlen, env: Env, s: State, w: Width, rd: nat, rs1: nat)
    requires GoodState(x, s) && (w.W4? || (w.W8? && x.Rv64?))
    ensures var addr := ReadReg(s, rs1);
            ExecAll(x, env, s, LiftLr(w, rd, rs1)) ==
              s.(resAddr := addr, resValid := 1,
                 regs := WriteReg(s.regs, rd, Wrap(x, SignedOf(w, Load(x, s.mem, addr, w)))))
  {
    var addr := ReadReg(s, rs1);
    RegFits(x, env, s, rs1);
    LoadedFits(x, s.mem, addr, w);
    Unroll3(x, env, s, Write(ToResAddr, Reg(rs1)), Write(ToResValid, Imm(1)), Write(ToReg(rd), MemAddr(Reg(rs1), w, w.W4?)));
    var s1 := Exec(x, env, s, Write(ToResAddr, Reg(rs1)));
    assert s1 == s.(resAddr := addr);
    WrapFits(x, 1);
    var s2 := Exec(x, env, s1, Write(ToResValid, Imm(1)));
    assert s2 == s.(resAddr := addr, resValid := 1);
    RegFits(x, env, s2, rs1);
  }

  lemma AndTruth(x: Xlen, p: bool, q: bool)
    ensures Wrap(x, Bitwise(AndBits, Truth(p), Truth(q))) == Truth(p && q)
  {
    BitwiseStep(AndBits, Truth(p), Truth(q));
    WrapFits(x, Truth(p && q));
  }

  lemma ReservationReads(x: Xlen, env: Env, s: State, rs1: nat)
    requires GoodState(x, s) && Fits(x, s.resAddr) && Fits(x, s.resValid)
    ensures Eval(x, env, s, Binary(Ne, ResValid, Imm(0))) == Truth(s.resValid != 0)
    ensures Eval(x, env, s, Binary(Eq, ResAddr, Reg(rs1))) == Truth(s.resAddr == ReadReg(s, rs1))
  {
    RegFits(x, env, s, rs1);
    WrapFits(x, s.resAddr);
    WrapFits(x, s.resValid);
    WrapFits(x, 0);
  }

  lemma HoldsMeans(x: Xlen, env: Env, s: State, rs1: nat)
    requires GoodState(x, s) && Fits(x, s.resAddr) && Fits(x, s.resValid)
    ensures Eval(x, env, s, Holds(x, rs1)) == Truth(s.resValid != 0 && s.resAddr == ReadReg(s, rs1))
  {
    ReservationReads(x, env, s, rs1);
    AndTruth(x, s.resValid != 0, s.resAddr == ReadReg(s, rs1));
  }

  lemma ScFails(x: Xlen, env: Env, s: State, rd: nat)
    ensures ExecAll(x, env, s, [Write(ToReg(rd), Imm(1)), Write(ToResValid, Imm(0))]) ==
              s.(regs := WriteReg(s.regs, rd, 1), resValid := 0)
  {
    WrapFits(x, 1);
    WrapFits(x, 0);
    Unroll2(x, env, s, Write(ToReg(rd), Imm(1)), Write(ToResValid, Imm(0)));
  }

  lemma ScStores(x: Xlen, env: Env, s: State, w: Width, rd: nat, rs1: nat, rs2: nat)
    requires GoodState(x, s)
    ensures ExecAll(x, env, s, [Write(ToMem(Reg(rs1), 0, w), Reg(rs2)), Write(ToReg(rd), Imm(0)), Write(ToResValid, Imm(0))]) ==
              s.(mem := Store(x, s.mem, ReadReg(s, rs1), w, ReadReg(s, rs2)), regs := WriteReg(s.regs, rd, 0), resValid := 0)
  {
    RegFits(x, env, s, rs1);
    RegFits(x, env, s, rs2);
    WrapFits(x, 0);
    StoreStep(x, env, s, Reg(rs1), w, Reg(rs2));
    Unroll3(x, env, s, Write(ToMem(Reg(rs1), 0, w), Reg(rs2)), Write(ToReg(rd), Imm(0)), Write(ToResValid, Imm(0)));
  }

  /** The state a store-conditional leaves. */
  function AfterSc(x: Xlen, s: State, w: Width, rd: nat, rs1: nat, rs2: nat, holds: bool): State {
    if holds then
      s.(mem := Store(x, s.mem, ReadReg(s, rs1), w, ReadReg(s, rs2)), regs := WriteReg(s.regs, rd, 0), resValid := 0)
    else s.(regs := WriteReg(s.regs, rd, 1), resValid := 0)
  }

  lemma ScMeans(x: Xlen, env: Env, s: State, w: Width, rd: nat, rs1: nat, rs2: nat)
    requires GoodState(x, s) && Fits(x, s.resAddr) && Fits(x, s.resValid)
    ensures ExecAll(x, env, s, LiftSc(x, w, rd, rs1, rs2)) ==
              AfterSc(x, s, w, rd, rs1, rs2, s.resValid != 0 && s.resAddr == ReadReg(s, rs1))
  {
    HoldsMeans(x, env, s, rs1);
    ExecOne(x, env, s, LiftSc(x, w, rd, rs1, rs2)[0]);
    ScFails(x, env, s, rd);
    ScStores(x, env, s, w, rd, rs1, rs2);
  }

  lemma StoreClears(x: Xlen, env: Env, s: State, w: Width, rs1: nat, rs2: nat, offset: int)
    ensures var t := ExecAll(x, env, s, LiftStore(w, rs1, rs2, offset));
            t.regs == s.regs && t.resAddr == s.resAddr && t.resValid == 0
  {
    WrapFits(x, 0);
    Unroll2(x, env, s, Write(ToMem(Reg(rs1), offset, w), Reg(rs2)), Write(ToResValid, Imm(0)));
  }

  // ----- whole runs -----

  /** What the reservation is worth before instruction i. */
  ghost predicate Reserved(x: Xlen, instrs: seq<Instr>, states: seq<State>, i: nat)
    requires |states| == |instrs| + 1 && i <= |instrs|
  {
    var j := LastTouch(instrs, i);
    && GoodState(x, states[i]) && Fits(x, states[i].resAddr) && Fits(x, states[i].resValid)
    && (states[i].resValid != 0 <==> j >= 0 && instrs[j].Lr?)
    && (states[i].resValid != 0 ==> states[i].resAddr == ReadReg(states[j], instrs[j].rs1))
  }

  lemma WriteKeepsGood(x: Xlen, s: State, rd: nat, v: nat)
    requires GoodState(x, s) && Fits(x, v)
    ensures |WriteReg(s.regs, rd, v)| == 32 && forall r | 0 <= r < 32 :: Fits(x, WriteReg(s.regs, rd, v)[r])
  {
  }

  lemma StepKeeps(x: Xlen, env: Env, i: Instr, s: State, t: State)
    requires GoodState(x, s) && Fits(x, s.resAddr) && Fits(x, s.resValid) && Encodable(x, i) && Runs(x, env, i, s, t)
    ensures GoodState(x, t) && Fits(x, t.resAddr) && Fits(x, t.resValid)
    ensures i.Plain? ==> t.resAddr == s.resAddr && t.resValid == s.resValid
    ensures i.Lr? ==> t.resValid == 1 && t.resAddr == ReadReg(s, i.rs1)
    ensures i.Sc? || i.Amo? || i.StoreTo? ==> t.resValid == 0
  {
    match i
    case Lr(w, rd, rs1) =>
      LrReserves(x, env, s, w, rd, rs1);
      RegFits(x, env, s, rs1);
      WriteKeepsGood(x, s, rd, Wrap(x, SignedOf(w, Load(x, s.mem, ReadReg(s, rs1), w))));
    case Sc(w, rd, rs1, rs2) =>
      ScMeans(x, env, s, w, rd, rs1, rs2);
      WriteKeepsGood(x, s, rd, 0);
      WriteKeepsGood(x, s, rd, 1);
    case Amo(op, w, rd, rs1, rs2) =>
      AmoIsAtomic(x, env, s, op, w, rd, rs1, rs2);
      WriteKeepsGood(x, s, rd, Wrap(x, SignedOf(w, Load(x, s.mem, ReadReg(s, rs1), w))));
    case StoreTo(w, rs1, rs2, offset) => StoreClears(x, env, s, w, rs1, rs2, offset);
    case Plain =>
  }

  lemma {:induction false} ReservedThroughout(x: Xlen, env: Env, instrs: seq<Instr>, states: seq<State>, i: nat)
    requires Run(x, env, instrs, states) && states[0].resValid == 0 && i <= |instrs|
    ensures Reserved(x, instrs, states, i)
    decreases i
  {
    if i > 0 {
      ReservedThroughout(x, env, instrs, states, i - 1);
      assert Runs(x, env, instrs[i - 1], states[i - 1], states[i - 1 + 1]);
      StepKeeps(x, env, instrs[i - 1], states[i - 1], states[i]);
    }
  }

  /** From a state without reservation, a store-conditional stores and yields 0 exactly when
      the latest instruction that touched the reservation is a load-reserved of the same
      address; otherwise it leaves memory alone and yields 1. Either way the reservation is gone. */
  lemma ScExact(x: Xlen, env: Env, instrs: seq<Instr>, states: seq<State>, i: nat)
    requires Run(x, env, instrs, states) && states[0].resValid == 0 && i < |instrs| && instrs[i].Sc?
    ensures var sc, j := instrs[i], LastTouch(instrs, i);
            var holds := j >= 0 && instrs[j].Lr? && ReadReg(states[j], instrs[j].rs1) == ReadReg(states[i], sc.rs1);
            states[i + 1] == AfterSc(x, states[i], sc.w, sc.rd, sc.rs1, sc.rs2, holds)
  {
    ReservedThroughout(x, env, instrs, states, i);
    assert Runs(x, env, instrs[i], states[i], states[i + 1]);
    ScMeans(x, env, states[i], instrs[i].w, instrs[i].rd, instrs[i].rs1, instrs[i].rs2);
  }
}
