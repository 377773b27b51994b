/**
  The control-flow analyser's transfer and successor functions, and the machine
  steps they approximate.
 */
module Analysis {
  import opened Bits
  import opened Sets
  import opened Code
  import opened Values
  import opened Registers

  datatype InstrKind = Unclassified | Lui | Auipc | Addi | Add | Move | Jal | Jalr | Load | Branch

  datatype Decoded = Decoded(kind: InstrKind, rd: Option<nat>, rs1: Option<nat>, rs2: Option<nat>,
                             imm: int, width: nat, unsigned: bool)
  {
    predicate IsControlFlow() {
      kind.Jal? || kind.Jalr? || kind.Branch?
    }

    predicate IsCall() {
      (kind.Jal? || kind.Jalr?) && rd != Some(0)
    }

    predicate IsReturn() {
      kind.Jalr? && rd == Some(0) && rs1 == Some(1)
    }

    predicate IsIndirectJump() {
      kind.Jalr? && rd == Some(0) && rs1 != Some(1)
    }

    /** The operands the decoder supplies for each kind. */
    predicate Shaped() {
      && (kind.Lui? || kind.Auipc? || kind.Jal? ==> rd.Some?)
      && (kind.Addi? || kind.Move? || kind.Load? || kind.Jalr? ==> rd.Some? && rs1.Some?)
      && (kind.Add? ==> rd.Some? && rs1.Some? && rs2.Some?)
      && (kind.Branch? ==> rd.None?)
    }

    /** Shaped, with register numbers that exist. */
    predicate Encodable() {
      && Shaped()
      && (rd.Some? ==> rd.value < NUM_REGS) && (rs1.Some? ==> rs1.value < NUM_REGS) && (rs2.Some? ==> rs2.value < NUM_REGS)
    }
  }

  // ----- read-only memory -----

  datatype RoSegment = RoSegment(start: Word, end: Word, data: seq<Byte>)

  function ReadSegment(s: RoSegment, addr: Word, size: nat): Option<Word> {
    if !(s.start <= addr < s.end) || addr + size > s.end || addr - s.start + size > |s.data| then None
    else Some(LittleEndian(s.data[addr - s.start..addr - s.start + size]) % WORD)
  }

  function ReadReadonly(segments: seq<RoSegment>, addr: Word, size: nat): Option<Word> {
    if segments == [] then None
    else
      var r := ReadSegment(segments[0], addr, size);
      if r.Some? then r else ReadReadonly(segments[1..], addr, size)
  }

  /** Sign- or zero-extension of a loaded value to 64 bits. */
  function ExtendLoaded(value: Word, width: nat, unsigned: bool): Word {
    if width == 1 then Extend(value % 0x100, 0x100, unsigned)
    else if width == 2 then Extend(value % 0x1_0000, 0x1_0000, unsigned)
    else if width == 4 then Extend(value % 0x1_0000_0000, 0x1_0000_0000, unsigned)
    else value
  }

  function Extend(low: nat, range: nat, unsigned: bool): Word
    requires low < range <= WORD
  {
    if unsigned || 2 * low < range then low else low + (WORD - range)
  }

  // ----- the table and the analyser's inputs -----

  datatype Slot = Slot(size: nat, decoded: Decoded)

  /** Decoded instructions by address, read-only memory, and the target sets found
      by the scans before the fixpoint. */
  datatype Setup = Setup(slots: map<Word, Slot>, segments: seq<RoSegment>, end: nat,
                         functionEntries: set<Word>, internalTargets: set<Word>, returnSites: set<Word>,
                         sortedEntries: seq<Word>, funcTargets: map<Word, set<Word>>, callReturns: map<Word, set<Word>>)

  function AddSigned(base: Word, imm: int): Word {
    (base + imm) % WORD
  }

  function Plus(x: Word, y: Word): Word {
    (x + y) % WORD
  }

  function After(pc: Word, size: nat): Word {
    (pc + size) % WORD
  }

  function ClearLow(w: Word): Word {
    w - w % 2
  }

  // ----- machine steps -----

  type Regs = r: seq<Word> | |r| == NUM_REGS && r[0] == 0 witness seq(NUM_REGS, _ => 0)

  function Write(regs: Regs, rd: Option<nat>, w: Word): Regs {
    if rd.None? || rd.value == 0 || rd.value >= NUM_REGS then regs else regs[rd.value := w]
  }

  /** w is a value the instruction may write. */
  predicate Computes(t: Setup, pc: Word, size: nat, d: Decoded, regs: Regs, w: Word)
    requires d.Encodable()
  {
    match d.kind
    case Lui => w == d.imm % WORD
    case Auipc => w == AddSigned(pc, d.imm)
    case Addi => w == AddSigned(regs[d.rs1.value], d.imm)
    case Add => w == Plus(regs[d.rs1.value], regs[d.rs2.value])
    case Move => w == regs[d.rs1.value]
    case Load => MayLoad(t, d, AddSigned(regs[d.rs1.value], d.imm), w)
    case Jal => w == After(pc, size)
    case Jalr => w == After(pc, size)
    case Branch => true
    case Unclassified => true
  }

  /** Read-only memory fixes what a load yields; other memory may hold anything. */
  predicate MayLoad(t: Setup, d: Decoded, addr: Word, w: Word) {
    var r := ReadReadonly(t.segments, addr, d.width);
    r.Some? ==> w == ExtendLoaded(r.value, d.width, d.unsigned)
  }

  /** q is where the instruction may go next. */
  predicate Goes(pc: Word, size: nat, d: Decoded, regs: Regs, q: Word)
    requires d.Encodable()
  {
    match d.kind
    case Jal => q == AddSigned(pc, d.imm)
    case Jalr => q == ClearLow(AddSigned(regs[d.rs1.value], d.imm))
    case Branch => q == After(pc, size) || q == AddSigned(pc, d.imm)
    case _ => q == After(pc, size)
  }

  predicate WellEncoded(t: Setup) {
    forall pc | pc in t.slots :: t.slots[pc].decoded.Encodable()
  }

  ghost predicate Steps(t: Setup, pc: Word, regs: Regs, q: Word, regs': Regs)
    requires WellEncoded(t)
  {
    && pc in t.slots
    && var s := t.slots[pc];
       && (exists w :: Computes(t, pc, s.size, s.decoded, regs, w) && regs' == Write(regs, s.decoded.rd, w))
       && Goes(pc, s.size, s.decoded, regs, q)
  }

  // ----- transfer -----

  function Shift(s: set<Word>, imm: int): set<Word> {
    set w | w in s :: AddSigned(w, imm)
  }

  function Sums(a: set<Word>, b: set<Word>): set<Word> {
    set x, y | x in a && y in b :: Plus(x, y)
  }

  /** The abstract value a load yields. */
  ghost function LoadedFact(t: Setup, d: Decoded, base: Meaning): (m: Meaning)
    requires d.rs1.Some? && Bounded(base)
    ensures Bounded(m)
  {
    if d.rs1.value == 2 || base.Top? then Top
    else
      var r := ReadReadonly(t.segments, AddSigned(Least(base.words), d.imm), d.width);
      if r.None? then Top else OneOf({ExtendLoaded(r.value, d.width, d.unsigned)})
  }

  /** The abstract value an instruction writes. */
  ghost function ResultFact(t: Setup, pc: Word, size: nat, d: Decoded, f: Facts): (m: Meaning)
    requires d.Shaped()
    ensures Bounded(m)
  {
    match d.kind
    case Lui => OneOf({d.imm % WORD})
    case Auipc => OneOf({AddSigned(pc, d.imm)})
    case Addi =>
      var base := GetFact(f, d.rs1.value);
      if base.Top? then Top else ShiftFact(base.words, d.imm)
    case Add =>
      var l, r := GetFact(f, d.rs1.value), GetFact(f, d.rs2.value);
      if l.Top? || r.Top? then Top else SumFact(l.words, r.words)
    case Move => GetFact(f, d.rs1.value)
    case Load => LoadedFact(t, d, GetFact(f, d.rs1.value))
    case Jal => OneOf({After(pc, size)})
    case Jalr => OneOf({After(pc, size)})
    case Branch => Top
    case Unclassified => Top
  }

  ghost function ShiftFact(a: set<Word>, imm: int): (m: Meaning)
    requires a != {}
    ensures m == Cap(Shift(a, imm)) && Bounded(m)
  {
    var x :| x in a;
    assert AddSigned(x, imm) in Shift(a, imm);
    Cap(Shift(a, imm))
  }

  ghost function SumFact(a: set<Word>, b: set<Word>): (m: Meaning)
    requires a != {} && b != {}
    ensures m == Cap(Sums(a, b)) && Bounded(m)
  {
    var x, y :| x in a && y in b;
    assert Plus(x, y) in Sums(a, b);
    Cap(Sums(a, b))
  }

  ghost function TransferFacts(t: Setup, pc: Word, size: nat, d: Decoded, f: Facts): Facts
    requires d.Shaped()
  {
    if d.rd.None? then f else PutFact(f, d.rd.value, ResultFact(t, pc, size, d, f))
  }

  // ----- transfer is sound -----

  ghost predicate InFacts(f: Facts, regs: Regs) {
    forall r | 0 <= r < NUM_REGS :: Contains(f[r], regs[r])
  }

  /** Every word the base may hold loads the value found for the least one. */
  ghost predicate LoadSettled(t: Setup, d: Decoded, base: Meaning)
    requires d.rs1.Some? && Bounded(base)
  {
    d.rs1.value == 2 || base.Top? ||
    var r := ReadReadonly(t.segments, AddSigned(Least(base.words), d.imm), d.width);
    r.None? || forall b | b in base.words :: LoadsAs(t, d, b, ExtendLoaded(r.value, d.width, d.unsigned))
  }

  /** A load from base b can only yield w. */
  predicate LoadsAs(t: Setup, d: Decoded, b: Word, w: Word) {
    var r := ReadReadonly(t.segments, AddSigned(b, d.imm), d.width);
    r.Some? && ExtendLoaded(r.value, d.width, d.unsigned) == w
  }

  lemma ResultSound(t: Setup, pc: Word, size: nat, d: Decoded, f: Facts, regs: Regs, w: Word)
    requires d.Encodable() && InFacts(f, regs) && Computes(t, pc, size, d, regs, w)
    requires d.kind.Load? ==> LoadSettled(t, d, GetFact(f, d.rs1.value))
    ensures Contains(ResultFact(t, pc, size, d, f), w)
  {
    match d.kind
    case Addi =>
      assert Contains(f[d.rs1.value], regs[d.rs1.value]);
    case Add =>
      assert Contains(f[d.rs1.value], regs[d.rs1.value]) && Contains(f[d.rs2.value], regs[d.rs2.value]);
    case Move =>
      assert Contains(f[d.rs1.value], regs[d.rs1.value]);
    case Load =>
      assert Contains(f[d.rs1.value], regs[d.rs1.value]);
    case _ =>
  }

  lemma TransferSound(t: Setup, pc: Word, size: nat, d: Decoded, f: Facts, regs: Regs, w: Word)
    requires d.Encodable() && InFacts(f, regs) && Computes(t, pc, size, d, regs, w)
    requires d.kind.Load? ==> LoadSettled(t, d, GetFact(f, d.rs1.value))
    ensures InFacts(TransferFacts(t, pc, size, d, f), Write(regs, d.rd, w))
  {
    ResultSound(t, pc, size, d, f, regs, w);
  }

  /** Some register file the facts allow, with b in register r. */
  lemma Inhabited(f: Facts, r: nat, b: Word) returns (regs: Regs)
    requires r < NUM_REGS && Contains(f[r], b)
    ensures InFacts(f, regs) && regs[r] == b
  {
    var pick := seq(NUM_REGS, k requires 0 <= k < NUM_REGS => if k == r then b else AnyOf(f[k]));
    assert pick[0] == 0 by {
      assert f[0] == OneOf({0});
    }
    regs := pick;
  }

  ghost function AnyOf(m: Meaning): (w: Word)
    requires Bounded(m)
    ensures Contains(m, w)
  {
    if m.Top? then 0 else var w :| w in m.words; w
  }

  /** A load's transfer covers everything the load may yield. */
  ghost predicate LoadCovered(t: Setup, pc: Word, size: nat, d: Decoded, f: Facts)
    requires d.Encodable()
  {
    forall regs: Regs, w: Word | InFacts(f, regs) && Computes(t, pc, size, d, regs, w) ::
      InFacts(TransferFacts(t, pc, size, d, f), Write(regs, d.rd, w))
  }

  lemma LoadNeedsSettled(t: Setup, pc: Word, size: nat, d: Decoded, f: Facts, b: Word, e: Word)
    requires d.Encodable() && d.kind.Load? && d.rd.value > 0 && LoadCovered(t, pc, size, d, f)
    requires Contains(GetFact(f, d.rs1.value), b) && ResultFact(t, pc, size, d, f) == OneOf({e})
    ensures LoadsAs(t, d, b, e)
  {
    var regs := Inhabited(f, d.rs1.value, b);
    var r := ReadReadonly(t.segments, AddSigned(b, d.imm), d.width);
    var w := if r.Some? then ExtendLoaded(r.value, d.width, d.unsigned) else (e + 1) % WORD;
    assert Computes(t, pc, size, d, regs, w);
    assert InFacts(TransferFacts(t, pc, size, d, f), Write(regs, d.rd, w));
    assert Write(regs, d.rd, w)[d.rd.value] == w;
    assert TransferFacts(t, pc, size, d, f)[d.rd.value] == OneOf({e});
    assert w == e;
  }

  /** The transfer of a load, which looks at the least base only, is sound exactly
      when every possible base loads the same constant. */
  lemma LoadExact(t: Setup, pc: Word, size: nat, d: Decoded, f: Facts)
    requires d.Encodable() && d.kind.Load? && d.rd.value > 0
    ensures LoadCovered(t, pc, size, d, f) <==> LoadSettled(t, d, GetFact(f, d.rs1.value))
  {
    var base := GetFact(f, d.rs1.value);
    if LoadSettled(t, d, base) {
      forall regs: Regs, w: Word | InFacts(f, regs) && Computes(t, pc, size, d, regs, w)
        ensures InFacts(TransferFacts(t, pc, size, d, f), Write(regs, d.rd, w))
      {
        TransferSound(t, pc, size, d, f, regs, w);
      }
    } else if LoadCovered(t, pc, size, d, f) {
      var r := ReadReadonly(t.segments, AddSigned(Least(base.words), d.imm), d.width);
      var e := ExtendLoaded(r.value, d.width, d.unsigned);
      var b :| b in base.words && !LoadsAs(t, d, b, e);
      LoadNeedsSettled(t, pc, size, d, f, b, e);
    }
  }

  // ----- transfer is the best there is -----

  /** m covers every word the instruction may write. */
  ghost predicate CoversResults(t: Setup, pc: Word, size: nat, d: Decoded, f: Facts, m: Meaning)
    requires d.Encodable()
  {
    forall regs: Regs, w: Word | InFacts(f, regs) && Computes(t, pc, size, d, regs, w) :: Contains(m, w)
  }

  lemma AllWords(m: Meaning)
    requires Bounded(m) && forall w: Word :: Contains(m, w)
    ensures m.Top?
  {
    if m.OneOf? {
      var some: seq<Word> := seq(MAX_VALUES + 1, i requires 0 <= i < MAX_VALUES + 1 => i);
      SortedSize(some);
      assert forall w | w in Elements(some) :: Contains(m, w);
      SubsetSize(Elements(some), m.words);
    }
  }

  /** Some register file the facts allow, with a and b in two registers. */
  lemma InhabitedBoth(f: Facts, r: nat, a: Word, q: nat, b: Word) returns (regs: Regs)
    requires r < NUM_REGS && q < NUM_REGS && r != q && Contains(f[r], a) && Contains(f[q], b)
    ensures InFacts(f, regs) && regs[r] == a && regs[q] == b
  {
    var pick := Inhabited(f, r, a);
    assert q == 0 ==> f[0] == OneOf({0});
    regs := pick[q := b];
  }

  /** What may be in rs1 is covered, one operation later. */
  lemma AddiCovered(t: Setup, pc: Word, size: nat, d: Decoded, f: Facts, m: Meaning, a: Word)
    requires d.Encodable() && d.kind.Addi? && CoversResults(t, pc, size, d, f, m) && Contains(f[d.rs1.value], a)
    ensures Contains(m, AddSigned(a, d.imm))
  {
    var regs := Inhabited(f, d.rs1.value, a);
    assert Computes(t, pc, size, d, regs, AddSigned(a, d.imm));
  }

  lemma AddCovered(t: Setup, pc: Word, size: nat, d: Decoded, f: Facts, m: Meaning, a: Word, b: Word)
    requires d.Encodable() && d.kind.Add? && d.rs1 != d.rs2 && CoversResults(t, pc, size, d, f, m)
    requires Contains(f[d.rs1.value], a) && Contains(f[d.rs2.value], b)
    ensures Contains(m, Plus(a, b))
  {
    var regs := InhabitedBoth(f, d.rs1.value, a, d.rs2.value, b);
    assert Computes(t, pc, size, d, regs, Plus(a, b));
  }

  lemma MoveCovered(t: Setup, pc: Word, size: nat, d: Decoded, f: Facts, m: Meaning, a: Word)
    requires d.Encodable() && d.kind.Move? && CoversResults(t, pc, size, d, f, m) && Contains(f[d.rs1.value], a)
    ensures Contains(m, a)
  {
    var regs := Inhabited(f, d.rs1.value, a);
    assert Computes(t, pc, size, d, regs, a);
  }

  lemma AnyCovered(t: Setup, pc: Word, size: nat, d: Decoded, f: Facts, m: Meaning, w: Word)
    requires d.Encodable() && CoversResults(t, pc, size, d, f, m)
    requires forall regs: Regs :: Computes(t, pc, size, d, regs, w)
    ensures Contains(m, w)
  {
    var regs := Inhabited(f, 0, 0);
    assert Computes(t, pc, size, d, regs, w);
  }

  /** Every word is the sum of a known word and another one. */
  lemma Difference(a: Word, w: Word, imm: int)
    ensures AddSigned(AddSigned(w, -imm), imm) == w
    ensures Plus(a, AddSigned(w, WORD - a)) == w && Plus(AddSigned(w, WORD - a), a) == w
  {
  }

  lemma AddiBest(t: Setup, pc: Word, size: nat, d: Decoded, f: Facts, m: Meaning)
    requires d.Encodable() && d.kind.Addi? && Bounded(m) && CoversResults(t, pc, size, d, f, m)
    ensures Leq(ResultFact(t, pc, size, d, f), m)
  {
    forall a: Word | Contains(f[d.rs1.value], a)
      ensures Contains(m, AddSigned(a, d.imm))
    {
      AddiCovered(t, pc, size, d, f, m, a);
    }
    if f[d.rs1.value].Top? {
      forall w: Word
        ensures Contains(m, w)
      {
        Difference(0, w, d.imm);
        assert Contains(f[d.rs1.value], AddSigned(w, -d.imm));
      }
      AllWords(m);
    } else if m.OneOf? {
      SubsetSize(Shift(f[d.rs1.value].words, d.imm), m.words);
    }
  }

  lemma AddBest(t: Setup, pc: Word, size: nat, d: Decoded, f: Facts, m: Meaning)
    requires d.Encodable() && d.kind.Add? && d.rs1 != d.rs2 && Bounded(m) && CoversResults(t, pc, size, d, f, m)
    ensures Leq(ResultFact(t, pc, size, d, f), m)
  {
    var l, r := f[d.rs1.value], f[d.rs2.value];
    if l.Top? || r.Top? {
      var a := AnyOf(if l.Top? then r else l);
      forall w: Word
        ensures Contains(m, w)
      {
        Difference(a, w, 0);
        if l.Top? {
          AddCovered(t, pc, size, d, f, m, AddSigned(w, WORD - a), a);
        } else {
          AddCovered(t, pc, size, d, f, m, a, AddSigned(w, WORD - a));
        }
      }
      AllWords(m);
    } else if m.OneOf? {
      forall a, b | a in l.words && b in r.words
        ensures Plus(a, b) in m.words
      {
        AddCovered(t, pc, size, d, f, m, a, b);
      }
      SubsetSize(Sums(l.words, r.words), m.words);
    }
  }

  lemma AnythingBest(t: Setup, pc: Word, size: nat, d: Decoded, f: Facts, m: Meaning)
    requires d.Encodable() && (d.kind.Branch? || d.kind.Unclassified?)
    requires Bounded(m) && CoversResults(t, pc, size, d, f, m)
    ensures m.Top?
  {
    forall w: Word
      ensures Contains(m, w)
    {
      AnyCovered(t, pc, size, d, f, m, w);
    }
    AllWords(m);
  }

  /** The written fact is below every fact that covers what the instruction may write.
      A load looks at one base only; adding a register to itself forgets that both
      operands are equal. */
  lemma ResultBest(t: Setup, pc: Word, size: nat, d: Decoded, f: Facts, m: Meaning)
    requires d.Encodable() && !d.kind.Load? && (d.kind.Add? ==> d.rs1 != d.rs2)
    requires Bounded(m) && CoversResults(t, pc, size, d, f, m)
    ensures Leq(ResultFact(t, pc, size, d, f), m)
  {
    match d.kind
    case Addi => AddiBest(t, pc, size, d, f, m);
    case Add => AddBest(t, pc, size, d, f, m);
    case Move =>
      forall a: Word | Contains(f[d.rs1.value], a)
        ensures Contains(m, a)
      {
        MoveCovered(t, pc, size, d, f, m, a);
      }
      if f[d.rs1.value].Top? {
        AllWords(m);
      } else {
        assert forall a | a in f[d.rs1.value].words :: Contains(m, a);
      }
    case Lui => AnyCovered(t, pc, size, d, f, m, d.imm % WORD);
    case Auipc => AnyCovered(t, pc, size, d, f, m, AddSigned(pc, d.imm));
    case Jal => AnyCovered(t, pc, size, d, f, m, After(pc, size));
    case Jalr => AnyCovered(t, pc, size, d, f, m, After(pc, size));
    case Branch => AnythingBest(t, pc, size, d, f, m);
    case Unclassified => AnythingBest(t, pc, size, d, f, m);
  }

  // ----- successors -----

  function JumpTargets(t: Setup, bases: set<Word>, imm: int): set<Word> {
    set w | w in bases && ClearLow(AddSigned(w, imm)) in t.slots :: ClearLow(AddSigned(w, imm))
  }

  /** The last entry not above pc. */
  function LargestLe(sorted: seq<Word>, pc: Word): Option<Word> {
    if sorted == [] then None
    else if sorted[|sorted| - 1] <= pc then Some(sorted[|sorted| - 1])
    else LargestLe(sorted[..|sorted| - 1], pc)
  }

  const MAX_JUMP_TABLE_SCAN: nat := 256

  /** The instructions from pc up to a terminator, at most `budget` of them, and the
      target of a closing jump. */
  function ScanTargets(t: Setup, pc: nat, budget: nat): set<Word>
    decreases budget
  {
    if pc >= t.end || budget == 0 || pc !in t.slots then {}
    else
      var s := t.slots[pc];
      if s.decoded.IsReturn() || s.decoded.IsIndirectJump() then {pc}
      else if s.decoded.kind.Jal? && s.decoded.rd == Some(0) then
        {pc} + ValidTarget(t, AddSigned(pc, s.decoded.imm))
      else {pc} + ScanTargets(t, pc + s.size, budget - 1)
  }

  function ValidTarget(t: Setup, q: Word): set<Word> {
    if q in t.slots then {q} else {}
  }

  function LinkTarget(pc: Word, size: nat, d: Decoded): set<Word> {
    if d.IsCall() then {After(pc, size)} else {}
  }

  function ReturnTargets(t: Setup, pc: Word): set<Word> {
    var start := LargestLe(t.sortedEntries, pc);
    if start.Some? && start.value in t.callReturns then t.callReturns[start.value] else t.returnSites
  }

  function FunctionTargets(t: Setup, pc: Word): set<Word> {
    var start := LargestLe(t.sortedEntries, pc);
    if start.Some? && start.value in t.funcTargets then t.funcTargets[start.value] else {}
  }

  function SwitchTargets(t: Setup, pc: Word, size: nat): set<Word> {
    ScanTargets(t, pc + size, MAX_JUMP_TABLE_SCAN) + FunctionTargets(t, pc)
  }

  /** The guess for a jump whose base is not known. */
  function GuessTargets(t: Setup, pc: Word, size: nat, d: Decoded): set<Word> {
    if d.IsReturn() then ReturnTargets(t, pc)
    else if d.IsCall() then t.functionEntries + {After(pc, size)}
    else if !d.IsIndirectJump() then {}
    else if SwitchTargets(t, pc, size) != {} then SwitchTargets(t, pc, size)
    else t.functionEntries
  }

  predicate Resolved(d: Decoded, f: Facts) {
    d.kind.Jalr? && d.rs1.Some? && RefFact(f, d.rs1.value).OneOf?
  }

  predicate Unresolvable(t: Setup, pc: Word, size: nat, d: Decoded, f: Facts) {
    d.IsIndirectJump() && !Resolved(d, f) && SwitchTargets(t, pc, size) == {}
  }

  function SuccessorsOf(t: Setup, pc: Word, size: nat, d: Decoded, f: Facts): set<Word> {
    match d.kind
    case Jal => ValidTarget(t, AddSigned(pc, d.imm)) + LinkTarget(pc, size, d)
    case Jalr =>
      if Resolved(d, f) then JumpTargets(t, RefFact(f, d.rs1.value).words, d.imm) + LinkTarget(pc, size, d)
      else GuessTargets(t, pc, size, d)
    case Branch => {After(pc, size)} + ValidTarget(t, AddSigned(pc, d.imm))
    case _ => {After(pc, size)}
  }

  /** Every transfer to an instruction is among the successors, if the base of an
      indirect jump is known. */
  lemma SuccessorsSound(t: Setup, pc: Word, size: nat, d: Decoded, f: Facts, regs: Regs, q: Word)
    requires d.Encodable() && InFacts(f, regs) && Goes(pc, size, d, regs, q) && q in t.slots
    requires d.kind.Jalr? ==> Resolved(d, f)
    ensures q in SuccessorsOf(t, pc, size, d, f)
  {
    if d.kind.Jalr? {
      assert Contains(f[d.rs1.value], regs[d.rs1.value]);
    }
  }

  /** Every successor is where some register file leads, or the return site of a call. */
  lemma SuccessorsReached(t: Setup, pc: Word, size: nat, d: Decoded, f: Facts, q: Word) returns (regs: Regs)
    requires d.Encodable() && (d.kind.Jalr? ==> Resolved(d, f)) && q in SuccessorsOf(t, pc, size, d, f)
    ensures InFacts(f, regs) && (Goes(pc, size, d, regs, q) || (d.IsCall() && q == After(pc, size)))
  {
    if d.kind.Jalr? && q !in LinkTarget(pc, size, d) {
      var b :| b in f[d.rs1.value].words && q == ClearLow(AddSigned(b, d.imm));
      regs := Inhabited(f, d.rs1.value, b);
    } else {
      regs := Inhabited(f, 0, 0);
    }
  }

  // ----- whole runs -----

  /** Facts and edges no further round of the analysis would change. */
  ghost predicate Settled(t: Setup, facts: map<Word, Facts>, succs: map<Word, set<Word>>, pc: Word)
    requires WellEncoded(t)
  {
    pc in facts && pc in t.slots ==>
      var s := t.slots[pc];
      var out := TransferFacts(t, pc, s.size, s.decoded, facts[pc]);
      && pc in succs
      && forall q | q in SuccessorsOf(t, pc, s.size, s.decoded, facts[pc]) ::
           q in succs[pc] && q in facts && Below(out, facts[q])
  }

  /** An address of an instruction, and edges the successor function allows. */
  ghost predicate Explained(t: Setup, pc: Word, edges: set<Word>) {
    pc in t.slots && forall q | q in edges :: exists f: Facts :: q in SuccessorsOf(t, pc, t.slots[pc].size, t.slots[pc].decoded, f)
  }

  ghost predicate Seeded(t: Setup, facts: map<Word, Facts>) {
    forall pc | pc in t.functionEntries + t.internalTargets :: pc in facts && Below(NothingKnown(), facts[pc])
  }

  ghost predicate PostFixpoint(t: Setup, facts: map<Word, Facts>, succs: map<Word, set<Word>>)
    requires WellEncoded(t)
  {
    && Seeded(t, facts)
    && (forall pc :: Settled(t, facts, succs, pc))
    && (forall pc | pc in succs :: Explained(t, pc, succs[pc]))
  }

  /** The analyser's limits: indirect jumps have a known base and loads are settled. */
  ghost predicate Tractable(t: Setup, facts: map<Word, Facts>, pc: Word)
    requires WellEncoded(t)
  {
    pc in t.slots && pc in facts ==>
      var d := t.slots[pc].decoded;
      && (d.kind.Jalr? ==> Resolved(d, facts[pc]))
      && (d.kind.Load? ==> LoadSettled(t, d, GetFact(facts[pc], d.rs1.value)))
  }

  /** A run: addresses and registers, each step taken by the machine. */
  ghost predicate Run(t: Setup, pcs: seq<Word>, files: seq<Regs>)
    requires WellEncoded(t)
  {
    && |pcs| == |files| > 0
    && forall i | 0 <= i < |pcs| - 1 :: Steps(t, pcs[i], files[i], pcs[i + 1], files[i + 1])
  }

  lemma StepSound(t: Setup, facts: map<Word, Facts>, succs: map<Word, set<Word>>, pc: Word, regs: Regs, q: Word, regs': Regs)
    requires WellEncoded(t) && Settled(t, facts, succs, pc) && Tractable(t, facts, pc)
    requires pc in facts && InFacts(facts[pc], regs) && Steps(t, pc, regs, q, regs') && q in t.slots
    ensures pc in succs && q in succs[pc] && q in facts && InFacts(facts[q], regs')
  {
    var s := t.slots[pc];
    var w :| Computes(t, pc, s.size, s.decoded, regs, w) && regs' == Write(regs, s.decoded.rd, w);
    SuccessorsSound(t, pc, s.size, s.decoded, facts[pc], regs, q);
    TransferSound(t, pc, s.size, s.decoded, facts[pc], regs, w);
    BelowKeeps(TransferFacts(t, pc, s.size, s.decoded, facts[pc]), facts[q], regs');
  }

  lemma BelowKeeps(f: Facts, g: Facts, regs: Regs)
    requires Below(f, g) && InFacts(f, regs)
    ensures InFacts(g, regs)
  {
    forall r | 0 <= r < NUM_REGS
      ensures Contains(g[r], regs[r])
    {
      assert Leq(f[r], g[r]) && Contains(f[r], regs[r]);
    }
  }

  lemma NothingKnownHolds(regs: Regs)
    ensures InFacts(NothingKnown(), regs)
  {
  }

  /** On every run from a seeded address, with any registers, the registers stay within
      the facts of their address and every transfer is a recorded edge. */
  lemma {:induction false} RunSound(t: Setup, facts: map<Word, Facts>, succs: map<Word, set<Word>>,
                                    pcs: seq<Word>, files: seq<Regs>, i: nat)
    requires WellEncoded(t) && PostFixpoint(t, facts, succs) && Run(t, pcs, files)
    requires pcs[0] in t.functionEntries + t.internalTargets && i < |pcs|
    requires forall k | 0 <= k <= i :: pcs[k] in t.slots
    requires forall k | 0 <= k < i :: Tractable(t, facts, pcs[k])
    ensures pcs[i] in facts && InFacts(facts[pcs[i]], files[i])
    ensures i > 0 ==> pcs[i - 1] in succs && pcs[i] in succs[pcs[i - 1]]
    decreases i
  {
    if i == 0 {
      NothingKnownHolds(files[0]);
      BelowKeeps(NothingKnown(), facts[pcs[0]], files[0]);
    } else {
      RunSound(t, facts, succs, pcs, files, i - 1);
      assert Settled(t, facts, succs, pcs[i - 1]);
      assert Steps(t, pcs[i - 1], files[i - 1], pcs[i - 1 + 1], files[i - 1 + 1]);
      StepSound(t, facts, succs, pcs[i - 1], files[i - 1], pcs[i], files[i]);
    }
  }
}
