/**
  The worklist of the control-flow analyser.
 */
module Worklist {
  import opened Sets
  import opened Code
  import opened Values
  import opened Registers
  import opened Analysis

  // ----- transfer, in place -----

  lemma CapAdd(s: set<Word>, w: Word)
    ensures Join(Cap(s), OneOf({w})) == Cap(s + {w})
  {
    SubsetSize(s, s + {w});
  }

  lemma CapGrows(a: set<Word>, b: set<Word>)
    requires a <= b && Cap(a).Top?
    ensures Cap(b).Top?
  {
    SubsetSize(a, b);
  }

  lemma ElementsPush(s: seq<Word>, k: nat)
    requires k < |s|
    ensures Elements(s[..k + 1]) == Elements(s[..k]) + {s[k]}
  {
    assert s[..k + 1] == s[..k] + [s[k]];
  }

  lemma ElementsAll(s: seq<Word>)
    ensures Elements(s[..|s|]) == Elements(s)
  {
    assert s[..|s|] == s;
  }

  /** Every value shifted by the immediate. */
  method ShiftAll(values: seq<Word>, imm: int) returns (r: RegisterValue)
    requires values != []
    ensures Canonical(r) && Abs(r) == Cap(Shift(Elements(values), imm))
  {
    r := Constant([AddSigned(values[0], imm)]);
    assert Elements(values[..1]) == {values[0]};
    assert Shift({values[0]}, imm) == Elements(r.values);
    for k := 1 to |values|
      invariant Canonical(r) && Abs(r) == Cap(Shift(Elements(values[..k]), imm))
    {
      ElementsPush(values, k);
      assert Shift(Elements(values[..k + 1]), imm) == Shift(Elements(values[..k]), imm) + {AddSigned(values[k], imm)};
      CapAdd(Shift(Elements(values[..k]), imm), AddSigned(values[k], imm));
      r := AddValue(r, AddSigned(values[k], imm));
      if r.Unknown? {
        CapGrows(Shift(Elements(values[..k + 1]), imm), Shift(Elements(values), imm));
        return;
      }
    }
    ElementsAll(values);
  }

  lemma SumsPush(a: set<Word>, x: Word, b: set<Word>, y: Word)
    ensures Sums(a + {x}, b) == Sums(a, b) + Sums({x}, b)
    ensures Sums({x}, b + {y}) == Sums({x}, b) + {Plus(x, y)}
  {
  }

  lemma FirstSum(a: seq<Word>, b: seq<Word>)
    requires a != [] && b != []
    ensures Plus(a[0], b[0]) in Sums(Elements(a), Elements(b))
  {
    assert a[0] in Elements(a) && b[0] in Elements(b);
  }

  /** What the sums of the first i values, and of value i with the first j, amount to. */
  ghost function SumsSoFar(a: seq<Word>, b: seq<Word>, i: nat, j: nat): set<Word>
    requires 0 < |a| && 0 < |b| && i <= |a| && j <= |b| && (i == |a| ==> j == 0)
  {
    Sums(Elements(a[..i]), Elements(b)) + {Plus(a[0], b[0])}
    + (if i < |a| then Sums({a[i]}, Elements(b[..j])) else {})
  }

  lemma SumsWithin(a: seq<Word>, b: seq<Word>, i: nat, j: nat)
    requires 0 < |a| && 0 < |b| && i < |a| && j <= |b|
    ensures SumsSoFar(a, b, i, j) <= Sums(Elements(a), Elements(b))
  {
    FirstSum(a, b);
    assert a[i] in Elements(a);
    SumsMonotone(Elements(a[..i]), Elements(a), Elements(b), Elements(b));
    SumsMonotone({a[i]}, Elements(a), Elements(b[..j]), Elements(b));
  }

  lemma SumsMonotone(a: set<Word>, a': set<Word>, b: set<Word>, b': set<Word>)
    requires a <= a' && b <= b'
    ensures Sums(a, b) <= Sums(a', b')
  {
  }

  lemma SumsInner(a: seq<Word>, b: seq<Word>, i: nat, j: nat)
    requires 0 < |a| && 0 < |b| && i < |a| && j < |b|
    ensures SumsSoFar(a, b, i, j + 1) == SumsSoFar(a, b, i, j) + {Plus(a[i], b[j])}
  {
    ElementsPush(b, j);
    SumsPush({}, a[i], Elements(b[..j]), b[j]);
  }

  lemma SumsOuter(a: seq<Word>, b: seq<Word>, i: nat)
    requires 0 < |a| && 0 < |b| && i < |a|
    ensures SumsSoFar(a, b, i, |b|) == SumsSoFar(a, b, i + 1, 0)
  {
    ElementsPush(a, i);
    ElementsAll(b);
    SumsPush(Elements(a[..i]), a[i], Elements(b), 0);
    if i + 1 < |a| {
      assert Elements(b[..0]) == {};
      assert Sums({a[i + 1]}, {}) == {};
    }
  }

  lemma SumsStep(a: seq<Word>, b: seq<Word>, i: nat, j: nat)
    requires 0 < |a| && 0 < |b| && i < |a| && j < |b|
    ensures Join(Cap(SumsSoFar(a, b, i, j)), OneOf({Plus(a[i], b[j])})) == Cap(SumsSoFar(a, b, i, j + 1))
    ensures a[i] == a[0] && b[j] == b[0] ==> SumsSoFar(a, b, i, j + 1) == SumsSoFar(a, b, i, j)
    ensures Cap(SumsSoFar(a, b, i, j + 1)).Top? ==> Cap(Sums(Elements(a), Elements(b))).Top?
  {
    SumsInner(a, b, i, j);
    CapAdd(SumsSoFar(a, b, i, j), Plus(a[i], b[j]));
    SumsWithin(a, b, i, j + 1);
    if Cap(SumsSoFar(a, b, i, j + 1)).Top? {
      CapGrows(SumsSoFar(a, b, i, j + 1), Sums(Elements(a), Elements(b)));
    }
  }

  /** Add the sums of value i. */
  method SumRow(a: seq<Word>, b: seq<Word>, i: nat, start: RegisterValue) returns (r: RegisterValue)
    requires a != [] && b != [] && i < |a| && Summed(a, b, i, start)
    ensures Canonical(r)
    ensures r.Constant? ==> Summed(a, b, i + 1, r)
    ensures r.Unknown? ==> start.Unknown? || Abs(r) == Cap(Sums(Elements(a), Elements(b)))
  {
    r := start;
    for j := 0 to |b|
      invariant Canonical(r) && Abs(r) == Cap(SumsSoFar(a, b, i, j))
      invariant r.Unknown? ==> start.Unknown?
    {
      SumsStep(a, b, i, j);
      if a[i] == a[0] && b[j] == b[0] {
        continue;
      }
      r := AddValue(r, Plus(a[i], b[j]));
      if r.Unknown? {
        return;
      }
    }
    SumsOuter(a, b, i);
  }

  /** All sums, the first pair being there from the start. */
  method SumAll(a: seq<Word>, b: seq<Word>) returns (r: RegisterValue)
    requires a != [] && b != []
    ensures Canonical(r) && Abs(r) == Cap(Sums(Elements(a), Elements(b)))
  {
    r := StartSum(a, b);
    for i := 0 to |a|
      invariant r.Constant? && Summed(a, b, i, r)
    {
      r := SumRow(a, b, i, r);
      if r.Unknown? {
        return;
      }
    }
    SummedAll(a, b, r);
  }

  /** r stands for the sums of the first i rows and the first sum of all. */
  ghost predicate Summed(a: seq<Word>, b: seq<Word>, i: nat, r: RegisterValue)
    requires a != [] && b != [] && i <= |a|
  {
    Canonical(r) && Abs(r) == Cap(SumsSoFar(a, b, i, 0))
  }

  lemma SummedAll(a: seq<Word>, b: seq<Word>, r: RegisterValue)
    requires a != [] && b != [] && Summed(a, b, |a|, r)
    ensures Abs(r) == Cap(Sums(Elements(a), Elements(b)))
  {
    SumsEnd(a, b);
  }

  method StartSum(a: seq<Word>, b: seq<Word>) returns (r: RegisterValue)
    requires a != [] && b != []
    ensures r.Constant? && Summed(a, b, 0, r)
  {
    r := Constant([Plus(a[0], b[0])]);
    SumsStart(a, b);
  }

  lemma SumsStart(a: seq<Word>, b: seq<Word>)
    requires a != [] && b != []
    ensures SumsSoFar(a, b, 0, 0) == Elements([Plus(a[0], b[0])])
  {
    assert Elements(a[..0]) == {} && Elements(b[..0]) == {};
  }

  lemma SumsEnd(a: seq<Word>, b: seq<Word>)
    requires a != [] && b != []
    ensures SumsSoFar(a, b, |a|, 0) == Sums(Elements(a), Elements(b))
  {
    ElementsAll(a);
    FirstSum(a, b);
  }

  lemma FirstIsLeast(values: seq<Word>)
    requires Sorted(values) && Elements(values) != {}
    ensures values != [] && values[0] == Least(Elements(values))
  {
    var w := Least(Elements(values));
    assert values[0] in Elements(values);
    var i :| 0 <= i < |values| && values[i] == w;
  }

  /** The value a load yields. */
  method LoadResult(t: Setup, d: Decoded, base: RegisterValue) returns (r: RegisterValue)
    requires d.rs1.Some? && Canonical(base)
    ensures Canonical(r) && Abs(r) == LoadedFact(t, d, Abs(base))
  {
    if d.rs1.value != 2 && base.Constant? {
      assert base.values[0] in Elements(base.values);
      FirstIsLeast(base.values);
      var raw := ReadReadonly(t.segments, AddSigned(base.values[0], d.imm), d.width);
      if raw.Some? {
        return Constant([ExtendLoaded(raw.value, d.width, d.unsigned)]);
      }
    }
    return Unknown;
  }

  /** Apply an instruction to a state. */
  method Transfer(t: Setup, pc: Word, size: nat, d: Decoded, state: RegisterState)
    requires d.Shaped() && state.Valid()
    modifies state.regs
    ensures state.Valid() && state.Known() == TransferFacts(t, pc, size, d, old(state.Known()))
  {
    if d.rd.None? {
      return;
    }
    var r: RegisterValue;
    match d.kind {
      case Lui => r := Constant([d.imm % WORD]);
      case Auipc => r := Constant([AddSigned(pc, d.imm)]);
      case Addi =>
        var base := state.Get(d.rs1.value);
        if base.Constant? {
          r := ShiftAll(base.values, d.imm);
        } else {
          r := Unknown;
        }
      case Add =>
        var lhs := state.Get(d.rs1.value);
        var rhs := state.Get(d.rs2.value);
        if lhs.Constant? && rhs.Constant? {
          r := SumAll(lhs.values, rhs.values);
        } else {
          r := Unknown;
        }
      case Move => r := state.Get(d.rs1.value);
      case Load =>
        var base := state.Get(d.rs1.value);
        r := LoadResult(t, d, base);
      case Jal => r := Constant([After(pc, size)]);
      case Jalr => r := Constant([After(pc, size)]);
      case Branch => r := Unknown;
      case Unclassified => r := Unknown;
    }
    assert Abs(r) == ResultFact(t, pc, size, d, state.Known());
    state.Set(d.rd.value, r);
  }

  // ----- successors -----

  predicate Ascending(s: seq<Word>) {
    forall i, j | 0 <= i < j < |s| :: s[i] <= s[j]
  }

  /** The split point of a sorted sequence determines the last entry not above the target. */
  lemma {:induction false} LargestLeAt(sorted: seq<Word>, target: Word, lo: nat)
    requires lo <= |sorted| && (forall i | 0 <= i < lo :: sorted[i] <= target)
    requires forall i | lo <= i < |sorted| :: target < sorted[i]
    ensures LargestLe(sorted, target) == if lo == 0 then None else Some(sorted[lo - 1])
    decreases |sorted|
  {
    if lo < |sorted| {
      LargestLeAt(sorted[..|sorted| - 1], target, lo);
    }
  }

  method BinarySearchLe(sorted: seq<Word>, target: Word) returns (found: Option<Word>)
    requires Ascending(sorted)
    ensures found == LargestLe(sorted, target)
  {
    var lo, hi := 0, |sorted|;
    while lo < hi
      invariant 0 <= lo <= hi <= |sorted|
      invariant (forall i | 0 <= i < lo :: sorted[i] <= target) && (forall i | hi <= i < |sorted| :: target < sorted[i])
    {
      var mid := (lo + hi) / 2;
      if sorted[mid] <= target {
        lo := mid + 1;
      } else {
        hi := mid;
      }
    }
    LargestLeAt(sorted, target, lo);
    found := if lo == 0 then None else Some(sorted[lo - 1]);
  }

  /** What one step of the scan finds. */
  lemma ScanFirst(t: Setup, pc: nat, budget: nat)
    requires pc < t.end && budget > 0
    ensures var rest := ScanTargets(t, pc, budget);
            if pc !in t.slots then rest == {} else
            var s := t.slots[pc];
            if s.decoded.IsReturn() || s.decoded.IsIndirectJump() then rest == {pc}
            else if s.decoded.kind.Jal? && s.decoded.rd == Some(0) then rest == {pc} + ValidTarget(t, AddSigned(pc, s.decoded.imm))
            else rest == {pc} + ScanTargets(t, pc + s.size, budget - 1)
  {
  }

  /** One more address of what is left to find. */
  lemma OneMore(seen: set<Word>, x: Word, more: set<Word>, rest: set<Word>, all: set<Word>)
    requires rest == {x} + more && seen + rest == all
    ensures seen + {x} + more == all && (more == {} ==> seen + {x} == all)
  {
  }

  method ScanJumpTableTargets(t: Setup, start: nat, limit: nat) returns (targets: set<Word>)
    ensures targets == ScanTargets(t, start, limit)
  {
    targets := {};
    var pc: nat, count: nat := start, 0;
    ghost var all, rest := ScanTargets(t, start, limit), ScanTargets(t, start, limit);
    while pc < t.end && count < limit
      invariant count <= limit && rest == ScanTargets(t, pc, limit - count) && targets + rest == all
      decreases limit - count
    {
      ScanFirst(t, pc, limit - count);
      if pc !in t.slots {
        return;
      }
      var d := t.slots[pc].decoded;
      ghost var more := if d.IsReturn() || d.IsIndirectJump() then {}
                        else if d.kind.Jal? && d.rd == Some(0) then ValidTarget(t, AddSigned(pc, d.imm))
                        else ScanTargets(t, pc + t.slots[pc].size, limit - count - 1);
      OneMore(targets, pc, more, rest, all);
      targets := targets + {pc};
      if d.IsReturn() {
        return;
      }
      if d.kind.Jal? && d.rd == Some(0) {
        var target := AddSigned(pc, d.imm);
        if target in t.slots {
          targets := targets + {target};
        }
        return;
      }
      if d.IsIndirectJump() {
        return;
      }
      pc, count, rest := pc + t.slots[pc].size, count + 1, more;
    }
  }

  /** The targets of an indirect jump whose base is known. */
  method KnownTargets(t: Setup, values: seq<Word>, imm: int) returns (targets: set<Word>)
    ensures targets == JumpTargets(t, Elements(values), imm)
  {
    targets := {};
    for k := 0 to |values|
      invariant targets == JumpTargets(t, Elements(values[..k]), imm)
    {
      ElementsPush(values, k);
      var target := ClearLow(AddSigned(values[k], imm));
      if target in t.slots {
        targets := targets + {target};
      }
    }
    ElementsAll(values);
  }

  /** The guess for an indirect jump whose base is unknown. */
  method Guess(t: Setup, pc: Word, size: nat, d: Decoded) returns (result: set<Word>, unresolved: bool)
    requires Ascending(t.sortedEntries) && d.kind.Jalr?
    ensures result == GuessTargets(t, pc, size, d)
    ensures unresolved <==> d.IsIndirectJump() && SwitchTargets(t, pc, size) == {}
  {
    result, unresolved := {}, false;
    if d.IsReturn() {
      var start := BinarySearchLe(t.sortedEntries, pc);
      if start.Some? && start.value in t.callReturns {
        result := t.callReturns[start.value];
      } else {
        result := t.returnSites;
      }
    } else if d.IsCall() {
      result := t.functionEntries + {After(pc, size)};
    } else if d.IsIndirectJump() {
      result := ScanJumpTableTargets(t, pc + size, MAX_JUMP_TABLE_SCAN);
      var start := BinarySearchLe(t.sortedEntries, pc);
      if start.Some? && start.value in t.funcTargets {
        result := result + t.funcTargets[start.value];
      }
      if result == {} {
        unresolved := true;
        result := t.functionEntries;
      }
    }
  }

  /** Targets of an indirect jump. */
  method IndirectSuccessors(t: Setup, pc: Word, size: nat, d: Decoded, state: RegisterState)
    returns (result: set<Word>, unresolved: bool)
    requires Ascending(t.sortedEntries) && state.Valid() && d.kind.Jalr?
    ensures result == SuccessorsOf(t, pc, size, d, state.Known())
    ensures unresolved <==> Unresolvable(t, pc, size, d, state.Known())
  {
    if d.rs1.Some? {
      var base := state.GetRef(d.rs1.value);
      if base.Constant? {
        result := KnownTargets(t, base.values, d.imm);
        if d.IsCall() {
          result := result + {After(pc, size)};
        }
        return result, false;
      }
    }
    result, unresolved := Guess(t, pc, size, d);
  }

  method GetSuccessors(t: Setup, pc: Word, size: nat, d: Decoded, state: RegisterState)
    returns (result: set<Word>, unresolved: bool)
    requires Ascending(t.sortedEntries) && state.Valid()
    ensures result == SuccessorsOf(t, pc, size, d, state.Known())
    ensures unresolved <==> Unresolvable(t, pc, size, d, state.Known())
  {
    result, unresolved := {}, false;
    if d.kind.Jalr? {
      result, unresolved := IndirectSuccessors(t, pc, size, d, state);
      return;
    }
    var target := AddSigned(pc, d.imm);
    match d.kind {
      case Jal =>
        if target in t.slots {
          result := {target};
        }
        if d.IsCall() {
          result := result + {After(pc, size)};
        }
      case Branch =>
        result := {After(pc, size)};
        if target in t.slots {
          result := result + {target};
        }
      case _ =>
        result := {After(pc, size)};
    }
  }
}
