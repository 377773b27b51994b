/**
  Register states: one abstract value per register, updated in place.
 */
module Registers {
  import opened Values

  predicate GoodFacts(f: seq<Meaning>) {
    |f| == NUM_REGS && f[0] == OneOf({0}) && forall r | 0 <= r < NUM_REGS :: Bounded(f[r])
  }

  /** What is known of every register; x0 is zero. */
  type Facts = f: seq<Meaning> | GoodFacts(f) witness NothingKnown()

  function NothingKnown(): (f: seq<Meaning>)
    ensures GoodFacts(f)
    ensures forall r | 0 < r < NUM_REGS :: f[r] == Top
  {
    [OneOf({0})] + seq(NUM_REGS - 1, _ => Top)
  }

  function GetFact(f: Facts, r: nat): (m: Meaning)
    ensures Bounded(m)
  {
    if r >= NUM_REGS then Top else if r == 0 then OneOf({0}) else f[r]
  }

  /** Out of range, the by-reference access yields x0. */
  function RefFact(f: Facts, r: nat): (m: Meaning)
    ensures Bounded(m)
  {
    if r >= NUM_REGS then f[0] else f[r]
  }

  function PutFact(f: Facts, r: nat, m: Meaning): Facts
    requires Bounded(m)
  {
    if r == 0 || r >= NUM_REGS then f else f[r := m]
  }

  lemma JoinBounded(a: Meaning, b: Meaning)
    requires Bounded(a) && Bounded(b)
    ensures Bounded(Join(a, b))
  {
    JoinLaws(a, b, a);
  }

  ghost function JoinFacts(f: Facts, g: Facts): (h: Facts)
    ensures forall r | 0 <= r < NUM_REGS :: h[r] == Join(f[r], g[r])
  {
    var h := seq(NUM_REGS, r requires 0 <= r < NUM_REGS => Join(f[r], g[r]));
    assert GoodFacts(h) by {
      assert f[0].words + g[0].words == {0};
      forall r | 0 <= r < NUM_REGS
        ensures Bounded(h[r])
      {
        JoinBounded(f[r], g[r]);
      }
    }
    h
  }

  ghost predicate Below(f: Facts, g: Facts) {
    forall r | 0 <= r < NUM_REGS :: Leq(f[r], g[r])
  }

  lemma BelowJoin(f: Facts, g: Facts)
    ensures Below(f, JoinFacts(f, g)) && Below(g, JoinFacts(f, g))
    ensures Below(g, f) <==> JoinFacts(f, g) == f
  {
    var h := JoinFacts(f, g);
    forall r | 0 <= r < NUM_REGS
      ensures Leq(f[r], h[r]) && Leq(g[r], h[r]) && (Leq(g[r], f[r]) <==> h[r] == f[r])
    {
      JoinLeast(f[r], g[r], g[r]);
    }
  }

  lemma BelowTransitive(f: Facts, g: Facts, h: Facts)
    requires Below(f, g) && Below(g, h)
    ensures Below(f, h)
  {
  }

  // ----- states -----

  predicate GoodRegs(s: seq<RegisterValue>) {
    |s| == NUM_REGS && s[0] == Constant([0]) && forall r | 0 <= r < NUM_REGS :: Canonical(s[r])
  }

  /** What a list of register values says. */
  ghost function AbsRegs(s: seq<RegisterValue>): (f: Facts)
    requires GoodRegs(s)
    ensures forall r | 0 <= r < NUM_REGS :: f[r] == Abs(s[r])
  {
    var f := seq(NUM_REGS, r requires 0 <= r < NUM_REGS => Abs(s[r]));
    assert GoodFacts(f) by {
      assert Elements([0]) == {0};
    }
    f
  }

  lemma SameRegs(s: seq<RegisterValue>, t: seq<RegisterValue>)
    requires GoodRegs(s) && GoodRegs(t)
    ensures AbsRegs(s) == AbsRegs(t) <==> s == t
  {
    if AbsRegs(s) == AbsRegs(t) {
      forall r | 0 <= r < NUM_REGS
        ensures s[r] == t[r]
      {
        assert AbsRegs(s)[r] == AbsRegs(t)[r];
        CanonicalUnique(s[r], t[r]);
      }
    }
  }

  /** Registers below i hold the join of both, the others what they held. */
  ghost predicate JoinedTo(was: seq<RegisterValue>, add: seq<RegisterValue>, now: seq<RegisterValue>, i: nat) {
    && |was| == NUM_REGS && |add| == NUM_REGS && |now| == NUM_REGS && 0 < i <= NUM_REGS && now[0] == was[0]
    && (forall r | 0 < r < i :: Canonical(now[r]) && Abs(now[r]) == Join(Abs(was[r]), Abs(add[r])))
    && (forall r | i <= r < NUM_REGS :: now[r] == was[r])
  }

  lemma JoinOne(was: seq<RegisterValue>, add: seq<RegisterValue>, now: seq<RegisterValue>, i: nat, v: RegisterValue)
    requires JoinedTo(was, add, now, i) && i < NUM_REGS
    requires Canonical(v) && Abs(v) == Join(Abs(was[i]), Abs(add[i]))
    ensures JoinedTo(was, add, now[i := v], i + 1)
    ensures v == now[i] ==> now[i := v] == now
    ensures v != now[i] ==> now[i := v] != was
  {
    var next := now[i := v];
    assert next[i] == v && now[i] == was[i];
    forall r | 0 < r < NUM_REGS
      ensures next[r] == if r == i then v else now[r]
    {
    }
  }

  lemma JoinedRegs(was: seq<RegisterValue>, add: seq<RegisterValue>, now: seq<RegisterValue>)
    requires GoodRegs(was) && GoodRegs(add) && GoodRegs(now)
    requires forall r | 0 < r < NUM_REGS :: Abs(now[r]) == Join(Abs(was[r]), Abs(add[r]))
    ensures AbsRegs(now) == JoinFacts(AbsRegs(was), AbsRegs(add))
  {
    var f, g := AbsRegs(was), AbsRegs(add);
    assert f[0].words + g[0].words == {0};
    forall r | 0 <= r < NUM_REGS
      ensures AbsRegs(now)[r] == JoinFacts(f, g)[r]
    {
    }
  }

  class RegisterState {
    const regs: array<RegisterValue>

    ghost predicate Valid()
      reads regs
    {
      GoodRegs(regs[..])
    }

    ghost function Known(): Facts
      requires Valid()
      reads regs
    {
      AbsRegs(regs[..])
    }

    /** Nothing is known but x0. */
    constructor ()
      ensures Valid() && fresh(regs) && Known() == NothingKnown()
    {
      regs := new RegisterValue[NUM_REGS](_ => Unknown);
      new;
      regs[0] := Constant([0]);
      assert Elements([0]) == {0};
      assert Known() == NothingKnown();
    }

    constructor Clone(other: RegisterState)
      requires other.Valid()
      ensures Valid() && fresh(regs) && Known() == other.Known()
    {
      var from := other.regs;
      regs := new RegisterValue[NUM_REGS](r requires 0 <= r < from.Length reads from => from[r]);
      new;
      assert regs[..] == other.regs[..];
    }

    method Get(reg: nat) returns (v: RegisterValue)
      requires Valid()
      ensures Canonical(v) && Abs(v) == GetFact(Known(), reg)
    {
      if reg >= NUM_REGS {
        return Unknown;
      }
      if reg == 0 {
        assert Elements([0]) == {0};
        return Constant([0]);
      }
      return regs[reg];
    }

    method GetRef(reg: nat) returns (v: RegisterValue)
      requires Valid()
      ensures Canonical(v) && Abs(v) == RefFact(Known(), reg)
    {
      return if reg >= NUM_REGS then regs[0] else regs[reg];
    }

    method Set(reg: nat, v: RegisterValue)
      requires Valid() && Canonical(v)
      modifies regs
      ensures Valid() && Known() == PutFact(old(Known()), reg, Abs(v))
    {
      if reg == 0 || reg >= NUM_REGS {
        return;
      }
      regs[reg] := v;
    }

    /** Join another state into this one; reports whether this one rose. */
    method Merge(other: RegisterState) returns (changed: bool)
      requires Valid() && other.Valid() && regs != other.regs
      modifies regs
      ensures Valid() && Known() == JoinFacts(old(Known()), other.Known())
      ensures changed <==> Known() != old(Known())
      ensures Below(old(Known()), Known())
    {
      changed := false;
      ghost var was, add := regs[..], other.regs[..];
      for i := 1 to NUM_REGS
        invariant other.regs[..] == add && JoinedTo(was, add, regs[..], i)
        invariant changed <==> regs[..] != was
      {
        var merged := MergeValues(regs[i], other.regs[i]);
        JoinOne(was, add, regs[..], i, merged);
        if merged != regs[i] {
          regs[i] := merged;
          changed := true;
        }
      }
      JoinedRegs(was, add, regs[..]);
      SameRegs(was, regs[..]);
      BelowJoin(AbsRegs(was), AbsRegs(add));
    }
  }
}
