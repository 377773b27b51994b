/**
  Abstract register values: capped, sorted sets of constants.
 */
module Values {
  import opened Sets

  const WORD: nat := 0x1_0000_0000_0000_0000
  const MAX_VALUES: nat := 16
  const NUM_REGS: nat := 32

  type Word = w: nat | w < WORD

  datatype RegisterValue = Unknown | Constant(values: seq<Word>)

  /** Strictly increasing. */
  predicate Sorted(s: seq<Word>) {
    forall i, j | 0 <= i < j < |s| :: s[i] < s[j]
  }

  predicate Canonical(v: RegisterValue) {
    v.Constant? ==> Sorted(v.values) && 1 <= |v.values| <= MAX_VALUES
  }

  /** The set a value stands for; Top is every word. */
  datatype Meaning = Top | OneOf(words: set<Word>)

  function Elements(s: seq<Word>): (r: set<Word>)
    ensures forall w :: w in r <==> w in s
  {
    set i | 0 <= i < |s| :: s[i]
  }


  /** Sets of more than MAX_VALUES words degrade to Top. */
  function Cap(s: set<Word>): Meaning {
    if |s| > MAX_VALUES then Top else OneOf(s)
  }

  function Join(a: Meaning, b: Meaning): Meaning {
    if a.Top? || b.Top? then Top else Cap(a.words + b.words)
  }

  predicate Leq(a: Meaning, b: Meaning) {
    b.Top? || (a.OneOf? && a.words <= b.words)
  }

  predicate Contains(m: Meaning, w: Word) {
    m.Top? || w in m.words
  }

  function Abs(v: RegisterValue): (m: Meaning)
    ensures Canonical(v) ==> Bounded(m)
  {
    match v
    case Unknown => Top
    case Constant(values) =>
      assert Canonical(v) ==> Bounded(OneOf(Elements(values))) by {
        if Canonical(v) {
          SortedSize(values);
        }
      }
      OneOf(Elements(values))
  }

  /** Meanings of canonical values. */
  predicate Bounded(m: Meaning) {
    m.OneOf? ==> m.words != {} && |m.words| <= MAX_VALUES
  }

  // ----- sorted sequences and their sets -----

  lemma {:induction false} SortedSize(s: seq<Word>)
    requires Sorted(s)
    ensures |Elements(s)| == |s|
    decreases |s|
  {
    if s != [] {
      var init := s[..|s| - 1];
      SortedSize(init);
      assert Elements(s) == Elements(init) + {s[|s| - 1]};
      assert s[|s| - 1] !in Elements(init);
    }
  }

  /** A set has one sorted sequence. */
  lemma {:induction false} SortedUnique(s: seq<Word>, t: seq<Word>)
    requires Sorted(s) && Sorted(t) && Elements(s) == Elements(t)
    ensures s == t
    decreases |s|
  {
    SortedSize(s);
    SortedSize(t);
    if s != [] {
      var a, b := s[|s| - 1], t[|t| - 1];
      assert a in Elements(t) && b in Elements(s);
      assert a == b;
      WithoutLast(s);
      WithoutLast(t);
      SortedUnique(s[..|s| - 1], t[..|t| - 1]);
      assert s == s[..|s| - 1] + [a] && t == t[..|t| - 1] + [b];
    }
  }

  lemma WithoutLast(s: seq<Word>)
    requires Sorted(s) && s != []
    ensures Sorted(s[..|s| - 1]) && Elements(s[..|s| - 1]) == Elements(s) - {s[|s| - 1]}
  {
    var init := s[..|s| - 1];
    forall w | w in Elements(s) && w != s[|s| - 1]
      ensures w in Elements(init)
    {
      var i :| 0 <= i < |s| && s[i] == w;
      assert init[i] == w;
    }
  }

  /** Canonical values are determined by what they stand for. */
  lemma CanonicalUnique(a: RegisterValue, b: RegisterValue)
    requires Canonical(a) && Canonical(b)
    ensures Abs(a) == Abs(b) <==> a == b
  {
    if a.Constant? && b.Constant? && Abs(a) == Abs(b) {
      SortedUnique(a.values, b.values);
    }
  }

  // ----- lattice laws -----

  lemma JoinLaws(a: Meaning, b: Meaning, c: Meaning)
    requires Bounded(a) && Bounded(b) && Bounded(c)
    ensures Join(a, b) == Join(b, a)
    ensures Join(a, a) == a
    ensures Join(Join(a, b), c) == Join(a, Join(b, c))
    ensures Bounded(Join(a, b))
  {
    if a.OneOf? && b.OneOf? {
      assert a.words + b.words == b.words + a.words;
      var x :| x in a.words;
      assert x in a.words + b.words;
    }
    if a.OneOf? {
      assert a.words + a.words == a.words;
    }
    if a.OneOf? && b.OneOf? && c.OneOf? {
      var all := a.words + b.words + c.words;
      assert all == a.words + (b.words + c.words);
      SubsetSize(a.words + b.words, all);
      SubsetSize(b.words + c.words, all);
    }
  }

  /** Join is the least upper bound. */
  lemma JoinLeast(a: Meaning, b: Meaning, c: Meaning)
    requires Bounded(a) && Bounded(b) && Bounded(c)
    ensures Leq(a, Join(a, b)) && Leq(b, Join(a, b))
    ensures Leq(a, c) && Leq(b, c) ==> Leq(Join(a, b), c)
    ensures Leq(b, a) <==> Join(a, b) == a
  {
    if a.OneOf? && b.OneOf? {
      if b.words <= a.words {
        assert a.words + b.words == a.words;
      }
      if c.OneOf? && a.words <= c.words && b.words <= c.words {
        SubsetSize(a.words + b.words, c.words);
      }
    }
  }

  // ----- the two-pointer union -----

  predicate LastBelow(s: seq<Word>, w: Word) {
    s != [] ==> s[|s| - 1] < w
  }

  /** `merged` is the sorted union of the first i and j elements, below what is to come. */
  ghost predicate MergedTo(a: seq<Word>, b: seq<Word>, i: nat, j: nat, merged: seq<Word>) {
    && i <= |a| && j <= |b|
    && Sorted(merged)
    && Elements(merged) == Elements(a[..i]) + Elements(b[..j])
    && (i < |a| ==> LastBelow(merged, a[i]))
    && (j < |b| ==> LastBelow(merged, b[j]))
  }

  lemma TakeOne(a: seq<Word>, i: nat)
    requires i < |a|
    ensures Elements(a[..i + 1]) == Elements(a[..i]) + {a[i]}
  {
    assert a[..i + 1] == a[..i] + [a[i]];
  }

  lemma PushLarger(merged: seq<Word>, w: Word)
    requires Sorted(merged) && LastBelow(merged, w)
    ensures Sorted(merged + [w]) && Elements(merged + [w]) == Elements(merged) + {w}
  {
    forall x | x in merged + [w]
      ensures x in Elements(merged) + {w}
    {
    }
    assert (merged + [w])[|merged|] == w;
  }

  lemma PushLeft(a: seq<Word>, b: seq<Word>, i: nat, j: nat, merged: seq<Word>)
    requires Sorted(a) && MergedTo(a, b, i, j, merged) && i < |a| && (j < |b| ==> a[i] < b[j])
    ensures MergedTo(a, b, i + 1, j, merged + [a[i]])
  {
    PushLarger(merged, a[i]);
    TakeOne(a, i);
  }

  lemma PushRight(a: seq<Word>, b: seq<Word>, i: nat, j: nat, merged: seq<Word>)
    requires Sorted(b) && MergedTo(a, b, i, j, merged) && j < |b| && (i < |a| ==> b[j] < a[i])
    ensures MergedTo(a, b, i, j + 1, merged + [b[j]])
  {
    PushLarger(merged, b[j]);
    TakeOne(b, j);
  }

  lemma PushBoth(a: seq<Word>, b: seq<Word>, i: nat, j: nat, merged: seq<Word>)
    requires Sorted(a) && Sorted(b) && MergedTo(a, b, i, j, merged) && i < |a| && j < |b| && a[i] == b[j]
    ensures MergedTo(a, b, i + 1, j + 1, merged + [a[i]])
  {
    PushLarger(merged, a[i]);
    TakeOne(a, i);
    TakeOne(b, j);
  }

  /** Too many elements so far are too many in the end. */
  lemma Overflow(a: seq<Word>, b: seq<Word>, i: nat, j: nat, merged: seq<Word>)
    requires MergedTo(a, b, i, j, merged) && |merged| > MAX_VALUES
    ensures |Elements(a) + Elements(b)| > MAX_VALUES
  {
    SortedSize(merged);
    assert Elements(a[..i]) <= Elements(a) && Elements(b[..j]) <= Elements(b);
    SubsetSize(Elements(merged), Elements(a) + Elements(b));
  }

  lemma MergedAll(a: seq<Word>, b: seq<Word>, merged: seq<Word>)
    requires MergedTo(a, b, |a|, |b|, merged)
    ensures Elements(merged) == Elements(a) + Elements(b) && |Elements(merged)| == |merged|
  {
    SortedSize(merged);
    assert a[..|a|] == a && b[..|b|] == b;
  }

  /** The rest of both sequences, once one of them is used up. */
  method Drain(a: seq<Word>, b: seq<Word>, i0: nat, j0: nat, start: seq<Word>) returns (fits: bool, merged: seq<Word>)
    requires Sorted(a) && Sorted(b) && MergedTo(a, b, i0, j0, start) && |start| <= MAX_VALUES && (i0 == |a| || j0 == |b|)
    ensures fits <==> |Elements(a) + Elements(b)| <= MAX_VALUES
    ensures fits ==> Sorted(merged) && Elements(merged) == Elements(a) + Elements(b) && |merged| <= MAX_VALUES
  {
    var i, j := i0, j0;
    merged := start;
    while i < |a|
      invariant MergedTo(a, b, i, j, merged) && |merged| <= MAX_VALUES
      invariant i < |a| ==> j == |b|
    {
      PushLeft(a, b, i, j, merged);
      merged, i := merged + [a[i]], i + 1;
      if |merged| > MAX_VALUES {
        Overflow(a, b, i, j, merged);
        return false, merged;
      }
    }
    while j < |b|
      invariant MergedTo(a, b, i, j, merged) && |merged| <= MAX_VALUES && i == |a|
    {
      PushRight(a, b, i, j, merged);
      merged, j := merged + [b[j]], j + 1;
      if |merged| > MAX_VALUES {
        Overflow(a, b, i, j, merged);
        return false, merged;
      }
    }
    MergedAll(a, b, merged);
    fits := true;
  }

  /** The sorted union, taking the smaller head of both at a time; gives up beyond MAX_VALUES. */
  method UnionSorted(a: seq<Word>, b: seq<Word>) returns (fits: bool, merged: seq<Word>)
    requires Sorted(a) && Sorted(b)
    ensures fits <==> |Elements(a) + Elements(b)| <= MAX_VALUES
    ensures fits ==> Sorted(merged) && Elements(merged) == Elements(a) + Elements(b) && |merged| <= MAX_VALUES
  {
    merged := [];
    var i, j := 0, 0;
    while i < |a| && j < |b|
      invariant MergedTo(a, b, i, j, merged) && |merged| <= MAX_VALUES
    {
      if a[i] == b[j] {
        PushBoth(a, b, i, j, merged);
        merged, i, j := merged + [a[i]], i + 1, j + 1;
      } else if a[i] < b[j] {
        PushLeft(a, b, i, j, merged);
        merged, i := merged + [a[i]], i + 1;
      } else {
        PushRight(a, b, i, j, merged);
        merged, j := merged + [b[j]], j + 1;
      }
      if |merged| > MAX_VALUES {
        Overflow(a, b, i, j, merged);
        return false, merged;
      }
    }
    fits, merged := Drain(a, b, i, j, merged);
  }

  /** The union of two values. */
  method MergeValues(a: RegisterValue, b: RegisterValue) returns (r: RegisterValue)
    requires Canonical(a) && Canonical(b)
    ensures Canonical(r) && Abs(r) == Join(Abs(a), Abs(b))
  {
    if a.Unknown? || b.Unknown? {
      return Unknown;
    }
    var fits, merged := UnionSorted(a.values, b.values);
    if !fits {
      return Unknown;
    }
    assert a.values[0] in Elements(merged);
    return Constant(merged);
  }

  // ----- inserting one value -----

  /** The position of the first element not below w. */
  method LowerBound(s: seq<Word>, w: Word) returns (k: nat)
    requires Sorted(s)
    ensures k <= |s| && (forall i | 0 <= i < k :: s[i] < w) && (forall i | k <= i < |s| :: w <= s[i])
  {
    var lo, hi := 0, |s|;
    while lo < hi
      invariant 0 <= lo <= hi <= |s|
      invariant (forall i | 0 <= i < lo :: s[i] < w) && (forall i | hi <= i < |s| :: w <= s[i])
    {
      var mid := (lo + hi) / 2;
      if s[mid] < w {
        lo := mid + 1;
      } else {
        hi := mid;
      }
    }
    k := lo;
  }

  lemma InsertSorted(s: seq<Word>, w: Word, k: nat, r: seq<Word>)
    requires Sorted(s) && k <= |s| && (forall i | 0 <= i < k :: s[i] < w) && (forall i | k <= i < |s| :: w < s[i])
    requires r == s[..k] + [w] + s[k..]
    ensures Sorted(r)
  {
    assert forall i | 0 <= i < |r| :: r[i] == if i < k then s[i] else if i == k then w else s[i - 1];
  }

  lemma InsertElements(s: seq<Word>, w: Word, k: nat, r: seq<Word>)
    requires k <= |s| && r == s[..k] + [w] + s[k..]
    ensures Elements(r) == Elements(s) + {w}
  {
    assert s == s[..k] + s[k..];
    forall x | x in Elements(s) + {w}
      ensures x in Elements(r)
    {
      if x != w {
        var i :| 0 <= i < |s| && s[i] == x;
        assert r[if i < k then i else i + 1] == x;
      } else {
        assert r[k] == w;
      }
    }
  }

  lemma ValuePresent(s: seq<Word>, w: Word)
    requires Sorted(s) && |s| <= MAX_VALUES && w in s
    ensures Join(Abs(Constant(s)), OneOf({w})) == Abs(Constant(s))
  {
    SortedSize(s);
    assert Elements(s) + {w} == Elements(s);
  }

  lemma ValueAdded(s: seq<Word>, w: Word, k: nat)
    requires Sorted(s) && k <= |s| && (forall i | 0 <= i < k :: s[i] < w) && (forall i | k <= i < |s| :: w < s[i])
    ensures var r := Constant(s[..k] + [w] + s[k..]);
            && Sorted(r.values) && |r.values| == |s| + 1
            && Join(Abs(Constant(s)), OneOf({w})) == if |s| < MAX_VALUES then Abs(r) else Top
  {
    var r := s[..k] + [w] + s[k..];
    InsertSorted(s, w, k, r);
    InsertElements(s, w, k, r);
    SortedSize(r);
  }

  /** Add one word, keeping the values sorted; an overflow degrades to Unknown. */
  method AddValue(v: RegisterValue, w: Word) returns (r: RegisterValue)
    requires Canonical(v)
    ensures Canonical(r) && Abs(r) == Join(Abs(v), OneOf({w}))
  {
    if v.Unknown? {
      return v;
    }
    var s := v.values;
    var k := LowerBound(s, w);
    if k < |s| && s[k] == w {
      ValuePresent(s, w);
      return v;
    }
    ValueAdded(s, w, k);
    if |s| >= MAX_VALUES {
      return Unknown;
    }
    return Constant(s[..k] + [w] + s[k..]);
  }
}
