/**
  Sizes, least and greatest elements of finite sets.
 */
module Sets {
  lemma {:induction false} SubsetSize<T>(a: set<T>, b: set<T>)
    requires a <= b
    ensures |a| <= |b|
    ensures |a| == |b| ==> a == b
    decreases |a|
  {
    if a != {} {
      var x :| x in a;
      SubsetSize(a - {x}, b - {x});
      assert a == a - {x} + {x} && b == b - {x} + {x};
    } else if b != {} {
      var x :| x in b;
    }
  }

  predicate IsLeast(s: set<nat>, w: nat) {
    w in s && forall x | x in s :: w <= x
  }

  predicate IsGreatest(s: set<nat>, w: nat) {
    w in s && forall x | x in s :: x <= w
  }

  lemma {:induction false} Bounds(s: set<nat>) returns (low: nat, high: nat)
    requires s != {}
    ensures IsLeast(s, low) && IsGreatest(s, high)
    decreases |s|
  {
    var a :| a in s;
    low, high := a, a;
    if s - {a} != {} {
      var l, h := Bounds(s - {a});
      low, high := if l < a then l else a, if h > a then h else a;
    }
    assert forall x | x in s :: x == a || x in s - {a};
  }

  lemma HasBounds(s: set<nat>)
    requires s != {}
    ensures (exists w :: IsLeast(s, w)) && exists w :: IsGreatest(s, w)
  {
    var low, high := Bounds(s);
  }

  ghost function Least(s: set<nat>): (w: nat)
    requires s != {}
    ensures IsLeast(s, w)
  {
    HasBounds(s);
    var w :| IsLeast(s, w);
    w
  }

  ghost function Greatest(s: set<nat>): (w: nat)
    requires s != {}
    ensures IsGreatest(s, w)
  {
    HasBounds(s);
    var w :| IsGreatest(s, w);
    w
  }
}
