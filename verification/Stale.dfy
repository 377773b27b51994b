/**
  Repair of redirections whose target was itself absorbed.
 */
module Stale {
  import opened Code
  import opened Layout
  import opened Tables

  // ----- following redirections -----

  /** Following redirections from x, the first remaining block is r. */
  ghost predicate Reaches(absorbed: map<Pc, Pc>, remaining: set<Pc>, x: Pc, r: Pc, n: nat)
    decreases n
  {
    if x in remaining then r == x
    else n > 0 && x in absorbed && Reaches(absorbed, remaining, absorbed[x], r, n - 1)
  }

  /** The redirection of a ends at r. */
  ghost predicate Settles(absorbed: map<Pc, Pc>, remaining: set<Pc>, a: Pc, r: Pc) {
    a in absorbed && r != a && exists n: nat :: Reaches(absorbed, remaining, absorbed[a], r, n)
  }

  lemma {:induction false} ReachesOne(absorbed: map<Pc, Pc>, remaining: set<Pc>, x: Pc, r: Pc, n: nat, r': Pc, n': nat)
    requires Reaches(absorbed, remaining, x, r, n) && Reaches(absorbed, remaining, x, r', n')
    ensures r == r' && r in remaining
    decreases n
  {
    if x !in remaining {
      ReachesOne(absorbed, remaining, absorbed[x], r, n - 1, r', n' - 1);
    }
  }

  /** Visited addresses whose redirections stay among them lead nowhere but back. */
  ghost predicate Closed(absorbed: map<Pc, Pc>, remaining: set<Pc>, a: Pc, visited: set<Pc>, current: Pc) {
    forall v | v in visited ::
      && (v == a || v !in remaining)
      && (v in absorbed ==> absorbed[v] in visited || absorbed[v] == current)
  }

  lemma {:induction false} LeadsBack(absorbed: map<Pc, Pc>, remaining: set<Pc>, a: Pc, visited: set<Pc>, current: Pc,
                                     x: Pc, r: Pc, n: nat)
    requires Closed(absorbed, remaining, a, visited, current) && current in visited && x in visited
    requires Reaches(absorbed, remaining, x, r, n)
    ensures r == a
    decreases n
  {
    if x !in remaining {
      LeadsBack(absorbed, remaining, a, visited, current, absorbed[x], r, n - 1);
    }
  }

  /** Follow the redirection of a; None if the chain is broken or comes back. */
  method FollowStale(absorbed: map<Pc, Pc>, remaining: set<Pc>, a: Pc) returns (found: Option<Pc>)
    requires a in absorbed
    ensures found.Some? ==> found.value in remaining && Settles(absorbed, remaining, a, found.value)
    ensures found.None? ==> forall r :: !Settles(absorbed, remaining, a, r)
  {
    var current, visited := absorbed[a], {a};
    ghost var k: nat := 0;
    ghost var all := absorbed.Keys + absorbed.Values;
    while current !in visited
      invariant current in absorbed.Values && a in visited && visited <= all
      invariant Closed(absorbed, remaining, a, visited, current)
      invariant forall r, n: nat :: Reaches(absorbed, remaining, current, r, n) ==> Reaches(absorbed, remaining, absorbed[a], r, n + k)
      decreases all - visited
    {
      visited := visited + {current};
      if current in remaining {
        assert Reaches(absorbed, remaining, current, current, 0);
        return Some(current);
      }
      if current !in absorbed {
        break;
      }
      forall r, n: nat | Reaches(absorbed, remaining, absorbed[current], r, n)
        ensures Reaches(absorbed, remaining, absorbed[a], r, n + (k + 1))
      {
        assert Reaches(absorbed, remaining, current, r, n + 1);
      }
      current, k := absorbed[current], k + 1;
    }
    forall r
      ensures !Settles(absorbed, remaining, a, r)
    {
      if Settles(absorbed, remaining, a, r) {
        var n: nat :| Reaches(absorbed, remaining, absorbed[a], r, n);
        LeadsBack(absorbed, remaining, a, visited, current, absorbed[a], r, n);
      }
    }
    return None;
  }

  // ----- which redirections change -----

  ghost predicate Unfinished(absorbed: map<Pc, Pc>, remaining: set<Pc>, a: Pc) {
    a in absorbed && absorbed[a] !in remaining
  }

  ghost predicate Update(absorbed: map<Pc, Pc>, remaining: set<Pc>, u: (Pc, Pc)) {
    Unfinished(absorbed, remaining, u.0) && u.1 in remaining && Settles(absorbed, remaining, u.0, u.1)
  }

  ghost predicate Broken(absorbed: map<Pc, Pc>, remaining: set<Pc>, a: Pc) {
    Unfinished(absorbed, remaining, a) && forall r :: !Settles(absorbed, remaining, a, r)
  }

  ghost predicate Listed(updates: seq<(Pc, Pc)>, removals: seq<Pc>, a: Pc) {
    a in removals || exists i | 0 <= i < |updates| :: updates[i].0 == a
  }

  /** Go through all redirections in an arbitrary order. */
  method CollectStale(absorbed: map<Pc, Pc>, remaining: set<Pc>) returns (updates: seq<(Pc, Pc)>, removals: seq<Pc>)
    ensures forall i | 0 <= i < |updates| :: Update(absorbed, remaining, updates[i])
    ensures forall i | 0 <= i < |removals| :: Broken(absorbed, remaining, removals[i])
    ensures forall a | Unfinished(absorbed, remaining, a) :: Listed(updates, removals, a)
  {
    updates, removals := [], [];
    var rest := absorbed.Keys;
    while rest != {}
      invariant rest <= absorbed.Keys
      invariant forall i | 0 <= i < |updates| :: Update(absorbed, remaining, updates[i])
      invariant forall i | 0 <= i < |removals| :: Broken(absorbed, remaining, removals[i])
      invariant forall a | Unfinished(absorbed, remaining, a) && a !in rest :: Listed(updates, removals, a)
    {
      var a :| a in rest;
      ghost var before, gone := updates, removals;
      if absorbed[a] !in remaining {
        var found := FollowStale(absorbed, remaining, a);
        if found.Some? {
          updates := updates + [(a, found.value)];
          assert updates[|before|].0 == a;
        } else {
          removals := removals + [a];
        }
      }
      rest := rest - {a};
      StillListed(before, gone, updates, removals);
    }
  }

  lemma StillListed(updates: seq<(Pc, Pc)>, removals: seq<Pc>, updates': seq<(Pc, Pc)>, removals': seq<Pc>)
    requires updates <= updates' && removals <= removals'
    ensures forall a | Listed(updates, removals, a) :: Listed(updates', removals', a)
  {
    forall a | Listed(updates, removals, a)
      ensures Listed(updates', removals', a)
    {
      if a !in removals {
        var i :| 0 <= i < |updates| && updates[i].0 == a;
        assert updates'[i].0 == a;
      }
    }
  }

  // ----- ranges move with them -----

  ghost function AllRanges(m: map<Pc, seq<Range>>): multiset<Range>
    decreases |m|
  {
    if m == map[] then multiset{}
    else
      var k :| k in m;
      multiset(m[k]) + AllRanges(m - {k})
  }

  lemma {:induction false} AllRangesAt(m: map<Pc, seq<Range>>, k: Pc)
    requires k in m
    ensures AllRanges(m) == multiset(m[k]) + AllRanges(m - {k})
    decreases |m|
  {
    var x :| x in m && AllRanges(m) == multiset(m[x]) + AllRanges(m - {x});
    if x != k {
      AllRangesAt(m - {x}, k);
      AllRangesAt(m - {k}, x);
      assert m - {x} - {k} == m - {k} - {x};
    }
  }

  lemma UpdateRanges(m: map<Pc, seq<Range>>, k: Pc, v: seq<Range>)
    ensures AllRanges(m[k := v]) + multiset(ContinuationsOf(m, k)) == AllRanges(m) + multiset(v)
  {
    AllRangesAt(m[k := v], k);
    assert m[k := v] - {k} == m - {k};
    if k in m {
      AllRangesAt(m, k);
    } else {
      assert m - {k} == m;
    }
  }

  /** Whole blocks are a property of the ranges, wherever they are. */
  lemma WholeByRanges(orig: Blocks, m: map<Pc, seq<Range>>)
    ensures WholeBlocks(orig, m) <==> forall r | r in AllRanges(m) :: r.0 in orig && r == RangeOf(orig, r.0)
  {
    if WholeBlocks(orig, m) {
      WholeRanges(orig, m);
    } else {
      var b, i :| b in m && 0 <= i < |m[b]| && !(m[b][i].0 in orig && m[b][i] == RangeOf(orig, m[b][i].0));
      AllRangesAt(m, b);
      assert m[b][i] in multiset(m[b]);
    }
  }

  lemma {:induction false} WholeRanges(orig: Blocks, m: map<Pc, seq<Range>>)
    requires WholeBlocks(orig, m)
    ensures forall r | r in AllRanges(m) :: r.0 in orig && r == RangeOf(orig, r.0)
    decreases |m|
  {
    if m != map[] {
      var x :| x in m && AllRanges(m) == multiset(m[x]) + AllRanges(m - {x});
      WholeRanges(orig, m - {x});
      forall r | r in AllRanges(m)
        ensures r.0 in orig && r == RangeOf(orig, r.0)
      {
        if r in multiset(m[x]) {
          var i :| 0 <= i < |m[x]| && m[x][i] == r;
        }
      }
    }
  }

  /** The first position of a range that starts at pc. */
  method Position(ranges: seq<Range>, pc: Pc) returns (pos: Option<nat>)
    ensures pos.Some? ==> pos.value < |ranges| && ranges[pos.value].0 == pc
    ensures pos.Some? ==> forall j | 0 <= j < pos.value :: ranges[j].0 != pc
    ensures pos.None? ==> forall j | 0 <= j < |ranges| :: ranges[j].0 != pc
  {
    for i := 0 to |ranges|
      invariant forall j | 0 <= j < i :: ranges[j].0 != pc
    {
      if ranges[i].0 == pc {
        return Some(i);
      }
    }
    return None;
  }

  /** Take one range that starts at pc out of the list of k and give it to target. */
  ghost predicate MovedFrom(m: map<Pc, seq<Range>>, pc: Pc, target: Pc, k: Pc, pos: nat, m': map<Pc, seq<Range>>) {
    && k in m && pos < |m[k]| && m[k][pos].0 == pc && (forall j | 0 <= j < pos :: m[k][j].0 != pc)
    && var taken := m[k := m[k][..pos] + m[k][pos + 1..]];
       m' == taken[target := ContinuationsOf(taken, target) + [m[k][pos]]]
  }

  ghost predicate Moved(m: map<Pc, seq<Range>>, pc: Pc, target: Pc, m': map<Pc, seq<Range>>) {
    if forall k, j | k in m && 0 <= j < |m[k]| :: m[k][j].0 != pc then m' == m
    else exists k, pos: nat :: MovedFrom(m, pc, target, k, pos, m')
  }

  /** Move the range of pc from the first list that has one, in an arbitrary order. */
  method MoveRange(m: map<Pc, seq<Range>>, pc: Pc, target: Pc) returns (m': map<Pc, seq<Range>>)
    ensures Moved(m, pc, target, m')
  {
    m' := m;
    var rest := m.Keys;
    while rest != {}
      invariant rest <= m.Keys && m' == m
      invariant forall k, j | k in m && k !in rest && 0 <= j < |m[k]| :: m[k][j].0 != pc
    {
      var k :| k in rest;
      var pos := Position(m[k], pc);
      if pos.Some? {
        var range := m[k][pos.value];
        m' := m[k := m[k][..pos.value] + m[k][pos.value + 1..]];
        m' := m'[target := ContinuationsOf(m', target) + [range]];
        assert MovedFrom(m, pc, target, k, pos.value, m');
        return;
      }
      rest := rest - {k};
    }
  }

  lemma TakeOut(m: map<Pc, seq<Range>>, k: Pc, pos: nat)
    requires k in m && pos < |m[k]|
    ensures AllRanges(m[k := m[k][..pos] + m[k][pos + 1..]]) + multiset{m[k][pos]} == AllRanges(m)
  {
    var rest := m[k][..pos] + m[k][pos + 1..];
    UpdateRanges(m, k, rest);
    assert m[k] == m[k][..pos] + [m[k][pos]] + m[k][pos + 1..];
    assert multiset(m[k]) == multiset(rest) + multiset{m[k][pos]};
    Cancel(AllRanges(m), multiset(rest), AllRanges(m[k := rest]), multiset{m[k][pos]});
  }

  lemma Cancel(a: multiset<Range>, x: multiset<Range>, b: multiset<Range>, y: multiset<Range>)
    requires a + x == b + (x + y)
    ensures a == b + y
  {
    forall r: Range
      ensures a[r] == (b + y)[r]
    {
      assert (a + x)[r] == (b + (x + y))[r];
    }
  }

  lemma PutIn(m: map<Pc, seq<Range>>, k: Pc, r: Range)
    ensures AllRanges(m[k := ContinuationsOf(m, k) + [r]]) == AllRanges(m) + multiset{r}
  {
    UpdateRanges(m, k, ContinuationsOf(m, k) + [r]);
    Cancel(AllRanges(m[k := ContinuationsOf(m, k) + [r]]), multiset(ContinuationsOf(m, k)), AllRanges(m), multiset{r});
  }

  /** Moving a range keeps the ranges. */
  lemma MoveConserves(m: map<Pc, seq<Range>>, pc: Pc, target: Pc, m': map<Pc, seq<Range>>)
    requires Moved(m, pc, target, m')
    ensures AllRanges(m') == AllRanges(m)
  {
    if m' != m {
      var k, pos: nat :| MovedFrom(m, pc, target, k, pos, m');
      TakeOut(m, k, pos);
      PutIn(m[k := m[k][..pos] + m[k][pos + 1..]], target, m[k][pos]);
    }
  }

  // ----- the whole repair -----

  /** What the repair leaves at address a. */
  ghost predicate RepairedAt(absorbed: map<Pc, Pc>, remaining: set<Pc>, absorbed': map<Pc, Pc>, a: Pc) {
    if Unfinished(absorbed, remaining, a) then
      && (a in absorbed' <==> exists r :: Settles(absorbed, remaining, a, r))
      && (a in absorbed' ==> Settles(absorbed, remaining, a, absorbed'[a]) && absorbed'[a] in remaining)
    else
      && (a in absorbed' <==> a in absorbed)
      && (a in absorbed' ==> absorbed'[a] == absorbed[a])
  }

  ghost predicate Repaired(absorbed: map<Pc, Pc>, remaining: set<Pc>, absorbed': map<Pc, Pc>) {
    forall a :: RepairedAt(absorbed, remaining, absorbed', a)
  }

  /** After the first i updates. */
  ghost predicate UpdatedAt(absorbed: map<Pc, Pc>, updates: seq<(Pc, Pc)>, absorbed': map<Pc, Pc>, a: Pc) {
    && (a in absorbed' <==> a in absorbed)
    && (a in absorbed' ==>
          if exists i | 0 <= i < |updates| :: updates[i].0 == a then (a, absorbed'[a]) in updates
          else absorbed'[a] == absorbed[a])
  }

  /** The continuations after each update, each of which moves one range. */
  ghost predicate MovesBy(updates: seq<(Pc, Pc)>, steps: seq<map<Pc, seq<Range>>>) {
    && |steps| == |updates| + 1
    && forall i | 0 <= i < |updates| :: Moved(steps[i], updates[i].0, updates[i].1, steps[i + 1])
  }

  method ApplyUpdates(t: Tables, updates: seq<(Pc, Pc)>) returns (t': Tables, ghost steps: seq<map<Pc, seq<Range>>>)
    requires forall i | 0 <= i < |updates| :: updates[i].0 in t.absorbed
    ensures MovesBy(updates, steps) && steps[0] == t.continuations && steps[|updates|] == t'.continuations
    ensures t'.blocks == t.blocks && AllRanges(t'.continuations) == AllRanges(t.continuations)
    ensures forall a :: UpdatedAt(t.absorbed, updates, t'.absorbed, a)
    ensures updates == [] ==> t' == t
  {
    t' := t;
    steps := [t.continuations];
    for i := 0 to |updates|
      invariant MovesBy(updates[..i], steps) && steps[0] == t.continuations && steps[i] == t'.continuations
      invariant t'.blocks == t.blocks && AllRanges(t'.continuations) == AllRanges(t.continuations)
      invariant forall a :: UpdatedAt(t.absorbed, updates[..i], t'.absorbed, a)
      invariant i == 0 ==> t' == t
    {
      var (pc, target) := updates[i];
      var m := MoveRange(t'.continuations, pc, target);
      MoveConserves(t'.continuations, pc, target, m);
      ghost var current := t'.absorbed;
      MovesMore(updates[..i], steps, updates[i], m);
      assert updates[..i + 1] == updates[..i] + [updates[i]];
      steps := steps + [m];
      t' := Tables(t'.blocks, t'.absorbed[pc := target], m);
      UpdateStep(t.absorbed, updates[..i], updates[i], current, updates[..i + 1], t'.absorbed);
    }
    assert updates[..|updates|] == updates;
  }

  lemma MovesMore(done: seq<(Pc, Pc)>, steps: seq<map<Pc, seq<Range>>>, u: (Pc, Pc), m: map<Pc, seq<Range>>)
    requires MovesBy(done, steps) && Moved(steps[|done|], u.0, u.1, m)
    ensures MovesBy(done + [u], steps + [m])
  {
    var updates, more := done + [u], steps + [m];
    forall i | 0 <= i < |updates|
      ensures Moved(more[i], updates[i].0, updates[i].1, more[i + 1])
    {
      if i < |done| {
        assert Moved(steps[i], done[i].0, done[i].1, steps[i + 1]);
      }
    }
  }

  lemma UpdateStep(absorbed: map<Pc, Pc>, done: seq<(Pc, Pc)>, u: (Pc, Pc), current: map<Pc, Pc>,
                   more: seq<(Pc, Pc)>, next: map<Pc, Pc>)
    requires u.0 in absorbed && more == done + [u] && next == current[u.0 := u.1]
    requires forall a :: UpdatedAt(absorbed, done, current, a)
    ensures forall a :: UpdatedAt(absorbed, more, next, a)
  {
    assert more[|done|] == u;
    forall a
      ensures UpdatedAt(absorbed, more, next, a)
    {
      assert UpdatedAt(absorbed, done, current, a);
      if a != u.0 && a in absorbed {
        if j :| 0 <= j < |more| && more[j].0 == a {
          assert done[j].0 == a;
        }
      }
    }
  }

  method RemoveAll(absorbed: map<Pc, Pc>, removals: seq<Pc>) returns (absorbed': map<Pc, Pc>)
    ensures absorbed' == absorbed - (set i | 0 <= i < |removals| :: removals[i])
  {
    absorbed' := absorbed;
    for i := 0 to |removals|
      invariant absorbed' == absorbed - (set k | 0 <= k < i :: removals[k])
    {
      absorbed' := absorbed' - {removals[i]};
    }
  }

  /** Updates and removals together repair every redirection. */
  lemma UpdatesRepair(absorbed: map<Pc, Pc>, remaining: set<Pc>, updates: seq<(Pc, Pc)>, removals: seq<Pc>,
                      updated: map<Pc, Pc>, result: map<Pc, Pc>, a: Pc)
    requires result == updated - (set i | 0 <= i < |removals| :: removals[i])
    requires forall i | 0 <= i < |updates| :: Update(absorbed, remaining, updates[i])
    requires forall i | 0 <= i < |removals| :: Broken(absorbed, remaining, removals[i])
    requires forall a | Unfinished(absorbed, remaining, a) :: Listed(updates, removals, a)
    requires UpdatedAt(absorbed, updates, updated, a)
    ensures RepairedAt(absorbed, remaining, result, a)
  {
    if a in removals {
      var i :| 0 <= i < |removals| && removals[i] == a;
      assert a !in result;
    } else if Unfinished(absorbed, remaining, a) {
      assert (a, updated[a]) in updates;
      var i :| 0 <= i < |updates| && updates[i] == (a, updated[a]);
      assert Settles(absorbed, remaining, a, updated[a]);
    } else if i :| 0 <= i < |updates| && updates[i].0 == a {
      assert Update(absorbed, remaining, updates[i]);
    }
  }

  lemma NothingStale(absorbed: map<Pc, Pc>, remaining: set<Pc>, updates: seq<(Pc, Pc)>, removals: seq<Pc>)
    requires forall i | 0 <= i < |updates| :: Update(absorbed, remaining, updates[i])
    requires forall i | 0 <= i < |removals| :: Broken(absorbed, remaining, removals[i])
    requires absorbed.Values <= remaining
    ensures updates == [] && removals == []
  {
    if updates != [] {
      TargetRemains(absorbed, remaining, updates[0].0);
    }
    if removals != [] {
      TargetRemains(absorbed, remaining, removals[0]);
    }
  }

  lemma TargetRemains(absorbed: map<Pc, Pc>, remaining: set<Pc>, a: Pc)
    requires absorbed.Values <= remaining
    ensures !Unfinished(absorbed, remaining, a)
  {
    assert a in absorbed ==> absorbed[a] in absorbed.Values;
  }

  /** Point every redirection to a remaining block or drop it; the ranges of those that
      are moved move along. */
  method RepairTables(t: Tables, remaining: set<Pc>)
    returns (t': Tables, ghost moves: seq<(Pc, Pc)>, ghost steps: seq<map<Pc, seq<Range>>>)
    ensures forall i | 0 <= i < |moves| :: Update(t.absorbed, remaining, moves[i])
    ensures MovesBy(moves, steps) && steps[0] == t.continuations && steps[|moves|] == t'.continuations
    ensures t'.blocks == t.blocks && Repaired(t.absorbed, remaining, t'.absorbed)
    ensures AllRanges(t'.continuations) == AllRanges(t.continuations)
    ensures t.absorbed.Values <= remaining ==> t' == t
  {
    var updates, removals := CollectStale(t.absorbed, remaining);
    if t.absorbed.Values <= remaining {
      NothingStale(t.absorbed, remaining, updates, removals);
    }
    t', steps := ApplyUpdates(t, updates);
    moves := updates;
    var kept := RemoveAll(t'.absorbed, removals);
    forall a
      ensures RepairedAt(t.absorbed, remaining, kept, a)
    {
      UpdatesRepair(t.absorbed, remaining, updates, removals, t'.absorbed, kept, a);
    }
    t' := t'.(absorbed := kept);
  }

  /** Repaired redirections are among the old ones and lead to remaining blocks. */
  lemma RepairedTargets(absorbed: map<Pc, Pc>, remaining: set<Pc>, absorbed': map<Pc, Pc>)
    requires Repaired(absorbed, remaining, absorbed')
    ensures absorbed'.Keys <= absorbed.Keys && absorbed'.Values <= remaining
  {
    forall a | a in absorbed'
      ensures a in absorbed && absorbed'[a] in remaining
    {
      assert RepairedAt(absorbed, remaining, absorbed', a);
    }
  }
}
