/**
 The order in which views are rebuilt after a restore: repeatedly take, in name order, every view
 whose dependencies are already taken; a dependency cycle cannot be ordered.
 */
module ViewOrder {
  import opened Common

  // A name stands for its rank in string order.
  type Name = nat
  type Dependencies = map<Name, set<Name>>

  /** Dependencies on anything but views were dropped when the map was built. */
  predicate Closed(deps: Dependencies) {
    forall v :: v in deps ==> deps[v] <= deps.Keys
  }

  /** A walk along dependencies. */
  predicate Walk(deps: Dependencies, p: seq<Name>) {
    && (forall k :: 0 <= k < |p| ==> p[k] in deps)
    && (forall k :: 0 <= k < |p| - 1 ==> p[k + 1] in deps[p[k]])
  }

  predicate Cycle(deps: Dependencies, p: seq<Name>) {
    |p| > 1 && Walk(deps, p) && p[0] == p[|p| - 1]
  }

  ghost predicate Cyclic(deps: Dependencies) {
    exists p :: Cycle(deps, p)
  }

  function Elements(s: seq<Name>): set<Name> {
    set v | v in s
  }

  /** The dependencies of the view at position `i` stand before it. */
  predicate Placed(deps: Dependencies, result: seq<Name>, i: nat)
    requires i < |result|
  {
    result[i] in deps && deps[result[i]] <= Elements(result[..i])
  }

  /** Every view once, each after all the views it depends on. */
  predicate Ordered(deps: Dependencies, result: seq<Name>) {
    && Distinct(result)
    && Elements(result) == deps.Keys
    && (forall i {:trigger Placed(deps, result, i)} :: 0 <= i < |result| ==> Placed(deps, result, i))
  }

  /** A view's level is one more than its deepest dependency's, 0 without dependencies. */
  predicate LevelRight(deps: Dependencies, level: map<Name, nat>, v: Name)
    requires v in level && v in deps
  {
    && (forall d :: d in deps[v] ==> d in level && level[d] < level[v])
    && (level[v] > 0 ==> exists d :: d in deps[v] && d in level && level[d] == level[v] - 1)
  }

  predicate Leveled(deps: Dependencies, level: map<Name, nat>) {
    && level.Keys == deps.Keys
    && (forall v {:trigger LevelRight(deps, level, v)} :: v in deps ==> LevelRight(deps, level, v))
  }

  /** Lower levels first, names ascending within a level. */
  predicate ByLevelThenName(result: seq<Name>, level: map<Name, nat>) {
    forall i, j :: 0 <= i < j < |result| && result[i] in level && result[j] in level ==>
      level[result[i]] < level[result[j]] || (level[result[i]] == level[result[j]] && result[i] < result[j])
  }

  // ----- sorting a set of names -----

  lemma {:induction false} LeastExists(s: set<Name>)
    requires s != {}
    ensures exists m :: m in s && forall x :: x in s ==> m <= x
    decreases s
  {
    var y :| y in s;
    var below := set x | x in s && x < y;
    if below == {} {
      forall x | x in s
        ensures y <= x
      {
        assert x !in below;
      }
    } else {
      assert y !in below;
      LeastExists(below);
      var m :| m in below && forall x :: x in below ==> m <= x;
      forall x | x in s
        ensures m <= x
      {
        if x < y { assert x in below; }
      }
    }
  }

  function Least(s: set<Name>): (m: Name)
    requires s != {}
    ensures m in s && forall x :: x in s ==> m <= x
  {
    LeastExists(s);
    var m :| m in s && forall x :: x in s ==> m <= x;
    m
  }

  function Sorted(s: set<Name>): (r: seq<Name>)
    ensures forall v :: v in r <==> v in s
    ensures forall i, j :: 0 <= i < j < |r| ==> r[i] < r[j]
    decreases |s|
  {
    if s == {} then []
    else
      var m := Least(s);
      [m] + Sorted(s - {m})
  }

  // ----- cycles -----

  lemma {:induction false} Pigeonhole(s: seq<Name>, keys: set<Name>)
    requires (forall k :: 0 <= k < |s| ==> s[k] in keys) && |s| > |keys|
    ensures exists i, j :: 0 <= i < j < |s| && s[i] == s[j]
    decreases |s|
  {
    var last := s[|s| - 1];
    if i :| 0 <= i < |s| - 1 && s[i] == last {
      assert s[i] == s[|s| - 1];
    } else {
      var t := s[..|s| - 1];
      assert |keys - {last}| == |keys| - 1;
      Pigeonhole(t, keys - {last});
      var i, j :| 0 <= i < j < |t| && t[i] == t[j];
      assert s[i] == s[j];
    }
  }

  /** Nothing is ready: every remaining view still needs a remaining view. */
  predicate Stuck(rem: Dependencies) {
    Closed(rem) && rem.Keys != {} && forall v :: v in rem ==> rem[v] != {}
  }

  ghost function SomeNeeded(rem: Dependencies, v: Name): (d: Name)
    requires Stuck(rem) && v in rem
    ensures d in rem[v] && d in rem
  {
    var d :| d in rem[v];
    d
  }

  ghost function Trail(rem: Dependencies, v: Name, n: nat): (p: seq<Name>)
    requires Stuck(rem) && v in rem
    ensures |p| == n + 1 && p[0] == v && Walk(rem, p)
    decreases n
  {
    if n == 0 then [v]
    else
      var rest := Trail(rem, SomeNeeded(rem, v), n - 1);
      [v] + rest
  }

  lemma StuckCyclic(rem: Dependencies)
    requires Stuck(rem)
    ensures Cyclic(rem)
  {
    var v :| v in rem.Keys;
    var p := Trail(rem, v, |rem.Keys|);
    Pigeonhole(p, rem.Keys);
    var i, j :| 0 <= i < j < |p| && p[i] == p[j];
    var c := p[i..j + 1];
    forall k | 0 <= k < |c| - 1
      ensures c[k + 1] in rem[c[k]]
    {
      assert p[i + k + 1] in rem[p[i + k]];
    }
    assert Cycle(rem, c);
  }

  lemma CycleInLarger(rem: Dependencies, deps: Dependencies)
    requires Cyclic(rem)
    requires forall v :: v in rem ==> v in deps && rem[v] <= deps[v]
    ensures Cyclic(deps)
  {
    var p :| Cycle(rem, p);
    assert Cycle(deps, p);
  }

  function IndexOf(result: seq<Name>, v: Name): (i: nat)
    requires v in result
    ensures i < |result| && result[i] == v
  {
    if result[0] == v then 0 else 1 + IndexOf(result[1..], v)
  }

  lemma {:induction false} IndexUnique(result: seq<Name>, v: Name, k: nat)
    requires Distinct(result) && k < |result| && result[k] == v
    ensures IndexOf(result, v) == k
  {
  }

  lemma DependencyEarlier(deps: Dependencies, result: seq<Name>, v: Name, d: Name)
    requires Ordered(deps, result) && v in deps && d in deps[v]
    ensures v in result && d in result
    ensures IndexOf(result, d) < IndexOf(result, v)
  {
    assert v in Elements(result);
    var i := IndexOf(result, v);
    assert Placed(deps, result, i);
    assert d in Elements(result[..i]);
    var k :| 0 <= k < i && result[k] == d;
    IndexUnique(result, d, k);
  }

  lemma {:induction false} WalkDescends(deps: Dependencies, result: seq<Name>, p: seq<Name>)
    requires Ordered(deps, result) && Walk(deps, p) && |p| > 1
    ensures p[0] in result && p[|p| - 1] in result
    ensures IndexOf(result, p[|p| - 1]) < IndexOf(result, p[0])
    decreases |p|
  {
    assert p[1] in deps[p[0]];
    DependencyEarlier(deps, result, p[0], p[1]);
    if |p| > 2 {
      var q := p[1..];
      forall k | 0 <= k < |q| - 1
        ensures q[k + 1] in deps[q[k]]
      {
        assert p[k + 2] in deps[p[k + 1]];
      }
      WalkDescends(deps, result, q);
    }
  }

  /** An order exists only without cycles. */
  lemma OrderedAcyclic(deps: Dependencies, result: seq<Name>)
    requires Ordered(deps, result)
    ensures !Cyclic(deps)
  {
    if p :| Cycle(deps, p) {
      WalkDescends(deps, result, p);
    }
  }

  /** Levels and names leave no choice: two results in level order are the same. */
  lemma {:induction false} LevelsUnique(deps: Dependencies, a: map<Name, nat>, b: map<Name, nat>, v: Name, n: nat)
    requires Closed(deps) && Leveled(deps, a) && Leveled(deps, b) && v in deps && a[v] <= n
    ensures b[v] == a[v]
    decreases n
  {
    assert LevelRight(deps, a, v) && LevelRight(deps, b, v);
    forall d | d in deps[v]
      ensures d in a && d in b && b[d] == a[d]
    {
      LevelsUnique(deps, a, b, d, n - 1);
    }
  }

  // ----- the algorithm -----

  function Ready(rem: Dependencies): set<Name> {
    set v | v in rem && rem[v] == {}
  }

  function Without(rem: Dependencies, gone: set<Name>): Dependencies {
    map v | v in rem && v !in gone :: rem[v] - gone
  }

  /** What is left: untaken views and exactly their untaken dependencies. */
  predicate RestInv(deps: Dependencies, rem: Dependencies, taken: set<Name>) {
    && deps.Keys == taken + rem.Keys
    && taken !! rem.Keys
    && (forall v :: v in rem ==> rem[v] == deps[v] - taken)
  }

  /** Taken views have their level, below the current round. */
  predicate LevelInv(deps: Dependencies, level: map<Name, nat>, round: nat) {
    && level.Keys <= deps.Keys
    && (forall v {:trigger level[v]} :: v in level ==> level[v] < round)
    && (forall v {:trigger LevelRight(deps, level, v)} :: v in level ==> LevelRight(deps, level, v))
  }

  /** Taken views are listed in order. */
  predicate ListInv(deps: Dependencies, result: seq<Name>, level: map<Name, nat>) {
    && Distinct(result)
    && Elements(result) == level.Keys
    && (forall i {:trigger Placed(deps, result, i)} :: 0 <= i < |result| ==> Placed(deps, result, i))
    && ByLevelThenName(result, level)
  }

  /** A view that becomes ready waited for a view of the round before. */
  predicate WaitInv(deps: Dependencies, rem: Dependencies, level: map<Name, nat>, round: nat) {
    round > 0 ==> forall v :: v in rem && v in deps && rem[v] == {} ==>
      exists d :: d in deps[v] && d in level && level[d] == round - 1
  }

  predicate RoundInv(deps: Dependencies, rem: Dependencies, result: seq<Name>, level: map<Name, nat>, round: nat) {
    && RestInv(deps, rem, level.Keys)
    && LevelInv(deps, level, round)
    && ListInv(deps, result, level)
    && WaitInv(deps, rem, level, round)
  }

  function WithLevel(level: map<Name, nat>, names: set<Name>, round: nat): map<Name, nat> {
    map v | v in level.Keys + names :: if v in names then round else level[v]
  }

  lemma RestStep(deps: Dependencies, rem: Dependencies, taken: set<Name>)
    requires RestInv(deps, rem, taken)
    ensures RestInv(deps, Without(rem, Ready(rem)), taken + Ready(rem))
  {
  }

  lemma WaitStep(deps: Dependencies, rem: Dependencies, level: map<Name, nat>, round: nat)
    requires Closed(deps) && RestInv(deps, rem, level.Keys)
    ensures WaitInv(deps, Without(rem, Ready(rem)), WithLevel(level, Ready(rem), round), round + 1)
  {
    var rem' := Without(rem, Ready(rem));
    var level' := WithLevel(level, Ready(rem), round);
    forall v | v in rem' && rem'[v] == {}
      ensures exists d :: d in deps[v] && d in level' && level'[d] == round
    {
      assert rem[v] != {};
      assert rem'[v] == rem[v] - Ready(rem) && rem[v] == deps[v] - level.Keys;
      var d :| d in rem[v];
      assert d !in rem'[v] && d in Ready(rem);
      assert d in deps[v] && d in level' && level'[d] == round;
    }
  }

  lemma LevelStep(deps: Dependencies, rem: Dependencies, level: map<Name, nat>, round: nat)
    requires Closed(deps) && RestInv(deps, rem, level.Keys)
    requires LevelInv(deps, level, round) && WaitInv(deps, rem, level, round)
    ensures LevelInv(deps, WithLevel(level, Ready(rem), round), round + 1)
  {
    var level' := WithLevel(level, Ready(rem), round);
    forall v | v in level'
      ensures LevelRight(deps, level', v)
    {
      if v in Ready(rem) {
        forall d | d in deps[v]
          ensures d in level && level'[d] == level[d] < round
        {
          assert d !in rem[v];
        }
      } else {
        assert LevelRight(deps, level, v);
        forall d | d in deps[v]
          ensures d in level && level'[d] == level[d]
        {
        }
      }
    }
  }

  lemma ElementsConcat(a: seq<Name>, b: seq<Name>)
    ensures Elements(a + b) == Elements(a) + Elements(b)
  {
  }

  lemma PlacedStep(deps: Dependencies, rem: Dependencies, result: seq<Name>, names: seq<Name>)
    requires Closed(deps) && RestInv(deps, rem, Elements(result))
    requires forall i {:trigger Placed(deps, result, i)} :: 0 <= i < |result| ==> Placed(deps, result, i)
    requires forall v :: v in names ==> v in Ready(rem)
    ensures forall i :: 0 <= i < |result + names| ==> Placed(deps, result + names, i)
  {
    var all := result + names;
    forall i | 0 <= i < |all|
      ensures Placed(deps, all, i)
    {
      if i < |result| {
        assert Placed(deps, result, i);
        ConcatSplits(result, names, i);
      } else {
        assert all[i] in Ready(rem);
        forall d | d in deps[all[i]]
          ensures d in Elements(result)
        {
          assert d !in rem[all[i]];
        }
        assert all[..i] == result + names[..i - |result|];
        ElementsConcat(result, names[..i - |result|]);
      }
    }
  }

  lemma ListStep(deps: Dependencies, rem: Dependencies, result: seq<Name>, level: map<Name, nat>, round: nat)
    requires Closed(deps) && RestInv(deps, rem, level.Keys)
    requires LevelInv(deps, level, round) && ListInv(deps, result, level)
    ensures ListInv(deps, result + Sorted(Ready(rem)), WithLevel(level, Ready(rem), round))
  {
    var names := Sorted(Ready(rem));
    var all := result + names;
    var level' := WithLevel(level, Ready(rem), round);
    assert forall x :: x in result ==> x in Elements(result);
    DistinctConcat(result, names);
    ElementsConcat(result, names);
    assert Elements(names) == Ready(rem);
    PlacedStep(deps, rem, result, names);
    forall i, j | 0 <= i < j < |all|
      ensures level'[all[i]] < level'[all[j]] || (level'[all[i]] == level'[all[j]] && all[i] < all[j])
    {
      if j < |result| {
        assert all[i] == result[i] && all[j] == result[j];
        assert result[i] in Elements(result) && result[j] in Elements(result);
      } else {
        assert all[j] in names;
        if i < |result| {
          assert all[i] == result[i] && result[i] in Elements(result);
        } else {
          assert all[i] in names;
        }
      }
    }
  }

  /** One round of the algorithm. */
  lemma RoundStep(deps: Dependencies, rem: Dependencies, result: seq<Name>, level: map<Name, nat>, round: nat)
    requires Closed(deps) && RoundInv(deps, rem, result, level, round)
    ensures RoundInv(deps, Without(rem, Ready(rem)), result + Sorted(Ready(rem)), WithLevel(level, Ready(rem), round),
                     round + 1)
  {
    RestStep(deps, rem, level.Keys);
    assert WithLevel(level, Ready(rem), round).Keys == level.Keys + Ready(rem);
    WaitStep(deps, rem, level, round);
    LevelStep(deps, rem, level, round);
    ListStep(deps, rem, result, level, round);
  }

  method AppendAll(result0: seq<Name>, names: seq<Name>) returns (result: seq<Name>)
    ensures result == result0 + names
  {
    result := result0;
    for i := 0 to |names|
      invariant result == result0 + names[..i]
    {
      assert names[..i + 1] == names[..i] + [names[i]];
      ConcatAssociative(result0, names[..i], [names[i]]);
      result := result + [names[i]];
    }
    assert names[..|names|] == names;
  }

  lemma FirstRound(deps: Dependencies)
    ensures RoundInv(deps, deps, [], map[], 0)
  {
  }

  lemma FinishedRound(deps: Dependencies, result: seq<Name>, level: map<Name, nat>, round: nat)
    requires Closed(deps) && RoundInv(deps, map[], result, level, round)
    ensures Ordered(deps, result) && Leveled(deps, level) && ByLevelThenName(result, level)
    ensures !Cyclic(deps)
  {
    OrderedAcyclic(deps, result);
  }

  /** The rounds of the algorithm, one after the other. */
  function Rounds(rem: Dependencies): Result<seq<Name>, ()>
    decreases |rem|
  {
    if rem == map[] then Ok([])
    else if Ready(rem) == {} then Err(())
    else
      WithoutSmaller(rem, Ready(rem));
      Prefixed(Sorted(Ready(rem)), Rounds(Without(rem, Ready(rem))))
  }

  function Prefixed(names: seq<Name>, rest: Result<seq<Name>, ()>): Result<seq<Name>, ()> {
    if rest.Ok? then Ok(names + rest.value) else rest
  }

  lemma PrefixedTwice(a: seq<Name>, b: seq<Name>, rest: Result<seq<Name>, ()>)
    ensures Prefixed(a, Prefixed(b, rest)) == Prefixed(a + b, rest)
  {
    if rest.Ok? {
      ConcatAssociative(a, b, rest.value);
    }
  }

  /** From any round on: the rest of the rounds completes the order, or a cycle blocks it. */
  lemma {:induction false} RoundsFrom(deps: Dependencies, rem: Dependencies, result: seq<Name>, level: map<Name, nat>,
                                      round: nat) returns (last: map<Name, nat>)
    requires Closed(deps) && RoundInv(deps, rem, result, level, round)
    ensures var r := Prefixed(result, Rounds(rem));
            && (r.Err? <==> Cyclic(deps))
            && (r.Ok? ==> Ordered(deps, r.value) && Leveled(deps, last) && ByLevelThenName(r.value, last))
    decreases |rem|
  {
    last := level;
    if rem == map[] {
      FinishedRound(deps, result, level, round);
      ConcatEmpty(result);
    } else if Ready(rem) == {} {
      StuckAtRound(deps, rem, result, level, round);
    } else {
      RoundStep(deps, rem, result, level, round);
      WithoutSmaller(rem, Ready(rem));
      PrefixedTwice(result, Sorted(Ready(rem)), Rounds(Without(rem, Ready(rem))));
      last := RoundsFrom(deps, Without(rem, Ready(rem)), result + Sorted(Ready(rem)),
                         WithLevel(level, Ready(rem), round), round + 1);
    }
  }

  /** The rounds give an error exactly for cyclic dependencies and otherwise every view once, after all views it
      depends on, by levels and names. */
  lemma RoundsRight(deps: Dependencies) returns (level: map<Name, nat>)
    requires Closed(deps)
    ensures var r := Rounds(deps);
            && (r.Err? <==> Cyclic(deps))
            && (r.Ok? ==> Ordered(deps, r.value) && Leveled(deps, level) && ByLevelThenName(r.value, level))
  {
    FirstRound(deps);
    level := RoundsFrom(deps, deps, [], map[], 0);
    if Rounds(deps).Ok? {
      ConcatEmpty(Rounds(deps).value);
    }
  }

  /** The views in restorable order, or an error when a dependency cycle blocks it. */
  method OrderViews(deps: Dependencies) returns (r: Result<seq<Name>, ()>, ghost level: map<Name, nat>)
    requires Closed(deps)
    ensures r == Rounds(deps)
    ensures r.Err? <==> Cyclic(deps)
    ensures r.Ok? ==> Ordered(deps, r.value) && Leveled(deps, level) && ByLevelThenName(r.value, level)
  {
    var remaining := deps;
    var result: seq<Name> := [];
    level := RoundsRight(deps);
    if Rounds(deps).Ok? {
      ConcatEmpty(Rounds(deps).value);
    }
    while remaining != map[]
      invariant Prefixed(result, Rounds(remaining)) == Rounds(deps)
      decreases |remaining|
    {
      var ready := Ready(remaining);
      if ready == {} {
        return Err(()), level;
      }
      WithoutSmaller(remaining, ready);
      PrefixedTwice(result, Sorted(ready), Rounds(Without(remaining, ready)));
      result := AppendAll(result, Sorted(ready));
      remaining := Without(remaining, ready);
    }
    ConcatEmpty(result);
    r := Ok(result);
  }

  lemma StuckAtRound(deps: Dependencies, rem: Dependencies, result: seq<Name>, level: map<Name, nat>, round: nat)
    requires Closed(deps) && RoundInv(deps, rem, result, level, round) && rem != map[] && Ready(rem) == {}
    ensures Cyclic(deps)
  {
    forall v | v in rem
      ensures rem[v] != {} && rem[v] <= rem.Keys
    {
      assert v !in Ready(rem);
      assert rem[v] == deps[v] - level.Keys;
    }
    assert rem.Keys != {};
    StuckCyclic(rem);
    CycleInLarger(rem, deps);
  }

  lemma WithoutSmaller(rem: Dependencies, gone: set<Name>)
    requires gone != {} && gone <= rem.Keys
    ensures |Without(rem, gone)| < |rem|
  {
    assert Without(rem, gone).Keys == rem.Keys - gone;
    assert |rem.Keys - gone| < |rem.Keys|;
  }

  /** The answer is unique: any two orders by level and name agree. */
  lemma OrderUnique(deps: Dependencies, a: seq<Name>, la: map<Name, nat>, b: seq<Name>, lb: map<Name, nat>)
    requires Closed(deps)
    requires Ordered(deps, a) && Leveled(deps, la) && ByLevelThenName(a, la)
    requires Ordered(deps, b) && Leveled(deps, lb) && ByLevelThenName(b, lb)
    ensures a == b
  {
    forall v | v in deps
      ensures la[v] == lb[v]
    {
      LevelsUnique(deps, la, lb, v, la[v]);
    }
    SameListing(a, b, la);
  }

  lemma FirstElement(b: seq<Name>)
    requires b != []
    ensures b[0] in Elements(b)
  {
  }

  lemma SameFirst(a: seq<Name>, b: seq<Name>, level: map<Name, nat>)
    requires a != [] && b != [] && Elements(a) == Elements(b) <= level.Keys
    requires ByLevelThenName(a, level) && ByLevelThenName(b, level)
    ensures a[0] == b[0]
  {
    assert a[0] in Elements(b) && b[0] in Elements(a);
    var i :| 0 <= i < |b| && b[i] == a[0];
    var j :| 0 <= j < |a| && a[j] == b[0];
    assert a[0] in level && b[0] in level;
  }

  lemma {:induction false} SameListing(a: seq<Name>, b: seq<Name>, level: map<Name, nat>)
    requires Elements(a) == Elements(b) <= level.Keys
    requires ByLevelThenName(a, level) && ByLevelThenName(b, level)
    ensures a == b
    decreases |a|
  {
    if a == [] {
      if b != [] { FirstElement(b); }
    } else {
      assert a[0] in Elements(a);
      assert b != [];
      SameFirst(a, b, level);
      TailElements(a, level);
      TailElements(b, level);
      SameListing(a[1..], b[1..], level);
      SplitAt(a, 1);
      SplitAt(b, 1);
      assert a[..1] == b[..1];
    }
  }

  lemma TailElements(a: seq<Name>, level: map<Name, nat>)
    requires a != [] && Elements(a) <= level.Keys && ByLevelThenName(a, level)
    ensures Elements(a[1..]) == Elements(a) - {a[0]}
    ensures ByLevelThenName(a[1..], level)
  {
    forall v | v in a[1..]
      ensures v != a[0] && v in a
    {
      var k :| 0 <= k < |a[1..]| && a[1..][k] == v;
      assert a[k + 1] == v && a[0] in Elements(a) && a[k + 1] in Elements(a);
    }
    forall v | v in a && v != a[0]
      ensures v in a[1..]
    {
      var k :| 0 <= k < |a| && a[k] == v;
      assert a[1..][k - 1] == v;
    }
  }
}
