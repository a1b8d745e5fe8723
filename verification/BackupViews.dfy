/** The views of a restore: before the data phase they are created again from the captured
  * source, each after all views that it depends on. */
module BackupViews {
  import opened BackupProtocol
  import ViewOrder

  /** The view was created again at position c. */
  predicate RebuiltAt(t: seq<Event>, database: nat, view: nat, c: nat) {
    c < |t| && t[c] == ViewRebuilt(database, view, Accepted)
  }

  /** From position `from` on the views of the list were created again, one after the other, at the positions `at`. */
  predicate RebuiltAlong(t: seq<Event>, from: nat, database: nat, order: seq<nat>, at: seq<nat>) {
    && |at| == |order|
    && (forall i, j :: 0 <= i < j < |at| ==> at[i] < at[j])
    && (forall i {:trigger at[i]} :: 0 <= i < |at| ==> from <= at[i] && RebuiltAt(t, database, order[i], at[i]))
  }

  lemma AlongExtends(t: seq<Event>, u: seq<Event>, from: nat, database: nat, order: seq<nat>, at: seq<nat>)
    requires RebuiltAlong(t, from, database, order, at) && t <= u
    ensures RebuiltAlong(u, from, database, order, at)
  {
    forall i | 0 <= i < |at|
      ensures from <= at[i] && RebuiltAt(u, database, order[i], at[i])
    {
      assert RebuiltAt(t, database, order[i], at[i]);
    }
  }

  lemma AlongFirst(t: seq<Event>, from: nat, database: nat, order: seq<nat>, i: nat, c: nat, rest: seq<nat>)
    requires i < |order| && from <= c && RebuiltAt(t, database, order[i], c)
    requires RebuiltAlong(t, c + 1, database, order[i + 1..], rest)
    ensures RebuiltAlong(t, from, database, order[i..], [c] + rest)
  {
    var at, list := [c] + rest, order[i..];
    forall k | 0 <= k < |at|
      ensures from <= at[k] && RebuiltAt(t, database, list[k], at[k])
    {
      if k > 0 {
        assert at[k] == rest[k - 1] && list[k] == order[i + 1..][k - 1];
      }
    }
  }

  /** The history only grows, and a finished list was created again in its order. */
  lemma {:induction false} RebuildsAlong(w: World, env: Env, database: nat, restored: seq<Obj>, expected: seq<Obj>,
                                         order: seq<nat>, i: nat) returns (at: seq<nat>)
    requires i <= |order|
    ensures var (v, rebuilt) := RebuildViews(w, env, database, restored, expected, order, i);
            w.trace <= v.trace && (rebuilt ==> RebuiltAlong(v.trace, |w.trace|, database, order[i..], at))
    decreases |order| - i
  {
    at := [];
    if i < |order| {
      var drop := ViewDropped(database, order[i], Now(w, env).sent);
      var dropping := Materialized(expected, order[i]) && Names(restored, order[i]);
      var w1 := if dropping then Note(w, drop) else w;
      if !dropping || Now(w, env).sent == Accepted {
        var e := ViewRebuilt(database, order[i], Now(w1, env).sent);
        var w2 := Note(w1, e);
        var rest := RebuildsAlong(w2, env, database, restored, expected, order, i + 1);
        var (v, rebuilt) := RebuildViews(w2, env, database, restored, expected, order, i + 1);
        at := [|w1.trace|] + rest;
        if rebuilt && Now(w1, env).sent == Accepted {
          assert v.trace[|w1.trace|] == w2.trace[|w1.trace|] == e;
          AlongFirst(v.trace, |w.trace|, database, order, i, |w1.trace|, rest);
        }
      }
    }
  }

  lemma {:induction false} FreezeGrows(w: World, env: Env, database: nat, expected: seq<Obj>, i: nat)
    requires i <= |expected|
    ensures w.trace <= FreezeTables(w, env, database, expected, i).0.trace
    decreases |expected| - i
  {
    if i < |expected| {
      if !Physical(expected[i]) {
        FreezeGrows(w, env, database, expected, i + 1);
      } else {
        var w1 := Note(w, Counted(database, expected[i].name, Now(w, env).rows));
        var w2 := Note(w1, MergesStopped(database, expected[i].name, Now(w1, env).sent));
        FreezeGrows(w2, env, database, expected, i + 1);
      }
    }
  }

  lemma ViewsAlong(w: World, env: Env, m: Manifest, restored: seq<Obj>, order: seq<nat>) returns (at: seq<nat>)
    ensures var (v, ready) := PrepareViews(w, env, m, restored, order);
            ready ==> RebuiltAlong(v.trace, |w.trace|, m.job.database, order, at)
  {
    var expected := Schema(m.job.source.objects);
    at := RebuildsAlong(w, env, m.job.database, restored, expected, order, 0);
    var (w1, rebuilt) := RebuildViews(w, env, m.job.database, restored, expected, order, 0);
    assert order[0..] == order;
    if rebuilt {
      var last := SchemaRead(m.job.database, Now(w1, env).schema);
      AlongExtends(w1.trace, Note(w1, last).trace, |w.trace|, m.job.database, order, at);
    }
  }

  lemma TablesAlong(w: World, env: Env, m: Manifest, restored: seq<Obj>, order: seq<nat>) returns (at: seq<nat>)
    ensures var (v, ready) := PrepareTables(w, env, m, restored, order);
            ready ==> RebuiltAlong(v.trace, |w.trace|, m.job.database, order, at)
  {
    FreezeGrows(w, env, m.job.database, Schema(m.job.source.objects), 0);
    at := ViewsAlong(FreezeTables(w, env, m.job.database, Schema(m.job.source.objects), 0).0, env, m, restored, order);
  }

  /** A successful preparation has created every view of the source again, each after all views that it depends on; and
    * with cyclic dependencies no preparation succeeds. */
  lemma ViewsFollowDependencies(w: World, env: Env, m: Manifest) returns (order: seq<nat>, at: seq<nat>)
    requires PrepareRestoreData(w, env, m).1
    ensures var deps := DependenciesOf(Schema(m.job.source.objects));
            && !ViewOrder.Cyclic(deps) && ViewOrder.Ordered(deps, order)
            && RebuiltAlong(PrepareRestoreData(w, env, m).0.trace, |w.trace|, m.job.database, order, at)
  {
    var expected := Schema(m.job.source.objects);
    DependenciesClosed(expected);
    var level := ViewOrder.RoundsRight(DependenciesOf(expected));
    order := ViewOrder.Rounds(DependenciesOf(expected)).value;
    var first := Now(w, env).schema;
    at := TablesAlong(Note(w, SchemaRead(m.job.database, first)), env, m, first.value, order);
  }
}
