/** Chains of peel steps around one transaction (dockerizd_bitcoin/src/semantics.rs). */
module PeelSteps {
  import opened Common
  import opened PeelChain

  // ----- what one peel is -----

  predicate AllZero(legs: seq<Leg>) {
    forall k {:trigger legs[k]} :: 0 <= k < |legs| ==> legs[k].value == 0
  }

  /** The legs x and y are positive and all others are zero. */
  predicate OnlyTwo(legs: seq<Leg>, x: nat, y: nat) {
    && x < |legs| && y < |legs| && x != y && legs[x].value > 0 && legs[y].value > 0
    && forall k {:trigger legs[k]} :: 0 <= k < |legs| && k != x && k != y ==> legs[k].value == 0
  }

  predicate OnlyOne(legs: seq<Leg>, x: nat) {
    && x < |legs| && legs[x].value > 0
    && forall k {:trigger legs[k]} :: 0 <= k < |legs| && k != x ==> legs[k].value == 0
  }

  lemma TailAt(legs: seq<Leg>)
    requires legs != []
    ensures forall k {:trigger legs[k]} :: 1 <= k < |legs| ==> legs[k] == legs[1..][k - 1]
    ensures forall k {:trigger legs[1..][k]} :: 0 <= k < |legs| - 1 ==> legs[1..][k] == legs[k + 1]
  {
  }

  lemma {:induction false} PositiveSum(legs: seq<Leg>)
    ensures Sum(Positive(legs)) == Sum(legs)
  {
    if legs != [] {
      PositiveSum(legs[1..]);
      var rest := Positive(legs[1..]);
      assert ([legs[0]] + rest)[1..] == rest;
    }
  }

  lemma {:induction false} PositiveNone(legs: seq<Leg>)
    ensures Positive(legs) == [] <==> AllZero(legs)
  {
    if legs != [] {
      TailAt(legs);
      PositiveNone(legs[1..]);
      if legs[0].value == 0 && AllZero(legs[1..]) {
        forall k | 0 <= k < |legs|
          ensures legs[k].value == 0
        {
          assert k == 0 || legs[k] == legs[1..][k - 1];
        }
      }
      if AllZero(legs) {
        forall k | 0 <= k < |legs[1..]|
          ensures legs[1..][k].value == 0
        {
          assert legs[1..][k] == legs[k + 1];
        }
      }
    }
  }

  lemma {:induction false} PositiveOne(legs: seq<Leg>) returns (x: nat)
    requires |Positive(legs)| == 1
    ensures OnlyOne(legs, x) && Positive(legs) == [legs[x]]
  {
    TailAt(legs);
    if legs[0].value > 0 {
      PositiveNone(legs[1..]);
      x := 0;
    } else {
      var y := PositiveOne(legs[1..]);
      x := y + 1;
      assert legs[x] == legs[1..][y];
    }
  }

  lemma HeadAndOne(legs: seq<Leg>, z: nat)
    requires legs != [] && legs[0].value > 0 && OnlyOne(legs[1..], z)
    ensures OnlyTwo(legs, 0, z + 1) && legs[z + 1] == legs[1..][z]
  {
    TailAt(legs);
  }

  lemma ZeroAndTwo(legs: seq<Leg>, x: nat, y: nat)
    requires legs != [] && legs[0].value == 0 && OnlyTwo(legs[1..], x, y)
    ensures OnlyTwo(legs, x + 1, y + 1) && legs[x + 1] == legs[1..][x] && legs[y + 1] == legs[1..][y]
  {
    TailAt(legs);
  }

  lemma {:induction false} PositiveTwo(legs: seq<Leg>) returns (x: nat, y: nat)
    requires |Positive(legs)| == 2
    ensures x < y && OnlyTwo(legs, x, y) && Positive(legs) == [legs[x], legs[y]]
  {
    if legs[0].value > 0 {
      var z := PositiveOne(legs[1..]);
      HeadAndOne(legs, z);
      x, y := 0, z + 1;
    } else {
      var x', y' := PositiveTwo(legs[1..]);
      ZeroAndTwo(legs, x', y');
      x, y := x' + 1, y' + 1;
    }
  }

  lemma {:induction false} OneIsPositive(legs: seq<Leg>, x: nat)
    requires OnlyOne(legs, x)
    ensures Positive(legs) == [legs[x]]
  {
    TailAt(legs);
    if x == 0 {
      assert AllZero(legs[1..]);
      PositiveNone(legs[1..]);
    } else {
      assert OnlyOne(legs[1..], x - 1);
      OneIsPositive(legs[1..], x - 1);
    }
  }

  lemma {:induction false} TwoArePositive(legs: seq<Leg>, x: nat, y: nat)
    requires OnlyTwo(legs, x, y) && x < y
    ensures Positive(legs) == [legs[x], legs[y]]
  {
    TailAt(legs);
    if x == 0 {
      assert OnlyOne(legs[1..], y - 1);
      OneIsPositive(legs[1..], y - 1);
    } else {
      assert OnlyTwo(legs[1..], x - 1, y - 1);
      TwoArePositive(legs[1..], x - 1, y - 1);
    }
  }

  /** Outputs i and j are the only positive ones, i at least four times j, and i
    * less than what the only input brought. */
  predicate PeelsAt(tx: Tx, i: nat, j: nat) {
    && tx.coinbase != 1 && |tx.inputs| == 1 && 1 + |tx.outputs| <= MAX_LEGS
    && OnlyTwo(tx.outputs, i, j)
    && 4 * tx.outputs[j].value <= tx.outputs[i].value < tx.inputs[0].value
  }

  lemma AtLeastFourTimes(large: nat, small: nat)
    requires small > 0
    ensures large / small >= 4 <==> 4 * small <= large
  {
    var q, r := large / small, large % small;
    assert large == q * small + r;
    if q >= 4 {
      assert (q - 4) * small >= 0;
    } else {
      assert (3 - q) * small >= 0;
    }
  }

  /** The detector recognises exactly these transactions, and names the large output. */
  lemma PeelExactly(tx: Tx, i: nat)
    requires Numbered(tx.outputs, 0)
    ensures Peel(tx) == Some(i) <==> exists j: nat :: PeelsAt(tx, i, j)
  {
    if Peel(tx).Some? {
      var x, y := PositiveTwo(tx.outputs);
      NumberedAt(tx.outputs, 0, x);
      NumberedAt(tx.outputs, 0, y);
      var (large, small) := if tx.outputs[x].value > tx.outputs[y].value then (x, y) else (y, x);
      AtLeastFourTimes(tx.outputs[large].value, tx.outputs[small].value);
      assert PeelsAt(tx, large, small) && Peel(tx) == Some(large);
      forall j: nat | PeelsAt(tx, i, j)
        ensures i == large
      {
        assert tx.outputs[x].value > 0 && tx.outputs[y].value > 0;
      }
    }
    forall j: nat | PeelsAt(tx, i, j)
      ensures Peel(tx) == Some(i)
    {
      var x, y := Min(i, j), Max(i, j);
      TwoArePositive(tx.outputs, x, y);
      NumberedAt(tx.outputs, 0, i);
      AtLeastFourTimes(tx.outputs[i].value, tx.outputs[j].value);
    }
  }

  // ----- chains -----

  /** `b` spends, by its only input, the large output of `a`. */
  predicate Follows(a: Tx, b: Tx) {
    && Peel(a).Some? && Peel(b).Some? && |b.inputs| == 1
    && Creates(a, Peel(a).value, b, b.inputs[0])
  }

  ghost predicate PeelPath(txs: seq<Tx>) {
    && (forall i {:trigger txs[i]} :: 0 <= i < |txs| ==> Peel(txs[i]).Some?)
    && (forall i, j {:trigger txs[i], txs[j]} :: 0 <= i < |txs| && j == i + 1 && j < |txs| ==> Follows(txs[i], txs[j]))
  }

  predicate AllLoaded(db: seq<Row>, txs: seq<Tx>) {
    forall i {:trigger txs[i]} :: 0 <= i < |txs| ==> Loaded(db, txs[i])
  }

  /** No peel leads to `first` by the output that it spends. */
  ghost predicate StartsThere(db: seq<Row>, first: Tx) {
    exists parent: Tx ::
      && |first.inputs| == 1 && first.inputs[0].prev.Some?
      && var row := CreatorRow(db, first.inputs[0].prev.value, first.number, first.position);
      && row.Some? && row.value.key == parent.key && Loaded(db, parent)
      && Peel(parent) != Some(first.inputs[0].prev.value.index)
  }

  /** The large output of `last` is unspent or spent by something that is no peel. */
  ghost predicate EndsThere(db: seq<Row>, last: Tx)
    requires Peel(last).Some?
  {
    var row := SpenderRow(db, Outpoint(last.key.hash, Peel(last).value), last.number, last.position);
    row.Some? ==> exists child: Tx :: row.value.key == child.key && Loaded(db, child) && Peel(child).None?
  }

  lemma PeelHasInput(tx: Tx)
    ensures Peel(tx).Some? ==> |tx.inputs| == 1
  {
  }

  lemma Prepended(db: seq<Row>, parent: Tx, txs: seq<Tx>)
    requires txs != [] && PeelPath(txs) && AllLoaded(db, txs)
    requires Loaded(db, parent) && Follows(parent, txs[0])
    ensures PeelPath([parent] + txs) && AllLoaded(db, [parent] + txs)
  {
    var u := [parent] + txs;
    forall i | 0 <= i < |u|
      ensures Peel(u[i]).Some? && Loaded(db, u[i])
    {
      assert i == 0 || u[i] == txs[i - 1];
    }
    forall i, j | 0 <= i && j == i + 1 && j < |u|
      ensures Follows(u[i], u[j])
    {
      assert u[j] == txs[i];
      assert i == 0 || u[i] == txs[i - 1];
    }
  }

  lemma Appended(db: seq<Row>, txs: seq<Tx>, child: Tx)
    requires txs != [] && PeelPath(txs) && AllLoaded(db, txs)
    requires Loaded(db, child) && Follows(txs[|txs| - 1], child)
    ensures PeelPath(txs + [child]) && AllLoaded(db, txs + [child])
  {
    var u := txs + [child];
    forall i | 0 <= i < |u|
      ensures Peel(u[i]).Some? && Loaded(db, u[i])
    {
      assert i == |txs| || u[i] == txs[i];
    }
    forall i, j | 0 <= i && j == i + 1 && j < |u|
      ensures Follows(u[i], u[j])
    {
      assert u[i] == txs[i];
      assert j == |txs| || u[j] == txs[j];
    }
  }

  /** Where the root stands in the chain. */
  predicate RootAt(txs: seq<Tx>, root: Tx, p: nat) {
    p <= 2 && p < |txs| && txs[p] == root
  }

  /** The peel whose large output `first` spends, if that is what it spends. */
  method StepBack(reader: Reader, first: Tx) returns (r: Result<Option<Tx>, Error>)
    requires reader.Valid() && Loaded(reader.db, first) && Peel(first).Some?
    modifies reader
    ensures reader.Valid() && reader.missing >= old(reader.missing) && (old(reader.truncated) ==> reader.truncated)
    ensures Sane(reader.db) ==> r.Ok?
    ensures r.Ok? && r.value.Some? ==> Loaded(reader.db, r.value.value) && Follows(r.value.value, first)
    ensures r.Ok? && r.value.None? && reader.Whole(false, old(reader.missing)) ==> StartsThere(reader.db, first)
  {
    PeelHasInput(first);
    var previous := reader.Previous(first, first.inputs[0]);
    if previous.Err? {
      r := Err(previous.error);
    } else if previous.value.None? {
      r := Ok(None);
    } else {
      var (parent, index) := previous.value.value;
      r := Ok(if Peel(parent) == Some(index) then Some(parent) else None);
    }
  }

  /** The peel that spends the large output of `last` by its only input. */
  method StepForward(reader: Reader, last: Tx) returns (r: Result<Option<Tx>, Error>)
    requires reader.Valid() && Loaded(reader.db, last) && Peel(last).Some?
    modifies reader
    ensures reader.Valid() && reader.missing >= old(reader.missing) && (old(reader.truncated) ==> reader.truncated)
    ensures Sane(reader.db) ==> r.Ok?
    ensures r.Ok? && r.value.Some? ==> Loaded(reader.db, r.value.value) && Follows(last, r.value.value)
    ensures r.Ok? && r.value.None? && reader.Whole(false, old(reader.missing)) ==> EndsThere(reader.db, last)
  {
    var spender := reader.Spender(last, Peel(last).value);
    if spender.Err? {
      r := Err(spender.error);
    } else if spender.value.None? {
      r := Ok(None);
    } else {
      var (next, input) := spender.value.value;
      PeelHasInput(next);
      r := Ok(if input == 0 && Peel(next).Some? then Some(next) else None);
    }
  }

  /** Up to two steps back from the root. */
  method Backward(reader: Reader, root: Tx) returns (r: Result<seq<Tx>, Error>)
    requires reader.Valid() && Loaded(reader.db, root) && Peel(root).Some?
    modifies reader
    ensures reader.Valid() && reader.missing >= old(reader.missing) && (old(reader.truncated) ==> reader.truncated)
    ensures Sane(reader.db) ==> r.Ok?
    ensures r.Ok? ==>
              && 0 < |r.value| <= 3 && r.value[|r.value| - 1] == root
              && PeelPath(r.value) && AllLoaded(reader.db, r.value)
              && (reader.Whole(false, old(reader.missing)) && |r.value| < 3 ==> StartsThere(reader.db, r.value[0]))
  {
    var txs := [root];
    for n := 0 to 2
      invariant reader.Valid() && reader.missing >= old(reader.missing) && (old(reader.truncated) ==> reader.truncated)
      invariant |txs| == n + 1 && txs[n] == root
      invariant PeelPath(txs) && AllLoaded(reader.db, txs)
    {
      var parent := StepBack(reader, txs[0]);
      if parent.Err? {
        return Err(parent.error);
      }
      if parent.value.None? {
        return Ok(txs);
      }
      Prepended(reader.db, parent.value.value, txs);
      txs := [parent.value.value] + txs;
    }
    r := Ok(txs);
  }

  /** What `chain` returns for a root that peels. */
  ghost predicate ChainOf(db: seq<Row>, root: Tx, txs: seq<Tx>, p: nat, whole: bool) {
    && 0 < |txs| <= MAX_CHAIN && PeelPath(txs) && AllLoaded(db, txs)
    && RootAt(txs, root, p)
    && (whole && p < 2 ==> StartsThere(db, txs[0]))
    && (whole && |txs| < MAX_CHAIN ==> EndsThere(db, txs[|txs| - 1]))
  }

  /** `chain`: the peels around the root, linked by what is really spent; unless the
    * reader had to leave something out, it ends only where the pattern ends. */
  method Chain(reader: Reader, root: Tx) returns (r: Result<seq<Tx>, Error>)
    requires reader.Valid() && Loaded(reader.db, root)
    modifies reader
    ensures reader.Valid()
    ensures Peel(root).None? ==> r == Ok([])
    ensures Sane(reader.db) ==> r.Ok?
    ensures r.Ok? && Peel(root).Some? ==>
              exists p: nat :: ChainOf(reader.db, root, r.value, p, reader.Whole(false, old(reader.missing)))
  {
    if Peel(root).None? {
      return Ok([]);
    }
    var back := Backward(reader, root);
    if back.Err? {
      return back;
    }
    ghost var p := |back.value| - 1;
    r := Forward(reader, root, back.value, p, old(reader.missing));
  }

  /** The second loop of `chain`, from what lies before and at the root. */
  method Forward(reader: Reader, root: Tx, back: seq<Tx>, ghost p: nat, ghost missing: nat)
    returns (r: Result<seq<Tx>, Error>)
    requires reader.Valid() && reader.missing >= missing
    requires 0 < |back| < MAX_CHAIN && PeelPath(back) && AllLoaded(reader.db, back) && RootAt(back, root, p)
    requires reader.Whole(false, missing) && p < 2 ==> StartsThere(reader.db, back[0])
    modifies reader
    ensures reader.Valid()
    ensures Sane(reader.db) ==> r.Ok?
    ensures r.Ok? ==> ChainOf(reader.db, root, r.value, p, reader.Whole(false, missing))
  {
    var txs := back;
    while |txs| < MAX_CHAIN
      invariant reader.Valid() && reader.missing >= missing
      invariant reader.Whole(false, missing) ==> old(reader.Whole(false, missing))
      invariant |back| <= |txs| <= MAX_CHAIN && RootAt(txs, root, p) && txs[0] == back[0]
      invariant PeelPath(txs) && AllLoaded(reader.db, txs)
    {
      var next := StepForward(reader, txs[|txs| - 1]);
      if next.Err? {
        return Err(next.error);
      }
      if next.value.None? {
        return Ok(txs);
      }
      Appended(reader.db, txs, next.value.value);
      txs := txs + [next.value.value];
    }
    r := Ok(txs);
  }

  // ----- what a chain says about the amounts -----

  function Large(tx: Tx): nat
    requires Numbered(tx.outputs, 0) && Peel(tx).Some?
  {
    PeelExactly(tx, Peel(tx).value);
    tx.outputs[Peel(tx).value].value
  }

  /** What a peel takes off: everything else that leaves the transaction. */
  function Small(tx: Tx): nat
    requires Numbered(tx.outputs, 0) && Peel(tx).Some?
  {
    LargeIsPart(tx);
    Sum(tx.outputs) - Large(tx)
  }

  lemma {:induction false} SumTwo(legs: seq<Leg>)
    requires |legs| == 2
    ensures Sum(legs) == legs[0].value + legs[1].value
  {
    assert legs[1..] == [legs[1]];
    assert Sum([legs[1]]) == legs[1].value + Sum([]);
  }

  lemma LargeIsPart(tx: Tx)
    requires Numbered(tx.outputs, 0) && Peel(tx).Some?
    ensures Large(tx) <= Sum(tx.outputs)
    ensures 0 < 4 * (Sum(tx.outputs) - Large(tx)) <= Large(tx) < tx.inputs[0].value
  {
    var i := Peel(tx).value;
    PeelExactly(tx, i);
    var j: nat :| PeelsAt(tx, i, j);
    TwoArePositive(tx.outputs, Min(i, j), Max(i, j));
    SumTwo(Positive(tx.outputs));
    PositiveSum(tx.outputs);
  }

  /** A loaded peel conserves value, and takes off at most a quarter of what goes on
    * and at most a fifth of what came in. */
  lemma PeelConserves(db: seq<Row>, tx: Tx)
    requires Loaded(db, tx) && Peel(tx).Some?
    ensures Numbered(tx.outputs, 0)
    ensures Large(tx) + Small(tx) + tx.fee == tx.inputs[0].value == tx.total
    ensures 0 < Small(tx) && 4 * Small(tx) <= Large(tx) && 5 * Small(tx) <= tx.inputs[0].value
  {
    LargeIsPart(tx);
    assert tx.inputs == [tx.inputs[0]];
    assert Sum([tx.inputs[0]]) == tx.inputs[0].value + Sum([]);
  }

  lemma LoadedNumbered(db: seq<Row>, txs: seq<Tx>)
    requires AllLoaded(db, txs)
    ensures forall i {:trigger txs[i]} :: 0 <= i < |txs| ==> Numbered(txs[i].outputs, 0)
  {
  }

  /** Each step starts with the large output of the one before, so the amounts
    * strictly decrease and time strictly advances. */
  lemma {:induction false} AmountsDecrease(db: seq<Row>, txs: seq<Tx>, i: nat, j: nat)
    requires PeelPath(txs) && AllLoaded(db, txs) && i < j < |txs|
    ensures |txs[i].inputs| == 1 && |txs[j].inputs| == 1
    ensures txs[j].inputs[0].value < txs[i].inputs[0].value
    ensures Before(txs[i], txs[j])
  {
    PeelHasInput(txs[i]);
    PeelHasInput(txs[j]);
    var k := j - 1;
    assert Follows(txs[k], txs[j]);
    PeelConserves(db, txs[k]);
    if i < k {
      AmountsDecrease(db, txs, i, k);
    }
  }

  lemma NoRepeats(db: seq<Row>, txs: seq<Tx>)
    requires PeelPath(txs) && AllLoaded(db, txs)
    ensures Distinct(txs)
  {
    forall i, j | 0 <= i < j < |txs|
      ensures txs[i] != txs[j]
    {
      AmountsDecrease(db, txs, i, j);
    }
  }

  function PeeledAndFees(txs: seq<Tx>): nat
    requires forall i {:trigger txs[i]} :: 0 <= i < |txs| ==> Numbered(txs[i].outputs, 0) && Peel(txs[i]).Some?
  {
    if txs == [] then 0
    else PeeledAndFees(txs[..|txs| - 1]) + Small(txs[|txs| - 1]) + txs[|txs| - 1].fee
  }

  lemma FrontKept(db: seq<Row>, txs: seq<Tx>)
    requires |txs| > 1 && PeelPath(txs) && AllLoaded(db, txs)
    ensures var front := txs[..|txs| - 1];
            front != [] && PeelPath(front) && AllLoaded(db, front)
            && front[0] == txs[0] && front[|front| - 1] == txs[|txs| - 2]
  {
  }

  /** What the next peel starts with is what this one leaves. */
  lemma LargeGoesOn(a: Tx, b: Tx)
    requires Follows(a, b) && Numbered(a.outputs, 0)
    ensures b.inputs[0].value == Large(a)
  {
  }

  /** Peeled amounts and fees along a chain add up to what entered the first
    * transaction less what is left in the last large output. */
  lemma {:induction false} Telescopes(db: seq<Row>, txs: seq<Tx>)
    requires txs != [] && PeelPath(txs) && AllLoaded(db, txs)
    ensures |txs[0].inputs| == 1
    ensures forall i {:trigger txs[i]} :: 0 <= i < |txs| ==> Numbered(txs[i].outputs, 0)
    ensures PeeledAndFees(txs) == txs[0].inputs[0].value - Large(txs[|txs| - 1])
    decreases |txs|
  {
    PeelHasInput(txs[0]);
    LoadedNumbered(db, txs);
    var n := |txs| - 1;
    PeelConserves(db, txs[n]);
    var front := txs[..n];
    if n > 0 {
      FrontKept(db, txs);
      Telescopes(db, front);
      assert Follows(txs[n - 1], txs[n]);
      LargeGoesOn(txs[n - 1], txs[n]);
    } else {
      assert front == [];
    }
  }
}
