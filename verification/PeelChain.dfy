/** Peel chains of dockerizd_bitcoin/src/semantics.rs, over the transaction reader of
  * dockerizd_bitcoin/src/bitcoin/transactions.rs. */
module PeelChain {
  import opened Common

  const SUPPLY: nat := 2_100_000_000_000_000
  const MAX_LEGS: nat := 256
  const MAX_CHAIN: nat := 5

  datatype Outpoint = Outpoint(hash: nat, index: nat)

  datatype Leg = Leg(index: nat, subject: nat, value: nat, prev: Option<Outpoint>)

  datatype Key = Key(block: nat, hash: nat)

  /** A canonical transaction as the database stores it: header and edges, the
    * edges of each side by index. */
  datatype Row = Row(key: Key, number: nat, position: nat, coinbase: nat, inputCount: Option<nat>,
                     outputCount: Option<nat>, fee: nat, inputs: seq<Leg>, outputs: seq<Leg>)

  datatype Tx = Tx(key: Key, number: nat, position: nat, coinbase: nat, inputs: seq<Leg>, outputs: seq<Leg>,
                   total: nat, fee: nat)

  /** Block number first, then the position inside the block. */
  predicate Earlier(number: nat, position: nat, number': nat, position': nat) {
    number < number' || (number == number' && position < position')
  }

  predicate Before(a: Tx, b: Tx) {
    Earlier(a.number, a.position, b.number, b.position)
  }

  function Sum(legs: seq<Leg>): nat {
    if legs == [] then 0 else legs[0].value + Sum(legs[1..])
  }

  // ----- what the database answers -----

  predicate HasOutput(r: Row, p: Outpoint) {
    r.key.hash == p.hash && exists i :: 0 <= i < |r.outputs| && r.outputs[i].index == p.index
  }

  predicate Spends(r: Row, p: Outpoint) {
    exists i :: 0 <= i < |r.inputs| && r.inputs[i].prev == Some(p)
  }

  function Rows(db: seq<Row>, key: Key): seq<Row> {
    if db == [] then []
    else (if db[0].key == key then [db[0]] else []) + Rows(db[1..], key)
  }

  /** The latest row that has the output and comes before the given place. */
  function CreatorRow(db: seq<Row>, p: Outpoint, number: nat, position: nat): (r: Option<Row>)
    ensures r.Some? ==>
      r.value in db && HasOutput(r.value, p) && Earlier(r.value.number, r.value.position, number, position)
    ensures forall q :: q in db && HasOutput(q, p) && Earlier(q.number, q.position, number, position) ==>
              r.Some? && !Earlier(r.value.number, r.value.position, q.number, q.position)
  {
    if db == [] then None
    else
      var rest := CreatorRow(db[1..], p, number, position);
      var h := db[0];
      if HasOutput(h, p) && Earlier(h.number, h.position, number, position)
         && (rest.None? || !Earlier(h.number, h.position, rest.value.number, rest.value.position))
      then Some(h)
      else rest
  }

  /** The earliest row that spends the output and comes after the given place. */
  function SpenderRow(db: seq<Row>, p: Outpoint, number: nat, position: nat): (r: Option<Row>)
    ensures r.Some? ==>
      r.value in db && Spends(r.value, p) && Earlier(number, position, r.value.number, r.value.position)
    ensures forall q :: q in db && Spends(q, p) && Earlier(number, position, q.number, q.position) ==>
              r.Some? && !Earlier(q.number, q.position, r.value.number, r.value.position)
  {
    if db == [] then None
    else
      var rest := SpenderRow(db[1..], p, number, position);
      var h := db[0];
      if Spends(h, p) && Earlier(number, position, h.number, h.position)
         && (rest.None? || !Earlier(rest.value.number, rest.value.position, h.number, h.position))
      then Some(h)
      else rest
  }

  function InputSpending(legs: seq<Leg>, p: Outpoint): (i: nat)
    requires exists k :: 0 <= k < |legs| && legs[k].prev == Some(p)
    ensures i < |legs| && legs[i].prev == Some(p)
  {
    if legs[0].prev == Some(p) then 0
    else
      assert exists k :: 0 <= k < |legs[1..]| && legs[1..][k].prev == Some(p) by {
        var k :| 0 <= k < |legs| && legs[k].prev == Some(p);
        assert legs[1..][k - 1] == legs[k];
      }
      1 + InputSpending(legs[1..], p)
  }

  // ----- loading one transaction -----

  /** All the checks that `load` makes on the legs of a row. */
  predicate Consistent(r: Row) {
    && Numbered(r.inputs, 0) && Numbered(r.outputs, 0)
    && SpendOnce(r.inputs, {})
    && r.coinbase <= 1
    && r.outputCount == Some(|r.outputs|)
    && r.inputCount == Some(if r.coinbase == 1 then 1 else |r.inputs|)
    && Sum(r.inputs) <= SUPPLY && Sum(r.outputs) <= SUPPLY
    && (if r.coinbase == 1 then r.inputs == [] && r.fee == 0 else Sum(r.outputs) + r.fee == Sum(r.inputs))
  }

  /** The legs carry the indices from i on, each with a possible amount. */
  predicate Numbered(legs: seq<Leg>, i: nat) {
    legs == [] || (legs[0].index == i && legs[0].value <= SUPPLY && Numbered(legs[1..], i + 1))
  }

  /** Every input spends an outpoint, none of them twice. */
  predicate SpendOnce(inputs: seq<Leg>, seen: set<Outpoint>) {
    inputs == [] ||
    (inputs[0].prev.Some? && inputs[0].prev.value !in seen && SpendOnce(inputs[1..], seen + {inputs[0].prev.value}))
  }

  function TxOf(r: Row): Tx {
    Tx(r.key, r.number, r.position, r.coinbase, r.inputs, r.outputs, Sum(r.inputs), r.fee)
  }

  /** The row of the key, when there is exactly one. */
  function Only(db: seq<Row>, key: Key): Option<Row> {
    var rows := Rows(db, key);
    if |rows| == 1 then Some(rows[0]) else None
  }

  /** The transaction that its key stands for: the only row of that key, checked. */
  predicate Loaded(db: seq<Row>, tx: Tx) {
    var r := Only(db, tx.key);
    r.Some? && Consistent(r.value) && tx == TxOf(r.value)
  }

  lemma {:induction false} RowsOf(db: seq<Row>, key: Key)
    ensures forall r :: r in Rows(db, key) <==> r in db && r.key == key
  {
    if db != [] {
      RowsOf(db[1..], key);
      assert db == [db[0]] + db[1..];
    }
  }

  lemma OnlyOf(db: seq<Row>, key: Key)
    ensures Only(db, key).Some? ==> Only(db, key).value.key == key && Only(db, key).value in db
  {
    RowsOf(db, key);
    if |Rows(db, key)| == 1 {
      assert Rows(db, key)[0] in Rows(db, key);
    }
  }

  lemma LoadedOnce(db: seq<Row>, a: Tx, b: Tx)
    requires Loaded(db, a) && Loaded(db, b) && a.key == b.key
    ensures a == b
  {
  }

  // ----- a database without faults -----

  predicate SameLeg(a: Leg, b: Leg) {
    a.value == b.value && a.subject == b.subject
  }

  /** The input of `r` carries what the output of `c` that it names carries. */
  predicate Agrees(c: Row, r: Row, i: nat)
    requires i < |r.inputs|
  {
    var p := r.inputs[i].prev;
    p.Some? && p.value.hash == c.key.hash && p.value.index < |c.outputs|
      && Earlier(c.number, c.position, r.number, r.position) ==>
      SameLeg(c.outputs[p.value.index], r.inputs[i])
  }

  /** Every key has one row, every row adds up, and every input carries what the
    * output that it spends carries. */
  ghost predicate Sane(db: seq<Row>) {
    && (forall r {:trigger Only(db, r.key)} :: r in db ==> Only(db, r.key) == Some(r) && Consistent(r))
    && (forall c, r, i {:trigger Agrees(c, r, i)} :: c in db && r in db && 0 <= i < |r.inputs| ==> Agrees(c, r, i))
  }

  lemma {:induction false} NumberedAt(legs: seq<Leg>, i: nat, k: nat)
    requires Numbered(legs, i) && k < |legs|
    ensures legs[k].index == i + k && legs[k].value <= SUPPLY
  {
    if k > 0 {
      NumberedAt(legs[1..], i + 1, k - 1);
    }
  }

  lemma {:induction false} SpendsSomething(inputs: seq<Leg>, seen: set<Outpoint>, k: nat)
    requires SpendOnce(inputs, seen) && k < |inputs|
    ensures inputs[k].prev.Some?
  {
    if k > 0 {
      SpendsSomething(inputs[1..], seen + {inputs[0].prev.value}, k - 1);
    }
  }

  /** In a database without faults, what `previous` looks at is there and agrees. */
  lemma PreviousFits(db: seq<Row>, tx: Tx, input: Leg)
    requires Sane(db) && Loaded(db, tx) && input in tx.inputs
    ensures input.prev.Some?
    ensures var row := CreatorRow(db, input.prev.value, tx.number, tx.position);
            row.Some? ==>
              && Only(db, row.value.key) == row && Consistent(row.value)
              && input.prev.value.index < |row.value.outputs|
              && SameLeg(row.value.outputs[input.prev.value.index], input)
  {
    var r := Only(db, tx.key).value;
    OnlyOf(db, tx.key);
    var i: nat :| i < |r.inputs| && r.inputs[i] == input;
    SpendsSomething(r.inputs, {}, i);
    var row := CreatorRow(db, input.prev.value, tx.number, tx.position);
    if row.Some? {
      var c := row.value;
      assert Only(db, c.key) == Some(c) && Agrees(c, r, i);
      var o: nat :| o < |c.outputs| && c.outputs[o].index == input.prev.value.index;
      NumberedAt(c.outputs, 0, o);
    }
  }

  /** And so is what `spender` looks at. */
  lemma SpenderFits(db: seq<Row>, p: Outpoint, number: nat, position: nat)
    requires Sane(db)
    ensures var row := SpenderRow(db, p, number, position);
            row.Some? ==>
              && Only(db, row.value.key) == row && Consistent(row.value)
              && row.value.inputs[InputSpending(row.value.inputs, p)].index < |row.value.inputs|
  {
    var row := SpenderRow(db, p, number, position);
    if row.Some? {
      assert Only(db, row.value.key) == row;
      NumberedAt(row.value.inputs, 0, InputSpending(row.value.inputs, p));
    }
  }

  datatype Error = Ambiguous | Inconsistent | PrevoutMissing | PrevoutMismatch

  /** `Reader`: loads transactions once, within a budget of transactions and legs. */
  class Reader {
    const db: seq<Row>
    const maxTransactions: nat
    const maxLegs: nat
    const maxEdges: nat
    var cache: map<Key, Tx>
    var legs: nat
    var truncated: bool
    var missing: nat

    ghost predicate Valid()
      reads this
    {
      && |cache| <= maxTransactions && legs <= maxLegs
      && forall k :: k in cache ==> cache[k].key == k && Loaded(db, cache[k])
    }

    constructor (db: seq<Row>, maxTransactions: nat, maxLegs: nat, maxEdges: nat)
      ensures Valid() && this.db == db && this.maxTransactions == maxTransactions
      ensures this.maxLegs == maxLegs && this.maxEdges == maxEdges
      ensures cache == map[] && legs == 0 && !truncated && missing == 0
    {
      this.db, this.maxTransactions, this.maxLegs, this.maxEdges := db, maxTransactions, maxLegs, maxEdges;
      cache, legs, truncated, missing := map[], 0, false, 0;
    }

    /** The transaction of the key; nothing, and then `truncated`, when it is over
      * budget; an error when it is absent, ambiguous or does not add up. */
    method Load(key: Key) returns (r: Result<Option<Tx>, Error>)
      requires Valid()
      modifies this
      ensures Valid() && missing == old(missing)
      ensures r.Ok? && r.value.Some? ==>
                && r.value.value.key == key && Loaded(db, r.value.value) && truncated == old(truncated)
                && cache == old(cache)[key := r.value.value]
                && legs == old(legs) + (if key in old(cache) then 0
                                        else |r.value.value.inputs| + |r.value.value.outputs|)
      ensures !(r.Ok? && r.value.Some?) ==> cache == old(cache) && legs == old(legs)
      ensures r.Ok? && r.value.None? ==>
                && truncated && key !in old(cache)
                && (|old(cache)| < maxTransactions ==>
                    Only(db, key).Some? && OverBudget(Only(db, key).value, old(legs)))
      ensures r.Err? ==>
        key !in cache && truncated == old(truncated) && (Only(db, key).None? || !Consistent(Only(db, key).value))
    {
      if key in cache {
        assert cache == cache[key := cache[key]];
        r := Ok(Some(cache[key]));
      } else if |cache| >= maxTransactions {
        truncated := true;
        r := Ok(None);
      } else {
        var row := Only(db, key);
        if row.None? {
          r := Err(Ambiguous);
        } else {
          r := Admit(key, row.value);
        }
      }
    }

    /** The row, if it fits the budget and adds up; it is then remembered. */
    method Admit(key: Key, row: Row) returns (r: Result<Option<Tx>, Error>)
      requires Valid() && key !in cache && |cache| < maxTransactions && Only(db, key) == Some(row)
      modifies this
      ensures Valid() && missing == old(missing)
      ensures r == if OverBudget(row, old(legs)) then Ok(None) else if Consistent(row) then Ok(Some(TxOf(row)))
        else Err(Inconsistent)
      ensures truncated == (old(truncated) || r == Ok(None))
      ensures cache == if r == Ok(Some(TxOf(row))) then old(cache)[key := TxOf(row)] else old(cache)
      ensures legs == if r == Ok(Some(TxOf(row))) then old(legs) + |row.inputs| + |row.outputs| else old(legs)
      ensures row.key == key
    {
      OnlyOf(db, key);
      if OverBudget(row, legs) {
        truncated := true;
        r := Ok(None);
      } else if !Consistent(row) {
        r := Err(Inconsistent);
      } else {
        legs := legs + |row.inputs| + |row.outputs|;
        cache := cache[key := TxOf(row)];
        r := Ok(Some(TxOf(row)));
      }
    }

    /** Too many legs, by the counts of the header or by the edges themselves. */
    predicate OverBudget(h: Row, legs: nat)
    {
      || (h.inputCount.Some? && h.outputCount.Some? &&
            var n := Max(h.inputCount.value - (if h.coinbase == 1 then 1 else 0), 0) + h.outputCount.value;
            n > maxEdges || legs + n > maxLegs)
      || |h.inputs| + |h.outputs| > maxEdges
      || legs + |h.inputs| + |h.outputs| > maxLegs
    }

    /** Nothing was left out since the state given by its two counters. */
    predicate Whole(truncatedBefore: bool, missingBefore: nat)
      reads this
    {
      (truncated ==> truncatedBefore) && missing == missingBefore
    }

    /** The transaction that created the output spent by this input of `tx`. */
    method Previous(tx: Tx, input: Leg) returns (r: Result<Option<(Tx, nat)>, Error>)
      requires Valid() && Loaded(db, tx) && input in tx.inputs
      modifies this
      ensures Valid() && missing >= old(missing) && (old(truncated) ==> truncated)
      ensures forall k :: k in old(cache) ==> k in cache && cache[k] == old(cache)[k]
      ensures r.Ok? && r.value.Some? ==>
                var (parent, index) := r.value.value;
                && Loaded(db, parent) && Creates(parent, index, tx, input)
                && truncated == old(truncated) && missing == old(missing)
                && CreatorRow(db, input.prev.value, tx.number, tx.position).Some?
                && CreatorRow(db, input.prev.value, tx.number, tx.position).value.key == parent.key
      ensures Sane(db) ==> r.Ok?
      ensures r.Ok? && r.value.None? ==>
                || truncated
                || (missing == old(missing) + 1 && input.prev.Some?
                    && CreatorRow(db, input.prev.value, tx.number, tx.position).None?)
    {
      if Sane(db) {
        PreviousFits(db, tx, input);
      }
      if input.prev.None? {
        return Err(PrevoutMissing);
      }
      var row := CreatorRow(db, input.prev.value, tx.number, tx.position);
      if row.None? {
        missing := missing + 1;
        return Ok(None);
      }
      var loaded := Load(row.value.key);
      if loaded.Err? {
        return Err(loaded.error);
      }
      if loaded.value.None? {
        return Ok(None);
      }
      var parent, index := loaded.value.value, input.prev.value.index;
      if index >= |parent.outputs| {
        return Err(PrevoutMissing);
      }
      var output := parent.outputs[index];
      if !Before(parent, tx) || output.value != input.value || output.subject != input.subject {
        return Err(PrevoutMismatch);
      }
      r := Ok(Some((parent, index)));
    }

    /** The transaction that spends output `index` of `tx`, and by which input. */
    method Spender(tx: Tx, index: nat) returns (r: Result<Option<(Tx, nat)>, Error>)
      requires Valid() && Loaded(db, tx)
      modifies this
      ensures Valid() && missing >= old(missing) && (old(truncated) ==> truncated)
      ensures forall k :: k in old(cache) ==> k in cache && cache[k] == old(cache)[k]
      ensures r.Ok? && r.value.Some? ==>
                var (child, i) := r.value.value;
                && Loaded(db, child) && i < |child.inputs| && Creates(tx, index, child, child.inputs[i])
                && SpenderRow(db, Outpoint(tx.key.hash, index), tx.number, tx.position).Some?
                && SpenderRow(db, Outpoint(tx.key.hash, index), tx.number, tx.position).value.key == child.key
      ensures Sane(db) ==> r.Ok?
      ensures r.Ok? && r.value.None? ==>
                || truncated || missing > old(missing)
                || SpenderRow(db, Outpoint(tx.key.hash, index), tx.number, tx.position).None?
    {
      var p := Outpoint(tx.key.hash, index);
      var row := SpenderRow(db, p, tx.number, tx.position);
      if Sane(db) {
        SpenderFits(db, p, tx.number, tx.position);
      }
      if row.None? {
        r := Ok(None);
      } else {
        var loaded := Load(row.value.key);
        if loaded.Err? {
          r := Err(loaded.error);
        } else if loaded.value.None? {
          r := Ok(None);
        } else {
          var i := InputSpending(row.value.inputs, p);
          r := Bind(tx, index, loaded.value.value, row.value.inputs[i].index);
        }
      }
    }

    /** The child, if its input i really spends output `index` of this occurrence of
      * `tx`: a hash alone must not connect two occurrences. */
    method Bind(tx: Tx, index: nat, child: Tx, i: nat) returns (r: Result<Option<(Tx, nat)>, Error>)
      requires Valid() && Loaded(db, tx) && Loaded(db, child)
      modifies this
      ensures Valid() && missing >= old(missing) && (old(truncated) ==> truncated)
      ensures forall k :: k in old(cache) ==> k in cache && cache[k] == old(cache)[k]
      ensures r.Ok? && r.value.Some? ==>
                r.value.value == (child, i) && i < |child.inputs| && Creates(tx, index, child, child.inputs[i])
      ensures r.Ok? && r.value.None? ==> truncated || missing > old(missing)
      ensures Sane(db) && i < |child.inputs| ==> r.Ok?
    {
      if i >= |child.inputs| {
        r := Err(PrevoutMissing);
      } else {
        var previous := Previous(child, child.inputs[i]);
        if previous.Err? {
          r := Err(previous.error);
        } else if previous.value.None? {
          r := Ok(None);
        } else {
          var (parent, parentIndex) := previous.value.value;
          if parent.key != tx.key || parentIndex != index {
            missing := missing + 1;
            r := Ok(None);
          } else {
            LoadedOnce(db, parent, tx);
            r := Ok(Some((child, i)));
          }
        }
      }
    }
  }

  /** Output `index` of `parent` is what this input of `tx` spends. */
  predicate Creates(parent: Tx, index: nat, tx: Tx, input: Leg) {
    && input in tx.inputs && input.prev == Some(Outpoint(parent.key.hash, index))
    && index < |parent.outputs|
    && parent.outputs[index].value == input.value && parent.outputs[index].subject == input.subject
    && Before(parent, tx)
  }

  // ----- one peel -----

  function Positive(legs: seq<Leg>): (r: seq<Leg>)
    ensures forall i :: 0 <= i < |r| ==> r[i].value > 0
  {
    if legs == [] then []
    else if legs[0].value > 0 then [legs[0]] + Positive(legs[1..])
    else Positive(legs[1..])
  }

  /** The index of the large output of a transaction with the shape of a peel. */
  function Peel(tx: Tx): Option<nat> {
    if tx.coinbase == 1 || |tx.inputs| != 1 || |tx.inputs| + |tx.outputs| > MAX_LEGS then None
    else
      var outputs := Positive(tx.outputs);
      if |outputs| != 2 then None
      else
        var (large, small) := if outputs[0].value > outputs[1].value then (outputs[0], outputs[1])
          else (outputs[1], outputs[0]);
        if large.value / small.value >= 4 && large.value < tx.inputs[0].value then Some(large.index) else None
  }
}
