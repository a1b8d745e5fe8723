/**
 The BSC exposure search: bounded enumeration, in both directions, of continuing transfer chains
 from a subject to reviewed seed addresses, with services as boundaries. A transfer chain is
 searched under caps on states, cached addresses, rows, labels, queue length and transfers, which raise
 the `truncated` flag. The search works on the replies of its queries; what the query for claims cuts off
 is the subject of ExposureReport.
 */
module Exposure {
  import opened Common

  datatype Address = Address(text: string)
  const ZERO_ADDRESS := Address("0x0000000000000000000000000000000000000000")

  datatype Edge = Edge(
    id: string,
    from: Address,
    to: Address,
    txHash: string,
    block: nat,
    txIndex: nat,
    asset: string,
    token: string)

  datatype EntityKind = Exchange | Bridge | Custodian | Dex | OtherKind(text: string)
  datatype Label = Label(claimId: string, kind: EntityKind, seed: bool)

  /** A chain of transfers from the subject: backwards in time when `incoming`. */
  datatype Trail = Trail(incoming: bool, addresses: seq<Address>, edges: seq<Edge>)

  datatype Row = Row(
    trail: Trail,
    seedAddress: Address,
    claim: Label,
    hopCount: nat,
    asset: string,
    serviceMediated: bool)

  /** The stored transfers of an address (a reply has at most 101) and its claims, each in the order of its query. */
  datatype Replies = Replies(edges: Address -> seq<Edge>, labels: Address -> seq<Label>)

  datatype Report = Report(rows: seq<Row>, truncated: bool)

  const MAX_STATES: nat := 1000
  const MAX_ADDRESSES: nat := 32
  const MAX_ROWS: nat := 50
  const MAX_EDGES: nat := 100
  const MAX_LABELS: nat := 128
  const MAX_QUEUED: nat := 1000
  const MAX_HOPS: nat := 3

  predicate ServiceLabel(l: Label) {
    !l.kind.OtherKind?
  }

  predicate Service(labels: seq<Label>) {
    exists i :: 0 <= i < |labels| && ServiceLabel(labels[i])
  }

  predicate PositionLess(a: Edge, b: Edge) {
    a.block < b.block || (a.block == b.block && a.txIndex < b.txIndex)
  }

  /** Whether `next` continues the chain after `previous`: same asset, another transaction, ordered in time. */
  predicate Continues(previous: Edge, next: Edge, incoming: bool) {
    && previous.asset == next.asset
    && previous.token == next.token
    && previous.txHash != next.txHash
    && if incoming then PositionLess(next, previous) else PositionLess(previous, next)
  }

  function NextAddress(incoming: bool, e: Edge, current: Address): Option<Address> {
    if incoming && e.to == current then Some(e.from)
    else if !incoming && e.from == current then Some(e.to)
    else None
  }

  // ----- what a row is -----

  predicate Linked(db: Replies, t: Trail, k: nat)
    requires |t.addresses| == |t.edges| + 1 && k < |t.edges|
  {
    && t.edges[k] in db.edges(t.addresses[k])
    && NextAddress(t.incoming, t.edges[k], t.addresses[k]) == Some(t.addresses[k + 1])
    && t.addresses[k + 1] != ZERO_ADDRESS
    && (k > 0 ==> Continues(t.edges[k - 1], t.edges[k], t.incoming))
  }

  /** A simple chain of continuing transfers that starts at the subject and avoids the zero address. */
  predicate Chain(db: Replies, subject: Address, t: Trail) {
    && |t.addresses| == |t.edges| + 1
    && t.addresses[0] == subject
    && Distinct(t.addresses)
    && (forall k :: 0 <= k < |t.edges| ==> Linked(db, t, k))
  }

  function Last(t: Trail): Address
    requires |t.addresses| > 0
  {
    t.addresses[|t.addresses| - 1]
  }

  /** No address that the chain passes through is a service; a service subject allows one hop only. */
  predicate Unmediated(db: Replies, t: Trail)
    requires |t.addresses| == |t.edges| + 1
  {
    forall k :: 0 <= k < |t.edges| && (k > 0 || |t.edges| > 1) ==> !Service(db.labels(t.addresses[k]))
  }

  /** A chain that the report covers: at most three transfers, services only at its ends. */
  predicate Covered(db: Replies, subject: Address, t: Trail) {
    && Chain(db, subject, t)
    && 1 <= |t.edges| <= MAX_HOPS
    && Unmediated(db, t)
  }

  function RowOf(db: Replies, subject: Address, t: Trail, l: Label): Row
    requires |t.addresses| > 0 && |t.edges| > 0
  {
    Row(t, Last(t), l, |t.edges|, t.edges[|t.edges| - 1].asset,
        Service(db.labels(subject)) || Service(db.labels(Last(t))))
  }

  /** The rows of one covered chain: one for each seed label of its last address, in label order. */
  function SeedRows(db: Replies, subject: Address, t: Trail, labels: seq<Label>): (rows: seq<Row>)
    requires |t.addresses| > 0 && |t.edges| > 0
  {
    if labels == [] then []
    else
      (if labels[0].seed then [RowOf(db, subject, t, labels[0])] else []) + SeedRows(db, subject, t, labels[1..])
  }

  lemma {:induction false} SeedRowsMeaning(db: Replies, subject: Address, t: Trail, labels: seq<Label>)
    requires |t.addresses| > 0 && |t.edges| > 0
    ensures forall r :: r in SeedRows(db, subject, t, labels) <==>
              (exists l :: l in labels && l.seed && r == RowOf(db, subject, t, l))
    ensures Distinct(labels) ==> Distinct(SeedRows(db, subject, t, labels))
    ensures forall r :: r in SeedRows(db, subject, t, labels) ==> r.trail == t
    decreases |labels|
  {
    if labels != [] {
      SeedRowsMeaning(db, subject, t, labels[1..]);
      assert labels == [labels[0]] + labels[1..];
      var tail := SeedRows(db, subject, t, labels[1..]);
      if Distinct(labels) && labels[0].seed {
        assert RowOf(db, subject, t, labels[0]) !in tail;
      }
    }
  }

  // ----- prefixes -----

  function Parent(t: Trail): Trail
    requires |t.edges| > 0 && |t.addresses| > 0
  {
    Trail(t.incoming, t.addresses[..|t.addresses| - 1], t.edges[..|t.edges| - 1])
  }

  function Extend(x: Trail, e: Edge, next: Address): Trail {
    Trail(x.incoming, x.addresses + [next], x.edges + [e])
  }

  predicate Before(q: Trail, t: Trail) {
    && q.incoming == t.incoming
    && |q.addresses| == |q.edges| + 1
    && |t.addresses| == |t.edges| + 1
    && |q.edges| < |t.edges|
    && q.edges == t.edges[..|q.edges|]
    && q.addresses == t.addresses[..|q.edges| + 1]
  }

  predicate Pending(queue: seq<Trail>, t: Trail) {
    exists i :: 0 <= i < |queue| && Before(queue[i], t)
  }

  predicate Reported(db: Replies, subject: Address, rows: seq<Row>, t: Trail)
    requires |t.addresses| > 0 && |t.edges| > 0
  {
    forall l :: l in db.labels(Last(t)) && l.seed ==> RowOf(db, subject, t, l) in rows
  }

  /** The edges from position `j` on still have to lead from `x` towards `t`. */
  predicate Awaits(x: Trail, edges: seq<Edge>, j: nat, t: Trail) {
    && Before(x, t)
    && (exists m :: j <= m < |edges| && edges[m] == t.edges[|x.edges|])
  }

  // ----- invariants -----

  /** A queued chain may grow: no service on it, and room for another transfer. */
  predicate Growing(db: Replies, subject: Address, t: Trail) {
    && Chain(db, subject, t)
    && |t.edges| < MAX_HOPS
    && (|t.edges| > 0 ==> forall k :: 0 <= k <= |t.edges| ==> !Service(db.labels(t.addresses[k])))
  }

  predicate Root(subject: Address, t: Trail) {
    t.addresses == [subject] && t.edges == []
  }

  predicate GoodRow(db: Replies, subject: Address, r: Row) {
    && Covered(db, subject, r.trail)
    && r.claim in db.labels(Last(r.trail)) && r.claim.seed
    && r == RowOf(db, subject, r.trail, r.claim)
  }

  ghost predicate Complete(db: Replies, subject: Address, queue: seq<Trail>, rows: seq<Row>) {
    forall t :: Covered(db, subject, t) ==> Reported(db, subject, rows, t) || Pending(queue, t)
  }

  ghost predicate CompleteFrom(db: Replies, subject: Address, queue: seq<Trail>, rows: seq<Row>,
                               x: Trail, edges: seq<Edge>, j: nat) {
    forall t :: Covered(db, subject, t) ==>
      Reported(db, subject, rows, t) || Pending(queue, t) || Awaits(x, edges, j, t)
  }

  /** `done` holds every chain built so far; chains are built once because their parents are popped once. */
  ghost predicate Once(subject: Address, queue: seq<Trail>, rows: seq<Row>, done: set<Trail>) {
    && Distinct(queue)
    && Distinct(rows)
    && (forall i {:trigger queue[i]} :: 0 <= i < |queue| ==> Root(subject, queue[i]) || queue[i] in done)
    && (forall i {:trigger rows[i]} :: 0 <= i < |rows| ==> rows[i].trail in done)
    && (forall t :: t in done ==>
          && |t.edges| > 0 && |t.addresses| == |t.edges| + 1
          && (Root(subject, Parent(t)) || Parent(t) in done)
          && Parent(t) !in queue)
  }

  ghost predicate SearchInv(db: Replies, subject: Address, queue: seq<Trail>, rows: seq<Row>, done: set<Trail>) {
    && (forall i {:trigger Growing(db, subject, queue[i])} :: 0 <= i < |queue| ==> Growing(db, subject, queue[i]))
    && (forall i {:trigger GoodRow(db, subject, rows[i])} :: 0 <= i < |rows| ==> GoodRow(db, subject, rows[i]))
    && Once(subject, queue, rows, done)
  }

  /** While the edges of the popped chain `x` are taken: only its earlier edges have built children. */
  ghost predicate ExpandInv(db: Replies, subject: Address, x: Trail, edges: seq<Edge>, j: nat,
                            queue: seq<Trail>, rows: seq<Row>, done: set<Trail>) {
    && SearchInv(db, subject, queue, rows, done)
    && x !in queue
    && (Root(subject, x) || x in done)
    && j <= |edges|
    && (forall t :: t in done && Parent(t) == x ==> exists m :: 0 <= m < j && t.edges == x.edges + [edges[m]])
  }

  ghost predicate ValidReplies(db: Replies) {
    && (forall a :: Distinct(db.edges(a)) && |db.edges(a)| <= MAX_EDGES + 1)
    && (forall a :: Distinct(db.labels(a)))
  }

  // ----- one edge -----

  /** The edge continues the chain `x` to the new address `next`. */
  predicate Opens(x: Trail, e: Edge, next: Address) {
    && |x.addresses| == |x.edges| + 1
    && NextAddress(x.incoming, e, Last(x)) == Some(next)
    && next != ZERO_ADDRESS
    && next !in x.addresses
    && (|x.edges| > 0 ==> Continues(x.edges[|x.edges| - 1], e, x.incoming))
  }

  lemma ChainExtends(db: Replies, subject: Address, x: Trail, e: Edge, next: Address)
    requires Growing(db, subject, x) && Opens(x, e, next) && e in db.edges(Last(x))
    ensures Covered(db, subject, Extend(x, e, next))
    ensures Parent(Extend(x, e, next)) == x
    ensures |x.edges| + 1 < MAX_HOPS && !Service(db.labels(subject)) && !Service(db.labels(next)) ==>
              Growing(db, subject, Extend(x, e, next))
  {
    var y := Extend(x, e, next);
    forall k | 0 <= k < |y.edges|
      ensures Linked(db, y, k)
    {
      if k < |x.edges| { assert Linked(db, x, k); }
    }
  }

  lemma LeadingEdge(db: Replies, subject: Address, x: Trail, e: Edge, t: Trail)
    requires Growing(db, subject, x) && Covered(db, subject, t) && Before(x, t) && e == t.edges[|x.edges|]
    ensures var next := t.addresses[|x.edges| + 1];
            var y := Extend(x, e, next);
            && Opens(x, e, next)
            && (t == y || (Before(y, t) && |y.edges| < MAX_HOPS
                           && !Service(db.labels(subject)) && !Service(db.labels(next))))
  {
    var k := |x.edges|;
    var next := t.addresses[k + 1];
    assert Linked(db, t, k);
    assert Last(x) == t.addresses[k];
    forall i | 0 <= i < |x.addresses|
      ensures x.addresses[i] != next
    {
      assert x.addresses[i] == t.addresses[i];
    }
    if k > 0 {
      assert x.edges[k - 1] == t.edges[k - 1];
    }
    assert t.addresses[..k + 2] == x.addresses + [next];
    assert t.edges[..k + 1] == x.edges + [e];
    if |t.edges| == k + 1 {
      assert t.addresses == t.addresses[..k + 2] && t.edges == t.edges[..k + 1];
    } else {
      assert !Service(db.labels(t.addresses[k + 1]));
      assert !Service(db.labels(t.addresses[0]));
    }
  }

  lemma PendingGrows(queue: seq<Trail>, y: Trail, t: Trail)
    requires Pending(queue, t) || Before(y, t)
    ensures Pending(queue + [y], t)
  {
    if Pending(queue, t) {
      var i :| 0 <= i < |queue| && Before(queue[i], t);
      assert (queue + [y])[i] == queue[i];
    } else {
      assert (queue + [y])[|queue|] == y;
    }
  }

  lemma PrefixAwaits(db: Replies, subject: Address, x: Trail, t: Trail)
    requires Chain(db, subject, x) && Chain(db, subject, t) && Before(x, t)
    ensures Awaits(x, db.edges(Last(x)), 0, t)
  {
    assert Linked(db, t, |x.edges|);
    assert Last(x) == t.addresses[|x.edges|];
    var m :| 0 <= m < |db.edges(Last(x))| && db.edges(Last(x))[m] == t.edges[|x.edges|];
  }

  /** Passing over an edge that does not continue the chain leaves nothing behind. */
  lemma SkipCompletes(db: Replies, subject: Address, queue: seq<Trail>, rows: seq<Row>, x: Trail, edges: seq<Edge>,
                      j: nat)
    requires Growing(db, subject, x) && j < |edges|
    requires CompleteFrom(db, subject, queue, rows, x, edges, j)
    requires forall next :: !Opens(x, edges[j], next)
    ensures CompleteFrom(db, subject, queue, rows, x, edges, j + 1)
  {
    forall t | Covered(db, subject, t)
      ensures Reported(db, subject, rows, t) || Pending(queue, t) || Awaits(x, edges, j + 1, t)
    {
      if !Reported(db, subject, rows, t) && !Pending(queue, t) {
        var m :| j <= m < |edges| && edges[m] == t.edges[|x.edges|];
        if m == j {
          LeadingEdge(db, subject, x, edges[j], t);
        }
      }
    }
  }

  /** Emitting the rows of the extended chain and queueing it where it may grow leaves nothing behind. */
  lemma StepCompletes(db: Replies, subject: Address, queue: seq<Trail>, rows: seq<Row>, x: Trail, edges: seq<Edge>,
                      j: nat,
                      next: Address, queue': seq<Trail>)
    requires Growing(db, subject, x) && j < |edges| && Opens(x, edges[j], next)
    requires CompleteFrom(db, subject, queue, rows, x, edges, j)
    requires var y := Extend(x, edges[j], next);
             queue' == if !Service(db.labels(subject)) && !Service(db.labels(next)) && |y.edges| < MAX_HOPS
                       then queue + [y] else queue
    ensures var y := Extend(x, edges[j], next);
            CompleteFrom(db, subject, queue', rows + SeedRows(db, subject, y, db.labels(next)), x, edges, j + 1)
  {
    var y := Extend(x, edges[j], next);
    var more := SeedRows(db, subject, y, db.labels(next));
    SeedRowsMeaning(db, subject, y, db.labels(next));
    forall t | Covered(db, subject, t)
      ensures Reported(db, subject, rows + more, t) || Pending(queue', t) || Awaits(x, edges, j + 1, t)
    {
      if !Reported(db, subject, rows, t) {
        if Pending(queue, t) {
          if queue' != queue { PendingGrows(queue, y, t); }
        } else {
          var m :| j <= m < |edges| && edges[m] == t.edges[|x.edges|];
          if m == j {
            LeadingEdge(db, subject, x, edges[j], t);
            if t != y { PendingGrows(queue, y, t); }
          }
        }
      }
    }
  }

  /** A new child of the popped chain was never built before. */
  lemma NewChild(db: Replies, subject: Address, x: Trail, edges: seq<Edge>, j: nat, next: Address,
                 queue: seq<Trail>, rows: seq<Row>, done: set<Trail>)
    requires ExpandInv(db, subject, x, edges, j, queue, rows, done)
    requires Growing(db, subject, x) && j < |edges| && Distinct(edges) && Opens(x, edges[j], next)
    ensures var y := Extend(x, edges[j], next);
            && y !in done && y !in queue && !Root(subject, y) && Parent(y) == x && x != y
            && (forall t :: t in done ==> Parent(t) != y)
  {
    var y := Extend(x, edges[j], next);
    assert Parent(y) == x;
    forall m | 0 <= m < j
      ensures y.edges != x.edges + [edges[m]]
    {
      assert y.edges[|x.edges|] == edges[j] && (x.edges + [edges[m]])[|x.edges|] == edges[m];
    }
  }

  lemma EmitInv(db: Replies, subject: Address, x: Trail, edges: seq<Edge>, j: nat, next: Address,
                queue: seq<Trail>, rows: seq<Row>, done: set<Trail>)
    requires ExpandInv(db, subject, x, edges, j, queue, rows, done) && ValidReplies(db)
    requires Growing(db, subject, x) && j < |edges| && Distinct(edges) && Opens(x, edges[j], next)
    requires edges[j] in db.edges(Last(x))
    ensures var y := Extend(x, edges[j], next);
            ExpandInv(db, subject, x, edges, j + 1, queue, rows + SeedRows(db, subject, y, db.labels(next)), done + {y})
  {
    var y := Extend(x, edges[j], next);
    var more := SeedRows(db, subject, y, db.labels(next));
    ChainExtends(db, subject, x, edges[j], next);
    NewChild(db, subject, x, edges, j, next, queue, rows, done);
    SeedRowsMeaning(db, subject, y, db.labels(next));
    forall i | 0 <= i < |rows + more|
      ensures GoodRow(db, subject, (rows + more)[i]) && (rows + more)[i].trail in done + {y}
    {
      if i < |rows| {
        assert (rows + more)[i] == rows[i] && GoodRow(db, subject, rows[i]);
      } else {
        assert (rows + more)[i] == more[i - |rows|] && more[i - |rows|] in more;
      }
    }
    forall r | r in rows
      ensures r !in more
    {
      var i :| 0 <= i < |rows| && rows[i] == r;
    }
    DistinctConcat(rows, more);
  }

  lemma QueueInv(db: Replies, subject: Address, x: Trail, edges: seq<Edge>, j: nat,
                 queue: seq<Trail>, rows: seq<Row>, done: set<Trail>, y: Trail)
    requires ExpandInv(db, subject, x, edges, j, queue, rows, done)
    requires Growing(db, subject, y) && y in done && y !in queue && y != x
    requires forall t :: t in done ==> Parent(t) != y
    ensures ExpandInv(db, subject, x, edges, j, queue + [y], rows, done)
  {
    var more := queue + [y];
    DistinctConcat(queue, [y]);
    assert forall t :: t in more <==> t in queue || t == y;
    forall i | 0 <= i < |more|
      ensures Growing(db, subject, more[i]) && (Root(subject, more[i]) || more[i] in done)
    {
      if i < |queue| {
        assert more[i] == queue[i] && Growing(db, subject, queue[i]);
      }
    }
  }

  lemma SkipInv(db: Replies, subject: Address, x: Trail, edges: seq<Edge>, j: nat,
                queue: seq<Trail>, rows: seq<Row>, done: set<Trail>)
    requires ExpandInv(db, subject, x, edges, j, queue, rows, done) && j < |edges|
    ensures ExpandInv(db, subject, x, edges, j + 1, queue, rows, done)
  {
  }

  lemma PopInv(db: Replies, subject: Address, queue: seq<Trail>, rows: seq<Row>, done: set<Trail>, edges: seq<Edge>)
    requires SearchInv(db, subject, queue, rows, done) && queue != []
    ensures Growing(db, subject, queue[0])
    ensures ExpandInv(db, subject, queue[0], edges, 0, queue[1..], rows, done)
  {
    var rest := queue[1..];
    assert Growing(db, subject, queue[0]);
    forall i | 0 <= i < |rest|
      ensures Growing(db, subject, rest[i]) && (Root(subject, rest[i]) || rest[i] in done) && rest[i] != queue[0]
    {
      assert rest[i] == queue[i + 1] && Growing(db, subject, queue[i + 1]);
    }
    forall t | t in done
      ensures Parent(t) !in rest && Parent(t) != queue[0]
    {
    }
  }

  lemma InitialAwaits(db: Replies, subject: Address, queue: seq<Trail>, rows: seq<Row>)
    requires queue != [] && Growing(db, subject, queue[0]) && Complete(db, subject, queue, rows)
    ensures CompleteFrom(db, subject, queue[1..], rows, queue[0], db.edges(Last(queue[0])), 0)
  {
    var x, rest := queue[0], queue[1..];
    forall t | Covered(db, subject, t)
      ensures Reported(db, subject, rows, t) || Pending(rest, t) || Awaits(x, db.edges(Last(x)), 0, t)
    {
      if !Reported(db, subject, rows, t) {
        var i :| 0 <= i < |queue| && Before(queue[i], t);
        if i == 0 {
          PrefixAwaits(db, subject, x, t);
        } else {
          assert Before(rest[i - 1], t);
        }
      }
    }
  }

  lemma RootsInv(db: Replies, subject: Address)
    ensures SearchInv(db, subject, [Trail(false, [subject], []), Trail(true, [subject], [])], [], {})
    ensures Complete(db, subject, [Trail(false, [subject], []), Trail(true, [subject], [])], [])
  {
    var out, into := Trail(false, [subject], []), Trail(true, [subject], []);
    var queue := [out, into];
    assert Growing(db, subject, out) && Growing(db, subject, into);
    forall t | Covered(db, subject, t)
      ensures Pending(queue, t)
    {
      assert t.addresses[..1] == [subject] && t.edges[..0] == [];
      assert Before(queue[if t.incoming then 1 else 0], t);
    }
  }

  // ----- what the truncation flag stands for -----

  /** The address is the subject or ends a covered chain. */
  ghost predicate Met(db: Replies, subject: Address, a: Address) {
    a == subject || exists t :: Covered(db, subject, t) && |t.addresses| > 0 && Last(t) == a
  }

  /** The address ends a chain that may grow. */
  ghost predicate Expandable(db: Replies, subject: Address, a: Address) {
    exists t :: Growing(db, subject, t) && |t.addresses| > 0 && Last(t) == a
  }

  ghost predicate ManyChains(db: Replies, subject: Address) {
    exists q: seq<Trail> :: |q| >= MAX_QUEUED && Distinct(q)
      && forall i {:trigger Growing(db, subject, q[i])} :: 0 <= i < |q| ==> Growing(db, subject, q[i])
  }

  ghost predicate ManyRows(db: Replies, subject: Address) {
    exists rows: seq<Row> :: |rows| >= MAX_ROWS && Sound(db, subject, rows)
  }

  ghost predicate ManyExpanded(db: Replies, subject: Address) {
    exists addresses: set<Address> :: |addresses| >= MAX_ADDRESSES && forall a :: a in addresses ==>
      Expandable(db, subject, a)
  }

  ghost predicate ManyMet(db: Replies, subject: Address) {
    exists known: map<Address, seq<Label>> :: |known| >= MAX_LABELS && forall a :: a in known ==> Met(db, subject, a)
  }

  ghost predicate ManyTransfers(db: Replies, subject: Address) {
    exists a :: Expandable(db, subject, a) && |db.edges(a)| > MAX_EDGES
  }

  /** A report is marked truncated only when what the search had to cover met one of its caps. */
  ghost predicate Overflows(db: Replies, subject: Address) {
    || ManyChains(db, subject) || ManyRows(db, subject) || ManyExpanded(db, subject)
    || ManyMet(db, subject) || ManyTransfers(db, subject)
  }

  /** The walks queued after `queue0` were never built before. */
  predicate Newer(subject: Address, queue0: seq<Trail>, done0: set<Trail>, queue: seq<Trail>) {
    && queue0 <= queue
    && forall i {:trigger queue[i]} :: |queue0| <= i < |queue| ==> queue[i] !in done0 && !Root(subject, queue[i])
  }

  lemma NewerTwice(subject: Address, q0: seq<Trail>, d0: set<Trail>, q1: seq<Trail>, d1: set<Trail>, q2: seq<Trail>)
    requires Newer(subject, q0, d0, q1) && d0 <= d1 && Newer(subject, q1, d1, q2)
    ensures Newer(subject, q0, d0, q2)
  {
    forall i | |q0| <= i < |q2|
      ensures q2[i] !in d0 && !Root(subject, q2[i])
    {
      if i < |q1| {
        assert q2[i] == q1[i];
      }
    }
  }

  /** The chains taken from the queue so far: all different, and none of them queued again. */
  ghost predicate Popped(db: Replies, subject: Address, popped: seq<Trail>, queue: seq<Trail>, done: set<Trail>) {
    && Distinct(popped)
    && forall i {:trigger popped[i]} :: 0 <= i < |popped| ==>
         Growing(db, subject, popped[i]) && popped[i] !in queue && (Root(subject, popped[i]) || popped[i] in done)
  }

  lemma PoppedNext(db: Replies, subject: Address, popped: seq<Trail>, queue: seq<Trail>, rows: seq<Row>,
                   done: set<Trail>,
                   queue': seq<Trail>, done': set<Trail>)
    requires Popped(db, subject, popped, queue, done) && queue != []
    requires SearchInv(db, subject, queue, rows, done)
    requires Newer(subject, queue[1..], done, queue') && done <= done'
    ensures Popped(db, subject, popped + [queue[0]], queue', done')
  {
    var x, more := queue[0], popped + [queue[0]];
    assert Growing(db, subject, queue[0]);
    assert x in queue;
    forall i | 0 <= i < |more|
      ensures Growing(db, subject, more[i]) && more[i] !in queue' && (Root(subject, more[i]) || more[i] in done')
    {
      assert i < |popped| ==> more[i] == popped[i];
      forall k | 0 <= k < |queue'|
        ensures queue'[k] != more[i]
      {
        if k < |queue| - 1 {
          assert queue'[k] == queue[1..][k] == queue[k + 1];
        }
      }
    }
    forall i, j | 0 <= i < j < |more|
      ensures more[i] != more[j]
    {
      if j == |popped| {
        assert popped[i] !in queue;
      }
    }
  }

  lemma QueueOverflows(db: Replies, subject: Address, queue: seq<Trail>, rows: seq<Row>, done: set<Trail>)
    requires SearchInv(db, subject, queue, rows, done) && |queue| >= MAX_QUEUED
    ensures ManyChains(db, subject)
  {
  }

  lemma StatesOverflow(db: Replies, subject: Address, popped: seq<Trail>, queue: seq<Trail>, done: set<Trail>)
    requires Popped(db, subject, popped, queue, done) && |popped| >= MAX_QUEUED
    ensures ManyChains(db, subject)
  {
    assert forall i {:trigger Growing(db, subject, popped[i])} :: 0 <= i < |popped| ==> Growing(db, subject, popped[i]);
  }

  lemma RowsOverflow(db: Replies, subject: Address, queue: seq<Trail>, rows: seq<Row>, done: set<Trail>)
    requires SearchInv(db, subject, queue, rows, done) && |rows| >= MAX_ROWS
    ensures ManyRows(db, subject)
  {
    PrefixSound(db, subject, queue, rows, done, |rows|);
    assert rows[..|rows|] == rows;
  }

  // ----- the search -----

  /** The rows of one chain, appended one seed label at a time. */
  method EmitRows(db: Replies, subject: Address, y: Trail, labels: seq<Label>, boundary: bool, rows0: seq<Row>)
    returns (rows: seq<Row>)
    requires |y.addresses| > 0 && |y.edges| > 0
    requires boundary == (Service(db.labels(subject)) || Service(db.labels(Last(y))))
    ensures rows == rows0 + SeedRows(db, subject, y, labels)
  {
    rows := rows0;
    for i := 0 to |labels|
      invariant rows + SeedRows(db, subject, y, labels[i..]) == rows0 + SeedRows(db, subject, y, labels)
    {
      assert labels[i..][0] == labels[i] && labels[i..][1..] == labels[i + 1..];
      if labels[i].seed {
        rows := rows + [Row(y, Last(y), labels[i], |y.edges|, y.edges[|y.edges| - 1].asset, boundary)];
      }
    }
    assert labels[|labels|..] == [];
  }

  /** A transfer that continues the popped chain `x` to `next`: emit its rows, queue it where it may grow. */
  method FollowEdge(db: Replies, subject: Address, x: Trail, edges: seq<Edge>, j: nat, next: Address, boundary: bool,
                    queue0: seq<Trail>, rows0: seq<Row>, ghost done0: set<Trail>)
    returns (queue: seq<Trail>, rows: seq<Row>, truncated: bool, ghost done: set<Trail>)
    requires ValidReplies(db) && Growing(db, subject, x) && Distinct(edges) && j < |edges|
    requires edges[j] in db.edges(Last(x)) && Opens(x, edges[j], next)
    requires boundary == (Service(db.labels(subject)) || Service(db.labels(next)))
    requires ExpandInv(db, subject, x, edges, j, queue0, rows0, done0)
    ensures ExpandInv(db, subject, x, edges, j + 1, queue, rows, done)
    ensures !truncated ==>
      queue == if !boundary && |x.edges| + 1 < MAX_HOPS then queue0 + [Extend(x, edges[j], next)] else queue0
    ensures rows == rows0 + SeedRows(db, subject, Extend(x, edges[j], next), db.labels(next))
    ensures Newer(subject, queue0, done0, queue) && done0 <= done
    ensures truncated ==> |queue| >= MAX_QUEUED
  {
    var y := Extend(x, edges[j], next);
    queue, truncated := queue0, false;
    EmitInv(db, subject, x, edges, j, next, queue0, rows0, done0);
    rows := EmitRows(db, subject, y, db.labels(next), boundary, rows0);
    done := done0 + {y};
    if !boundary && |y.edges| < MAX_HOPS {
      if |queue| < MAX_QUEUED {
        NewChild(db, subject, x, edges, j, next, queue0, rows0, done0);
        ChainExtends(db, subject, x, edges[j], next);
        QueueInv(db, subject, x, edges, j + 1, queue, rows, done, y);
        queue := queue + [y];
      } else {
        truncated := true;
      }
    }
  }

  /** The label cache holds database replies, of addresses that the search met. */
  ghost predicate KnownRight(db: Replies, subject: Address, known: map<Address, seq<Label>>) {
    subject in known && forall a :: a in known ==> known[a] == db.labels(a) && Met(db, subject, a)
  }

  /** The continuing transfer makes its other end an address that was met. */
  lemma NextMet(db: Replies, subject: Address, x: Trail, e: Edge, next: Address)
    requires Growing(db, subject, x) && Opens(x, e, next) && e in db.edges(Last(x))
    ensures Met(db, subject, next)
  {
    ChainExtends(db, subject, x, e, next);
    assert Last(Extend(x, e, next)) == next;
  }

  /** One transfer of the popped chain `x`. */
  method TakeEdge(db: Replies, subject: Address, x: Trail, edges: seq<Edge>, j: nat,
                  queue0: seq<Trail>, rows0: seq<Row>, known0: map<Address, seq<Label>>, ghost done0: set<Trail>)
    returns (queue: seq<Trail>, rows: seq<Row>, known: map<Address, seq<Label>>, truncated: bool,
             ghost done: set<Trail>)
    requires ValidReplies(db) && Growing(db, subject, x) && Distinct(edges) && j < |edges|
    requires edges[j] in db.edges(Last(x))
    requires ExpandInv(db, subject, x, edges, j, queue0, rows0, done0)
    requires KnownRight(db, subject, known0)
    ensures ExpandInv(db, subject, x, edges, j + 1, queue, rows, done)
    ensures KnownRight(db, subject, known) && |known0| <= |known|
    ensures Newer(subject, queue0, done0, queue) && done0 <= done
    ensures truncated ==> |known| >= MAX_LABELS || |queue| >= MAX_QUEUED
    ensures !truncated && CompleteFrom(db, subject, queue0, rows0, x, edges, j) ==>
              CompleteFrom(db, subject, queue, rows, x, edges, j + 1)
  {
    queue, rows, known, truncated, done := queue0, rows0, known0, false, done0;
    var e := edges[j];
    var next := NextAddress(x.incoming, e, Last(x));
    if next.None? || next.value == ZERO_ADDRESS || next.value in x.addresses
       || (|x.edges| > 0 && !Continues(x.edges[|x.edges| - 1], e, x.incoming)) {
      SkipInv(db, subject, x, edges, j, queue, rows, done);
      if CompleteFrom(db, subject, queue, rows, x, edges, j) {
        SkipCompletes(db, subject, queue, rows, x, edges, j);
      }
    } else {
      known, truncated := Learn(db, subject, x, e, next.value, known0);
      if truncated {
        SkipInv(db, subject, x, edges, j, queue, rows, done);
      } else {
        var boundary := Service(known[subject]) || Service(known[next.value]);
        queue, rows, truncated, done := FollowEdge(db, subject, x, edges, j, next.value, boundary, queue, rows, done);
        if !truncated && CompleteFrom(db, subject, queue0, rows0, x, edges, j) {
          StepCompletes(db, subject, queue0, rows0, x, edges, j, next.value, queue);
        }
      }
    }
  }

  /** The labels of a new address are asked for once, as long as the cache has room. */
  method Learn(db: Replies, subject: Address, x: Trail, e: Edge, next: Address, known0: map<Address, seq<Label>>)
    returns (known: map<Address, seq<Label>>, full: bool)
    requires Growing(db, subject, x) && Opens(x, e, next) && e in db.edges(Last(x))
    requires KnownRight(db, subject, known0)
    ensures KnownRight(db, subject, known) && |known0| <= |known|
    ensures full ==> |known| >= MAX_LABELS
    ensures !full ==> next in known
  {
    known, full := known0, false;
    if next !in known {
      if |known| >= MAX_LABELS {
        full := true;
      } else {
        NextMet(db, subject, x, e, next);
        known := known[next := db.labels(next)];
      }
    }
  }

  /** All loaded transfers of the popped chain `x`. */
  method TakeEdges(db: Replies, subject: Address, x: Trail, edges: seq<Edge>,
                   queue0: seq<Trail>, rows0: seq<Row>, known0: map<Address, seq<Label>>, ghost done0: set<Trail>)
    returns (queue: seq<Trail>, rows: seq<Row>, known: map<Address, seq<Label>>, truncated: bool,
             ghost done: set<Trail>)
    requires ValidReplies(db) && Growing(db, subject, x) && Distinct(edges)
    requires forall k :: 0 <= k < |edges| ==> edges[k] in db.edges(Last(x))
    requires ExpandInv(db, subject, x, edges, 0, queue0, rows0, done0)
    requires KnownRight(db, subject, known0)
    ensures ExpandInv(db, subject, x, edges, |edges|, queue, rows, done)
    ensures KnownRight(db, subject, known) && |known0| <= |known|
    ensures Newer(subject, queue0, done0, queue) && done0 <= done
    ensures truncated ==> |known| >= MAX_LABELS || |queue| >= MAX_QUEUED
    ensures !truncated && CompleteFrom(db, subject, queue0, rows0, x, edges, 0) ==>
              CompleteFrom(db, subject, queue, rows, x, edges, |edges|)
  {
    queue, rows, known, truncated, done := queue0, rows0, known0, false, done0;
    ghost var whole := CompleteFrom(db, subject, queue0, rows0, x, edges, 0);
    for j := 0 to |edges|
      invariant ExpandInv(db, subject, x, edges, j, queue, rows, done)
      invariant KnownRight(db, subject, known) && |known0| <= |known|
      invariant Newer(subject, queue0, done0, queue) && done0 <= done
      invariant truncated ==> |known| >= MAX_LABELS || |queue| >= MAX_QUEUED
      invariant !truncated && whole ==> CompleteFrom(db, subject, queue, rows, x, edges, j)
    {
      var cut;
      ghost var q, d := queue, done;
      queue, rows, known, cut, done := TakeEdge(db, subject, x, edges, j, queue, rows, known, done);
      NewerTwice(subject, queue0, done0, q, d, queue);
      truncated := truncated || cut;
    }
  }

  /** The rows of the report: every cap is flagged, and without a flag the rows are exactly those of
      all covered chains, each once. */
  ghost predicate Sound(db: Replies, subject: Address, rows: seq<Row>) {
    && Distinct(rows)
    && (forall r :: r in rows ==> GoodRow(db, subject, r))
  }

  ghost predicate Exact(db: Replies, subject: Address, rows: seq<Row>) {
    && Distinct(rows)
    && (forall r :: r in rows <==> GoodRow(db, subject, r))
  }

  lemma CompleteExact(db: Replies, subject: Address, rows: seq<Row>, done: set<Trail>)
    requires SearchInv(db, subject, [], rows, done) && Complete(db, subject, [], rows)
    ensures Exact(db, subject, rows)
  {
    forall r | GoodRow(db, subject, r)
      ensures r in rows
    {
      assert Reported(db, subject, rows, r.trail);
    }
    forall r | r in rows
      ensures GoodRow(db, subject, r)
    {
      var i :| 0 <= i < |rows| && rows[i] == r;
      assert GoodRow(db, subject, rows[i]);
    }
  }

  lemma PrefixSound(db: Replies, subject: Address, queue: seq<Trail>, rows: seq<Row>, done: set<Trail>, n: nat)
    requires SearchInv(db, subject, queue, rows, done) && n <= |rows|
    ensures Sound(db, subject, rows[..n])
  {
    forall r | r in rows[..n]
      ensures GoodRow(db, subject, r)
    {
      var i :| 0 <= i < n && rows[i] == r;
      assert GoodRow(db, subject, rows[i]);
    }
  }

  /** The state of the search between two chains. */
  ghost predicate LoopInv(db: Replies, subject: Address, queue: seq<Trail>, rows: seq<Row>,
                          known: map<Address, seq<Label>>,
                          cached: set<Address>, truncated: bool, popped: seq<Trail>, done: set<Trail>) {
    && SearchInv(db, subject, queue, rows, done)
    && KnownRight(db, subject, known)
    && Popped(db, subject, popped, queue, done)
    && (forall a :: a in cached ==> Expandable(db, subject, a))
    && (!truncated ==> Complete(db, subject, queue, rows))
    && (truncated ==> Overflows(db, subject))
  }

  lemma CapsOverflow(db: Replies, subject: Address, queue: seq<Trail>, rows: seq<Row>, known: map<Address, seq<Label>>,
                     cached: set<Address>, truncated: bool, popped: seq<Trail>, done: set<Trail>)
    requires LoopInv(db, subject, queue, rows, known, cached, truncated, popped, done)
    requires |popped| >= MAX_STATES || |cached| >= MAX_ADDRESSES || |rows| >= MAX_ROWS
    ensures Overflows(db, subject)
  {
    if |popped| >= MAX_STATES {
      StatesOverflow(db, subject, popped, queue, done);
    } else if |rows| >= MAX_ROWS {
      RowsOverflow(db, subject, queue, rows, done);
    }
  }

  lemma CutOverflows(db: Replies, subject: Address, queue: seq<Trail>, rows: seq<Row>, known: map<Address, seq<Label>>,
                     done: set<Trail>)
    requires SearchInv(db, subject, queue, rows, done) && KnownRight(db, subject, known)
    requires |known| >= MAX_LABELS || |queue| >= MAX_QUEUED
    ensures Overflows(db, subject)
  {
    if |queue| >= MAX_QUEUED {
      QueueOverflows(db, subject, queue, rows, done);
    }
  }

  lemma HeadExpandable(db: Replies, subject: Address, x: Trail)
    requires Growing(db, subject, x)
    ensures |x.addresses| > 0 && Expandable(db, subject, Last(x))
  {
  }

  /** One chain of the queue: its transfers are loaded, cut at the cap, and followed. */
  method Visit(db: Replies, subject: Address, queue0: seq<Trail>, rows0: seq<Row>, known0: map<Address, seq<Label>>,
               ghost truncated0: bool, ghost popped: seq<Trail>, ghost done0: set<Trail>)
    returns (queue: seq<Trail>, rows: seq<Row>, known: map<Address, seq<Label>>, cut: bool, ghost done: set<Trail>)
    requires ValidReplies(db) && queue0 != []
    requires LoopInv(db, subject, queue0, rows0, known0, {}, truncated0, popped, done0)
    ensures |queue0[0].addresses| > 0 && Expandable(db, subject, Last(queue0[0]))
    ensures LoopInv(db, subject, queue, rows, known, {}, truncated0 || cut, popped + [queue0[0]], done)
  {
    var x := queue0[0];
    PopInv(db, subject, queue0, rows0, done0, []);
    HeadExpandable(db, subject, x);
    var edges := db.edges(Last(x));
    var long := |edges| > MAX_EDGES;
    if long {
      edges := edges[..MAX_EDGES];
    }
    PopInv(db, subject, queue0, rows0, done0, edges);
    if !truncated0 {
      InitialAwaits(db, subject, queue0, rows0);
    }
    queue, rows, known, cut, done := TakeEdges(db, subject, x, edges, queue0[1..], rows0, known0, done0);
    PoppedNext(db, subject, popped, queue0, rows0, done0, queue, done);
    if cut {
      CutOverflows(db, subject, queue, rows, known, done);
    } else if !long && !truncated0 {
      TakenAll(db, subject, queue, rows, x);
    }
    cut := cut || long;
  }

  lemma TakenAll(db: Replies, subject: Address, queue: seq<Trail>, rows: seq<Row>, x: Trail)
    requires |x.addresses| > 0 && CompleteFrom(db, subject, queue, rows, x, db.edges(Last(x)), |db.edges(Last(x))|)
    ensures Complete(db, subject, queue, rows)
  {
  }

  /** The search over replies, with every row found, in the order of discovery. */
  method Search(db: Replies, subject: Address) returns (r: Report)
    requires ValidReplies(db)
    ensures Sound(db, subject, r.rows)
    ensures !r.truncated ==> Exact(db, subject, r.rows)
    ensures r.truncated ==> Overflows(db, subject)
  {
    var known := map[subject := db.labels(subject)];
    var cached: set<Address> := {};
    var queue := [Trail(false, [subject], []), Trail(true, [subject], [])];
    var rows: seq<Row> := [];
    var states := 0;
    var truncated := false;
    ghost var done: set<Trail> := {};
    ghost var popped: seq<Trail> := [];
    RootsInv(db, subject);
    while queue != []
      invariant LoopInv(db, subject, queue, rows, known, cached, truncated, popped, done)
      invariant |popped| == states <= MAX_STATES
      decreases MAX_STATES - states
    {
      states := states + 1;
      if states > MAX_STATES || |cached| >= MAX_ADDRESSES || |rows| >= MAX_ROWS {
        CapsOverflow(db, subject, queue, rows, known, cached, truncated, popped, done);
        truncated := true;
        break;
      }
      var x := queue[0];
      var cut;
      queue, rows, known, cut, done := Visit(db, subject, queue, rows, known, truncated, popped, done);
      cached := cached + {Last(x)};
      popped := popped + [x];
      truncated := truncated || cut;
    }
    if !truncated {
      CompleteExact(db, subject, rows, done);
    }
    PrefixSound(db, subject, queue, rows, done, |rows|);
    assert rows[..|rows|] == rows;
    r := Report(rows, truncated);
  }
}
