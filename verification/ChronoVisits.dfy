/**
 Which addresses the Bitcoin connectivity search meets, in which order, and by which payment: breadth first over the
 payers, transactions of a payer by their texts, outputs of a transaction by their ids. The first payment of an
 address is kept, and only what is spent after it is followed.
 */
module ChronoVisits {
  import opened Common
  import opened ChronoTrails

  /** A met address, by the payment that met it and the place of its payer. The source has no payment. */
  datatype Visit = Visit(address: Node, depth: nat, link: Option<Link>, payer: nat)

  function Item(v: Visit): Queued {
    Queued(v.address, v.depth, if v.link.None? then None else Some(v.link.value.input.position))
  }

  predicate IsVisited(visits: seq<Visit>, a: Node) {
    exists j :: 0 <= j < |visits| && visits[j].address == a
  }

  /** The edge spends from the current address in a transaction after the one that reached it. */
  predicate Spends(e: Edge, q: Queued) {
    && e.from == q.address && e.transfer == UtxoInput
    && (q.after.None? || Before(q.after.value, e.position))
  }

  // ----- the spending transactions of an address -----

  /** One entry for each transaction, in the order of their texts; a later entry replaces an earlier one. */
  function Put(ins: seq<Edge>, e: Edge): seq<Edge> {
    if ins == [] then [e]
    else if ins[0].to == e.to then [e] + ins[1..]
    else if Less(e.to.text, ins[0].to.text) then [e] + ins
    else [ins[0]] + Put(ins[1..], e)
  }

  /** The spending inputs, one for each transaction, in the order of the transactions. */
  function Inputs(edges: seq<Edge>, q: Queued): seq<Edge> {
    if edges == [] then []
    else
      var n := |edges| - 1;
      var ins := Inputs(edges[..n], q);
      if Spends(edges[n], q) then Put(ins, edges[n]) else ins
  }

  /** The transactions ascend and differ. */
  predicate TxAscending(ins: seq<Edge>) {
    forall i, j :: 0 <= i < j < |ins| ==> ins[i].to != ins[j].to && !Less(ins[j].to.text, ins[i].to.text)
  }

  /** The last edge in id order that spends in its transaction. */
  predicate LastSpend(edges: seq<Edge>, q: Queued, e: Edge) {
    exists i :: 0 <= i < |edges| && edges[i] == e && Spends(e, q)
      && forall j :: i < j < |edges| && Spends(edges[j], q) ==> edges[j].to != e.to
  }

  /** One input for each spending transaction, the last one, in the order of the transactions, and none missed. */
  predicate LastSpends(edges: seq<Edge>, q: Queued, ins: seq<Edge>) {
    && TxAscending(ins)
    && (forall x :: x in ins ==> x in edges && LastSpend(edges, q, x))
    && (forall e :: e in edges && Spends(e, q) ==> exists x :: x in ins && x.to == e.to)
  }

  lemma FrontAscends(ins: seq<Edge>, e: Edge)
    requires TxAscending(ins) && ins != [] && Less(e.to.text, ins[0].to.text)
    ensures TxAscending([e] + ins)
    ensures forall x :: x in ins ==> x.to != e.to
  {
    forall j | 0 <= j < |ins|
      ensures ins[j].to != e.to && !Less(ins[j].to.text, e.to.text)
    {
      LessIrreflexive(ins[0].to.text);
      LessIrreflexive(e.to.text);
      if Less(ins[j].to.text, e.to.text) {
        LessTransitive(ins[j].to.text, e.to.text, ins[0].to.text);
      }
    }
  }

  lemma PutReplaces(ins: seq<Edge>, e: Edge)
    requires TxAscending(ins) && ins != [] && ins[0].to == e.to
    ensures forall x :: x in Put(ins, e) <==> x == e || (x in ins && x.to != e.to)
    ensures TxAscending(Put(ins, e))
  {
    assert ins == [ins[0]] + ins[1..];
    forall x | x in ins[1..]
      ensures x.to != e.to
    {
      var k :| 0 <= k < |ins[1..]| && ins[1..][k] == x;
      assert ins[k + 1] == x;
    }
  }

  lemma PutSkips(ins: seq<Edge>, e: Edge)
    requires ins != [] && ins[0].to != e.to && !Less(e.to.text, ins[0].to.text)
    requires forall x :: x in Put(ins[1..], e) <==> x == e || (x in ins[1..] && x.to != e.to)
    ensures forall x :: x in Put(ins, e) <==> x == e || (x in ins && x.to != e.to)
  {
    assert ins == [ins[0]] + ins[1..];
  }

  lemma {:induction false} PutRight(ins: seq<Edge>, e: Edge)
    requires TxAscending(ins)
    ensures forall x :: x in Put(ins, e) <==> x == e || (x in ins && x.to != e.to)
    ensures TxAscending(Put(ins, e))
  {
    if ins != [] {
      if ins[0].to == e.to {
        PutReplaces(ins, e);
      } else if Less(e.to.text, ins[0].to.text) {
        FrontAscends(ins, e);
      } else {
        PutRight(ins[1..], e);
        PutSkips(ins, e);
        PutBehind(ins, e, Put(ins[1..], e));
      }
    }
  }

  lemma PutBehind(ins: seq<Edge>, e: Edge, rest: seq<Edge>)
    requires TxAscending(ins) && ins != [] && ins[0].to != e.to && !Less(e.to.text, ins[0].to.text)
    requires TxAscending(rest) && forall x :: x in rest ==> x == e || x in ins[1..]
    ensures TxAscending([ins[0]] + rest)
  {
    forall j | 0 <= j < |rest|
      ensures rest[j].to != ins[0].to && !Less(rest[j].to.text, ins[0].to.text)
    {
      assert rest[j] in rest;
      if rest[j] != e {
        var k :| 0 <= k < |ins[1..]| && ins[1..][k] == rest[j];
        assert ins[k + 1] == rest[j];
      }
    }
  }

  lemma LastSpendKept(edges: seq<Edge>, q: Queued, x: Edge)
    requires edges != [] && LastSpend(edges[..|edges| - 1], q, x)
    requires Spends(edges[|edges| - 1], q) ==> edges[|edges| - 1].to != x.to
    ensures LastSpend(edges, q, x)
  {
    var before := edges[..|edges| - 1];
    var i :| 0 <= i < |before| && before[i] == x && Spends(x, q)
      && forall j :: i < j < |before| && Spends(before[j], q) ==> before[j].to != x.to;
    forall j | i < j < |edges| && Spends(edges[j], q)
      ensures edges[j].to != x.to
    {
      if j < |before| {
        assert edges[j] == before[j];
      }
    }
    assert edges[i] == x;
  }

  /** The inputs are the last spends of the single transactions, in the order of their texts, and none is missed. */
  lemma {:induction false} InputsRight(edges: seq<Edge>, q: Queued)
    ensures LastSpends(edges, q, Inputs(edges, q))
    decreases |edges|
  {
    if edges != [] {
      var n := |edges| - 1;
      var before, last := edges[..n], edges[n];
      InputsRight(before, q);
      var ins := Inputs(before, q);
      PutRight(ins, last);
      assert edges == before + [last];
      forall x | x in Inputs(edges, q)
        ensures x in edges && LastSpend(edges, q, x)
      {
        if x != last || !Spends(last, q) {
          LastSpendKept(edges, q, x);
        } else {
          assert edges[n] == x;
        }
      }
      forall e | e in edges && Spends(e, q)
        ensures exists x :: x in Inputs(edges, q) && x.to == e.to
      {
        if Spends(last, q) && e.to == last.to {
          assert last in Inputs(edges, q);
        } else {
          assert e in before;
          var x :| x in ins && x.to == e.to;
          assert x in Inputs(edges, q);
        }
      }
    }
  }

  // ----- the payments that an address offers -----

  /** The payments of one transaction, in the order of the edge ids. */
  function Outputs(edges: seq<Edge>, input: Edge): seq<Link> {
    if edges == [] then []
    else if edges[0].from == input.to && edges[0].transfer == UtxoOutput then
      [Link(input, edges[0])] + Outputs(edges[1..], input)
    else Outputs(edges[1..], input)
  }

  function Payments(ins: seq<Edge>, edges: seq<Edge>): seq<Link> {
    if ins == [] then [] else Outputs(edges, ins[0]) + Payments(ins[1..], edges)
  }

  /** All payments by later spends of an address, in the order in which they are taken. */
  function Offers(load: Node -> Local, q: Queued): seq<Link> {
    Payments(Inputs(load(q.address).edges, q), load(q.address).edges)
  }

  lemma {:induction false} OutputsMeaning(edges: seq<Edge>, input: Edge)
    ensures forall l :: l in Outputs(edges, input) <==>
              && l.input == input && l.output in edges
              && l.output.from == input.to && l.output.transfer == UtxoOutput
    decreases |edges|
  {
    if edges != [] {
      OutputsMeaning(edges[1..], input);
      assert edges == [edges[0]] + edges[1..];
    }
  }

  lemma {:induction false} PaymentsMeaning(ins: seq<Edge>, edges: seq<Edge>)
    ensures forall l :: l in Payments(ins, edges) <==>
              && l.input in ins && l.output in edges
              && l.output.from == l.input.to && l.output.transfer == UtxoOutput
    decreases |ins|
  {
    if ins != [] {
      OutputsMeaning(edges, ins[0]);
      PaymentsMeaning(ins[1..], edges);
      assert ins == [ins[0]] + ins[1..];
    }
  }

  /** Offered payments are loaded and spent later, and every output of a later spend is offered. */
  lemma OffersMeaning(load: Node -> Local, q: Queued)
    ensures forall l :: l in Offers(load, q) ==> LinkLoaded(load, l) && Spends(l.input, q)
    ensures forall l :: LinkLoaded(load, l) && Spends(l.input, q) ==> Offered(load, q, l.output)
  {
    forall l | l in Offers(load, q)
      ensures LinkLoaded(load, l) && Spends(l.input, q)
    {
      OfferRight(load, q, l);
    }
    forall l | LinkLoaded(load, l) && Spends(l.input, q)
      ensures Offered(load, q, l.output)
    {
      SpendOffered(load, q, l);
    }
  }

  predicate Offered(load: Node -> Local, q: Queued, output: Edge) {
    exists l :: l in Offers(load, q) && l.output == output
  }

  lemma OfferRight(load: Node -> Local, q: Queued, l: Link)
    requires l in Offers(load, q)
    ensures LinkLoaded(load, l) && Spends(l.input, q)
  {
    var edges := load(q.address).edges;
    InputsRight(edges, q);
    PaymentsMeaning(Inputs(edges, q), edges);
    assert LastSpend(edges, q, l.input);
  }

  lemma SpendOffered(load: Node -> Local, q: Queued, l: Link)
    requires LinkLoaded(load, l) && Spends(l.input, q)
    ensures Offered(load, q, l.output)
  {
    var edges := load(q.address).edges;
    var ins := Inputs(edges, q);
    InputsRight(edges, q);
    var x :| x in ins && x.to == l.input.to;
    PaymentsMeaning(ins, edges);
    assert Link(x, l.output) in Offers(load, q);
  }

  predicate InOrder(edges: seq<Edge>, a: Edge, b: Edge) {
    exists i, j :: 0 <= i < j < |edges| && edges[i] == a && edges[j] == b
  }

  lemma InOrderLater(e: Edge, edges: seq<Edge>, a: Edge, b: Edge)
    requires InOrder(edges, a, b)
    ensures InOrder([e] + edges, a, b)
  {
    var i, j :| 0 <= i < j < |edges| && edges[i] == a && edges[j] == b;
    assert ([e] + edges)[i + 1] == a && ([e] + edges)[j + 1] == b;
  }

  lemma InOrderFirst(e: Edge, edges: seq<Edge>, b: Edge)
    requires b in edges
    ensures InOrder([e] + edges, e, b)
  {
    var j :| 0 <= j < |edges| && edges[j] == b;
    assert ([e] + edges)[0] == e && ([e] + edges)[j + 1] == b;
  }

  predicate Ordered(edges: seq<Edge>, links: seq<Link>) {
    forall t, u :: 0 <= t < u < |links| ==> InOrder(edges, links[t].output, links[u].output)
  }

  lemma OrderedLater(e: Edge, edges: seq<Edge>, links: seq<Link>)
    requires Ordered(edges, links)
    ensures Ordered([e] + edges, links)
  {
    forall t, u | 0 <= t < u < |links|
      ensures InOrder([e] + edges, links[t].output, links[u].output)
    {
      InOrderLater(e, edges, links[t].output, links[u].output);
    }
  }

  lemma OrderedFirst(l: Link, edges: seq<Edge>, links: seq<Link>)
    requires Ordered(edges, links) && forall u :: 0 <= u < |links| ==> links[u].output in edges
    ensures Ordered([l.output] + edges, [l] + links)
  {
    OrderedLater(l.output, edges, links);
    forall u | 0 <= u < |links|
      ensures InOrder([l.output] + edges, l.output, links[u].output)
    {
      InOrderFirst(l.output, edges, links[u].output);
    }
  }

  lemma OutputsIn(edges: seq<Edge>, input: Edge)
    ensures forall u :: 0 <= u < |Outputs(edges, input)| ==> Outputs(edges, input)[u].output in edges
  {
    OutputsMeaning(edges, input);
    forall u | 0 <= u < |Outputs(edges, input)|
      ensures Outputs(edges, input)[u].output in edges
    {
      assert Outputs(edges, input)[u] in Outputs(edges, input);
    }
  }

  lemma {:induction false} OutputsAscend(edges: seq<Edge>, input: Edge)
    ensures Ordered(edges, Outputs(edges, input))
    decreases |edges|
  {
    if edges != [] {
      var e, rest, links := edges[0], edges[1..], Outputs(edges[1..], input);
      HeadTail(edges);
      OutputsAscend(rest, input);
      if e.from == input.to && e.transfer == UtxoOutput {
        OutputsIn(rest, input);
        OrderedFirst(Link(input, e), rest, links);
      } else {
        OrderedLater(e, rest, links);
      }
    }
  }

  /** Of two offered payments the earlier one is of an earlier transaction, or of the same one with an earlier id. */
  predicate TakenBefore(edges: seq<Edge>, l: Link, m: Link) {
    if l.input == m.input then InOrder(edges, l.output, m.output)
    else l.input.to != m.input.to && !Less(m.input.to.text, l.input.to.text)
  }

  lemma {:induction false} PaymentsAscend(ins: seq<Edge>, edges: seq<Edge>, t: nat, u: nat)
    requires TxAscending(ins) && t < u < |Payments(ins, edges)|
    ensures TakenBefore(edges, Payments(ins, edges)[t], Payments(ins, edges)[u])
    decreases |ins|
  {
    var first, rest := Outputs(edges, ins[0]), Payments(ins[1..], edges);
    OutputsMeaning(edges, ins[0]);
    if u < |first| {
      assert first[t] in first && first[u] in first;
      OutputsAscend(edges, ins[0]);
    } else if t < |first| {
      PaymentsMeaning(ins[1..], edges);
      assert first[t] in first && rest[u - |first|] in rest;
      var k :| 0 <= k < |ins[1..]| && ins[1..][k] == rest[u - |first|].input;
      assert ins[k + 1] == rest[u - |first|].input;
    } else {
      PaymentsAscend(ins[1..], edges, t - |first|, u - |first|);
    }
  }

  /** The payments of an address are taken by transaction text and then by edge id. */
  lemma OffersAscend(load: Node -> Local, q: Queued, t: nat, u: nat)
    requires t < u < |Offers(load, q)|
    ensures TakenBefore(load(q.address).edges, Offers(load, q)[t], Offers(load, q)[u])
  {
    InputsRight(load(q.address).edges, q);
    PaymentsAscend(Inputs(load(q.address).edges, q), load(q.address).edges, t, u);
  }

  // ----- the visits -----

  /** A payment of the p-th visited address: an address not met before is visited. */
  function AddLink(visits: seq<Visit>, p: nat, l: Link): seq<Visit>
    requires p < |visits|
  {
    if l.output.to.Script? || IsVisited(visits, l.output.to) then visits
    else visits + [Visit(l.output.to, visits[p].depth + 1, Some(l), p)]
  }

  function AddAll(visits: seq<Visit>, p: nat, links: seq<Link>): (r: seq<Visit>)
    requires p < |visits|
    ensures visits <= r
    decreases |links|
  {
    if links == [] then visits else AddAll(AddLink(visits, p, links[0]), p, links[1..])
  }

  /** The n-th visit takes its turn: below the hop limit it offers its payments. */
  function Turned(load: Node -> Local, hops: nat, n: nat, visits: seq<Visit>): (r: seq<Visit>)
    ensures visits <= r
  {
    if n < |visits| && visits[n].depth < hops then AddAll(visits, n, Offers(load, Item(visits[n]))) else visits
  }

  /** The visited addresses after the first n of them took their turns. */
  function Visits(load: Node -> Local, source: Node, hops: nat, n: nat): (r: seq<Visit>)
    ensures r != []
  {
    if n == 0 then [Visit(source, 0, None, 0)] else Turned(load, hops, n - 1, Visits(load, source, hops, n - 1))
  }

  lemma {:induction false} AddAllConcat(visits: seq<Visit>, p: nat, a: seq<Link>, b: seq<Link>)
    requires p < |visits|
    ensures AddAll(visits, p, a + b) == AddAll(AddAll(visits, p, a), p, b)
    decreases |a|
  {
    if a == [] {
      ConcatEmpty(b);
    } else {
      assert (a + b)[0] == a[0] && (a + b)[1..] == a[1..] + b;
      AddAllConcat(AddLink(visits, p, a[0]), p, a[1..], b);
    }
  }

  predicate DistinctVisits(visits: seq<Visit>) {
    forall i, j :: 0 <= i < j < |visits| ==> visits[i].address != visits[j].address
  }

  /** The t-th link added visit j: it is the first one that pays the address, which was not met before. */
  predicate AddedBy(before: seq<Visit>, p: nat, links: seq<Link>, v: Visit, t: nat)
    requires p < |before|
  {
    && t < |links| && v == Visit(links[t].output.to, before[p].depth + 1, Some(links[t]), p)
    && !v.address.Script? && !IsVisited(before, v.address)
    && forall u :: 0 <= u < t ==> links[u].output.to != v.address
  }

  lemma AddedLater(visits: seq<Visit>, p: nat, links: seq<Link>, v: Visit, t: nat)
    requires p < |visits| && links != []
    requires AddedBy(AddLink(visits, p, links[0]), p, links[1..], v, t)
    ensures AddedBy(visits, p, links, v, t + 1)
  {
    var w := AddLink(visits, p, links[0]);
    VisitedMore(visits, w, v.address);
    VisitedLink(visits, p, links[0]);
    assert links[1..][t] == links[t + 1];
    forall u | 0 <= u < t + 1
      ensures links[u].output.to != v.address
    {
      if u > 0 { assert links[1..][u - 1] == links[u]; }
    }
  }

  lemma {:induction false} AddAllNew(visits: seq<Visit>, p: nat, links: seq<Link>, j: nat)
    requires p < |visits| <= j < |AddAll(visits, p, links)|
    ensures exists t: nat :: AddedBy(visits, p, links, AddAll(visits, p, links)[j], t)
    decreases |links|
  {
    var w := AddLink(visits, p, links[0]);
    var r := AddAll(w, p, links[1..]);
    if j < |w| {
      assert r[j] == w[j] && AddedBy(visits, p, links, r[j], 0);
    } else {
      AddAllNew(w, p, links[1..], j);
      var t: nat :| AddedBy(w, p, links[1..], r[j], t);
      AddedLater(visits, p, links, r[j], t);
    }
  }

  lemma VisitedMore(visits: seq<Visit>, more: seq<Visit>, a: Node)
    requires visits <= more
    ensures IsVisited(visits, a) ==> IsVisited(more, a)
  {
    if IsVisited(visits, a) {
      var j :| 0 <= j < |visits| && visits[j].address == a;
      assert more[j].address == a;
    }
  }

  lemma VisitedLink(visits: seq<Visit>, p: nat, l: Link)
    requires p < |visits|
    ensures l.output.to.Script? || IsVisited(AddLink(visits, p, l), l.output.to)
  {
    var w := AddLink(visits, p, l);
    if |w| > |visits| {
      assert w[|visits|].address == l.output.to;
    }
  }

  lemma {:induction false} AddAllDistinct(visits: seq<Visit>, p: nat, links: seq<Link>)
    requires p < |visits| && DistinctVisits(visits)
    ensures DistinctVisits(AddAll(visits, p, links))
    decreases |links|
  {
    if links != [] {
      AddAllDistinct(AddLink(visits, p, links[0]), p, links[1..]);
    }
  }

  lemma {:induction false} AddAllVisits(visits: seq<Visit>, p: nat, links: seq<Link>, l: Link)
    requires p < |visits| && l in links && !l.output.to.Script?
    ensures IsVisited(AddAll(visits, p, links), l.output.to)
    decreases |links|
  {
    var w := AddLink(visits, p, links[0]);
    if l == links[0] {
      VisitedLink(visits, p, l);
      VisitedMore(w, AddAll(visits, p, links), l.output.to);
    } else {
      assert links == [links[0]] + links[1..];
      AddAllVisits(w, p, links[1..], l);
    }
  }

  // ----- what holds of the visits -----

  /** Visit j was paid by an earlier visit, below the hop limit, in a spend after the payment of that one. */
  ghost predicate Stemmed(load: Node -> Local, hops: nat, n: nat, visits: seq<Visit>, j: nat)
    requires 0 < j < |visits|
  {
    var v := visits[j];
    && v.payer < j && v.payer < n && v.depth == visits[v.payer].depth + 1 <= hops
    && v.link.Some? && v.link.value in Offers(load, Item(visits[v.payer]))
    && v.address == v.link.value.output.to && !v.address.Script?
  }

  ghost predicate Orderly(load: Node -> Local, source: Node, hops: nat, n: nat, visits: seq<Visit>) {
    && visits != [] && visits[0] == Visit(source, 0, None, 0)
    && DistinctVisits(visits)
    && (forall j {:trigger Stemmed(load, hops, n, visits, j)} :: 0 < j < |visits| ==> Stemmed(load, hops, n, visits, j))
    && (forall i, j :: 0 <= i < j < |visits| ==> visits[i].depth <= visits[j].depth)
  }

  /** The address was met at or before the payments of the p-th visit. */
  predicate MetBy(visits: seq<Visit>, p: nat, a: Node) {
    exists j :: 0 <= j < |visits| && visits[j].address == a && visits[j].payer <= p
  }

  /** Every address that the p-th visit offers to pay is met. */
  ghost predicate Served(load: Node -> Local, visits: seq<Visit>, p: nat)
    requires p < |visits|
  {
    forall l :: l in Offers(load, Item(visits[p])) ==> l.output.to.Script? || MetBy(visits, p, l.output.to)
  }

  predicate Expanded(visits: seq<Visit>, n: nat, hops: nat, p: nat) {
    p < n && p < |visits| && visits[p].depth < hops
  }

  ghost predicate AllServed(load: Node -> Local, hops: nat, n: nat, visits: seq<Visit>) {
    forall p: nat {:trigger Served(load, visits, p)} :: Expanded(visits, n, hops, p) ==> Served(load, visits, p)
  }

  lemma ServedMore(load: Node -> Local, visits: seq<Visit>, more: seq<Visit>, p: nat)
    requires p < |visits| && visits <= more && Served(load, visits, p)
    ensures Served(load, more, p)
  {
    forall l | l in Offers(load, Item(more[p])) && !l.output.to.Script?
      ensures MetBy(more, p, l.output.to)
    {
      assert MetBy(visits, p, l.output.to);
      var j :| 0 <= j < |visits| && visits[j].address == l.output.to && visits[j].payer <= p;
      assert more[j].address == l.output.to;
    }
  }

  /** The payments of the next visit keep the order. */
  lemma NextOrderly(load: Node -> Local, source: Node, hops: nat, n: nat, visits: seq<Visit>)
    requires Orderly(load, source, hops, n, visits) && n < |visits| && visits[n].depth < hops
    ensures Orderly(load, source, hops, n + 1, AddAll(visits, n, Offers(load, Item(visits[n]))))
  {
    var links := Offers(load, Item(visits[n]));
    var r := AddAll(visits, n, links);
    AddAllDistinct(visits, n, links);
    forall j | 0 < j < |r|
      ensures Stemmed(load, hops, n + 1, r, j)
      ensures j >= |visits| ==> r[j].depth == visits[n].depth + 1
      ensures r[j].depth <= visits[n].depth + 1
    {
      if j < |visits| {
        assert Stemmed(load, hops, n, visits, j);
      } else {
        AddAllNew(visits, n, links, j);
      }
    }
    forall i, j | 0 <= i < j < |r|
      ensures r[i].depth <= r[j].depth
    {
      assert i == 0 || r[i].depth <= visits[n].depth + 1;
    }
  }

  lemma NextServed(load: Node -> Local, hops: nat, n: nat, visits: seq<Visit>)
    requires n < |visits| && AllServed(load, hops, n, visits)
    requires forall j :: 0 < j < |visits| ==> visits[j].payer < n
    requires visits[0].payer == 0
    ensures AllServed(load, hops, n + 1, AddAll(visits, n, Offers(load, Item(visits[n]))))
  {
    var links := Offers(load, Item(visits[n]));
    var r := AddAll(visits, n, links);
    forall p: nat | Expanded(r, n + 1, hops, p)
      ensures Served(load, r, p)
    {
      if p < n {
        assert Served(load, visits, p);
        ServedMore(load, visits, r, p);
      } else {
        forall l | l in links && !l.output.to.Script?
          ensures MetBy(r, n, l.output.to)
        {
          AddAllVisits(visits, n, links, l);
          var j :| 0 <= j < |r| && r[j].address == l.output.to;
          if j >= |visits| { AddAllNew(visits, n, links, j); }
        }
      }
    }
  }

  lemma OrderlyLater(load: Node -> Local, source: Node, hops: nat, n: nat, visits: seq<Visit>)
    requires Orderly(load, source, hops, n, visits)
    ensures Orderly(load, source, hops, n + 1, visits)
    ensures forall j :: 0 < j < |visits| ==> visits[j].payer < n
  {
    forall j | 0 < j < |visits|
      ensures Stemmed(load, hops, n + 1, visits, j) && visits[j].payer < n
    {
      assert Stemmed(load, hops, n, visits, j);
    }
  }

  lemma TurnedRight(load: Node -> Local, source: Node, hops: nat, n: nat, visits: seq<Visit>)
    requires Orderly(load, source, hops, n, visits) && AllServed(load, hops, n, visits)
    ensures Orderly(load, source, hops, n + 1, Turned(load, hops, n, visits))
    ensures AllServed(load, hops, n + 1, Turned(load, hops, n, visits))
  {
    OrderlyLater(load, source, hops, n, visits);
    if n < |visits| && visits[n].depth < hops {
      NextOrderly(load, source, hops, n, visits);
      NextServed(load, hops, n, visits);
    } else {
      forall p: nat | Expanded(visits, n + 1, hops, p)
        ensures Served(load, visits, p)
      {
        assert Expanded(visits, n, hops, p);
      }
    }
  }

  /** Each address is met once, depths ascend, every payment is a later spend, and the visits that had their turn
      met everything that they pay. */
  lemma {:induction false} VisitsRight(load: Node -> Local, source: Node, hops: nat, n: nat)
    ensures Orderly(load, source, hops, n, Visits(load, source, hops, n))
    ensures AllServed(load, hops, n, Visits(load, source, hops, n))
  {
    if n > 0 {
      VisitsRight(load, source, hops, n - 1);
      TurnedRight(load, source, hops, n - 1, Visits(load, source, hops, n - 1));
    }
  }

  // ----- the first payment is kept -----

  /** The payment of visit j is the t-th of its payer; none before it, of this or an earlier payer, pays the address. */
  ghost predicate FirstPayment(load: Node -> Local, hops: nat, visits: seq<Visit>, j: nat, t: nat)
    requires 0 < j < |visits|
  {
    var v := visits[j];
    && v.payer < j
    && (var links := Offers(load, Item(visits[v.payer]));
        t < |links| && v.link == Some(links[t]) && forall u :: 0 <= u < t ==> links[u].output.to != v.address)
    && (forall p, l {:trigger l in Offers(load, Item(visits[p]))} ::
          0 <= p < v.payer && visits[p].depth < hops && l in Offers(load, Item(visits[p])) ==>
            l.output.to != v.address)
  }

  lemma NewIsFirst(load: Node -> Local, hops: nat, n: nat, before: seq<Visit>, j: nat)
    requires AllServed(load, hops, n, before) && |before| <= j < |Turned(load, hops, n, before)|
    ensures exists t: nat :: FirstPayment(load, hops, Turned(load, hops, n, before), j, t)
  {
    var visits := Turned(load, hops, n, before);
    var links := Offers(load, Item(before[n]));
    AddAllNew(before, n, links, j);
    var t: nat :| AddedBy(before, n, links, visits[j], t);
    forall p, l | 0 <= p < n && visits[p].depth < hops && l in Offers(load, Item(visits[p]))
      ensures l.output.to != visits[j].address
    {
      assert visits[p] == before[p] && Expanded(before, n, hops, p) && Served(load, before, p);
    }
    assert FirstPayment(load, hops, visits, j, t);
  }

  lemma FirstLater(load: Node -> Local, hops: nat, before: seq<Visit>, visits: seq<Visit>, j: nat, t: nat)
    requires before <= visits && 0 < j < |before| && FirstPayment(load, hops, before, j, t)
    ensures FirstPayment(load, hops, visits, j, t)
  {
    forall p, l | 0 <= p < visits[j].payer && visits[p].depth < hops && l in Offers(load, Item(visits[p]))
      ensures l.output.to != visits[j].address
    {
      assert visits[p] == before[p];
    }
  }

  /** Of all payments of an address, in the order in which they are taken, the first one is kept. */
  lemma {:induction false} FirstPaymentKept(load: Node -> Local, source: Node, hops: nat, n: nat, j: nat)
    requires 0 < j < |Visits(load, source, hops, n)|
    ensures exists t: nat :: FirstPayment(load, hops, Visits(load, source, hops, n), j, t)
  {
    var before := Visits(load, source, hops, n - 1);
    if j < |before| {
      FirstPaymentKept(load, source, hops, n - 1, j);
      var t: nat :| FirstPayment(load, hops, before, j, t);
      FirstLater(load, hops, before, Visits(load, source, hops, n), j, t);
    } else {
      VisitsRight(load, source, hops, n - 1);
      NewIsFirst(load, hops, n - 1, before, j);
    }
  }

  // ----- the trail to a visit -----

  /** The hops from the source to the j-th visit. */
  function TrailTo(visits: seq<Visit>, j: nat): (t: seq<Link>)
    requires j < |visits|
  {
    if j == 0 || visits[j].link.None? || visits[j].payer >= j then []
    else TrailTo(visits, visits[j].payer) + [visits[j].link.value]
  }

  ghost predicate TrailRight(load: Node -> Local, source: Node, visits: seq<Visit>, j: nat, t: seq<Link>)
    requires j < |visits|
  {
    && Chained(load, source, t) && |t| == visits[j].depth
    && (if t == [] then visits[j].address == source && visits[j].link == None
        else t[|t| - 1].output.to == visits[j].address && visits[j].link == Some(t[|t| - 1]))
    && (forall k :: 0 <= k < |t| ==> Reached(visits, t[k].output.to, k + 1))
    && (forall k :: 0 <= k < |t| ==> exists i :: 0 < i < |visits| && visits[i].link == Some(t[k]))
  }

  predicate Reached(visits: seq<Visit>, a: Node, depth: nat) {
    exists i :: 0 <= i < |visits| && visits[i].address == a && visits[i].depth == depth
  }

  lemma TrailLonger(load: Node -> Local, source: Node, visits: seq<Visit>, p: nat, u: seq<Link>, j: nat, l: Link)
    requires p < |visits| && j < |visits| && 0 < j && TrailRight(load, source, visits, p, u)
    requires l in Offers(load, Item(visits[p]))
    requires visits[j].address == l.output.to && visits[j].depth == visits[p].depth + 1 && visits[j].link == Some(l)
    ensures TrailRight(load, source, visits, j, u + [l])
  {
    var t := u + [l];
    OfferRight(load, Item(visits[p]), l);
    ChainedLonger(load, source, u, l);
    assert Reached(visits, l.output.to, |u| + 1);
    forall k | 0 <= k < |t|
      ensures Reached(visits, t[k].output.to, k + 1)
      ensures exists i :: 0 < i < |visits| && visits[i].link == Some(t[k])
    {
      if k < |u| { assert t[k] == u[k]; }
    }
  }

  /** Along the trail to a visit, transactions are consecutive and strictly later and later. */
  lemma {:induction false} TrailChained(load: Node -> Local, source: Node, hops: nat, n: nat, visits: seq<Visit>,
                                        j: nat)
    requires Orderly(load, source, hops, n, visits) && j < |visits|
    ensures TrailRight(load, source, visits, j, TrailTo(visits, j)) && visits[j].depth <= hops
    decreases j
  {
    if j > 0 {
      assert Stemmed(load, hops, n, visits, j);
      var p, l := visits[j].payer, visits[j].link.value;
      TrailChained(load, source, hops, n, visits, p);
      TrailLonger(load, source, visits, p, TrailTo(visits, p), j, l);
    }
  }

  /** No address repeats on the trail to a visit. */
  lemma TrailDistinct(load: Node -> Local, source: Node, hops: nat, n: nat, visits: seq<Visit>, j: nat)
    requires Orderly(load, source, hops, n, visits) && j < |visits|
    ensures Distinct([source] + AddressTail(TrailTo(visits, j)))
  {
    TrailChained(load, source, hops, n, visits, j);
    var t := TrailTo(visits, j);
    var p := [source] + AddressTail(t);
    assert Reached(visits, visits[0].address, visits[0].depth);
    forall k | 0 <= k < |p|
      ensures Reached(visits, p[k], k)
    {
      if k > 0 { assert p[k] == t[k - 1].output.to; }
    }
    forall i, k | 0 <= i < k < |p|
      ensures p[i] != p[k]
    {
      var x :| 0 <= x < |visits| && visits[x].address == p[i] && visits[x].depth == i;
      var y :| 0 <= y < |visits| && visits[y].address == p[k] && visits[y].depth == k;
      assert x != y;
    }
  }
}
