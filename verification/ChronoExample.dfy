/**
 A wallet that is paid twice and spends in block 7. The search keeps the payment whose transaction has the smaller
 text, whichever is earlier, so whether it finds the shop hangs on that payment alone.
 */
module ChronoExample {
  import opened Common
  import opened ChronoTrails
  import opened ChronoVisits
  import opened ChronoPaths
  import opened ChronoClosure

  const PAYER := Address("payer")
  const WALLET := Address("wallet")
  const SHOP := Address("shop")

  /** One hop: an input and an output of one transaction. */
  function Hop(name: string, from: Node, to: Node, block: nat): Link {
    var tx := Transaction(name);
    Link(Edge(EdgeId(name + "i"), from, tx, UtxoInput, Position(block, 0)),
         Edge(EdgeId(name + "o"), tx, to, UtxoOutput, Position(block, 0)))
  }

  /** The payment that is taken first, the other one, and the spend of the wallet. */
  function TakenFirst(x: nat): Link {
    Hop("a", PAYER, WALLET, x)
  }

  function TakenSecond(y: nat): Link {
    Hop("b", PAYER, WALLET, y)
  }

  const ONWARD: Link := Hop("c", WALLET, SHOP, 7)

  /** The database with the two payments in the blocks x and y. */
  function PaidTwice(x: nat, y: nat): Node -> Local {
    (a: Node) =>
      if a == PAYER then
        Local([PAYER, WALLET, TakenFirst(x).input.to, TakenSecond(y).input.to],
              [TakenFirst(x).input, TakenFirst(x).output, TakenSecond(y).input, TakenSecond(y).output], false)
      else if a == WALLET then Local([WALLET, SHOP, ONWARD.input.to], [ONWARD.input, ONWARD.output], false)
      else Local([], [], false)
  }

  lemma Distinguished()
    ensures PAYER != WALLET && PAYER != SHOP && WALLET != SHOP
    ensures Transaction("a") != Transaction("b") && !Less("b", "a")
  {
    assert PAYER.text[0] == 'p' && WALLET.text[0] == 'w' && SHOP.text[0] == 's';
    assert "a"[0] == 'a' && "b"[0] == 'b';
  }

  // ----- the offers -----

  lemma InputsPush(edges: seq<Edge>, e: Edge, q: Queued)
    ensures Inputs(edges + [e], q) == if Spends(e, q) then Put(Inputs(edges, q), e) else Inputs(edges, q)
  {
    assert (edges + [e])[..|edges|] == edges;
  }

  lemma OutputsPush(e: Edge, edges: seq<Edge>, input: Edge)
    ensures Outputs([e] + edges, input)
         == if e.from == input.to && e.transfer == UtxoOutput then [Link(input, e)] + Outputs(edges, input)
            else Outputs(edges, input)
  {
    assert ([e] + edges)[1..] == edges;
  }

  lemma PayerInputs(x: nat, y: nat, q: Queued)
    requires q == Queued(PAYER, 0, None)
    ensures Inputs(PaidTwice(x, y)(PAYER).edges, q) == [TakenFirst(x).input, TakenSecond(y).input]
  {
    var l, m := TakenFirst(x), TakenSecond(y);
    Distinguished();
    InputsPush([], l.input, q);
    InputsPush([l.input], l.output, q);
    InputsPush([l.input, l.output], m.input, q);
    InputsPush([l.input, l.output, m.input], m.output, q);
    assert [] + [l.input] == [l.input];
    assert [l.input] + [l.output] == [l.input, l.output];
    assert [l.input, l.output] + [m.input] == [l.input, l.output, m.input];
    assert [l.input, l.output, m.input] + [m.output] == PaidTwice(x, y)(PAYER).edges;
    assert Put([l.input], m.input) == [l.input] + Put([], m.input);
  }

  lemma PayerOffers(x: nat, y: nat)
    ensures Offers(PaidTwice(x, y), Queued(PAYER, 0, None)) == [TakenFirst(x), TakenSecond(y)]
  {
    var l, m := TakenFirst(x), TakenSecond(y);
    var edges := PaidTwice(x, y)(PAYER).edges;
    Distinguished();
    PayerInputs(x, y, Queued(PAYER, 0, None));
    FourOutputs(l, m, l.input);
    FourOutputs(l, m, m.input);
    assert [l.input, m.input][1..] == [m.input];
    PaymentsOne(m.input, edges);
  }

  lemma FourOutputs(l: Link, m: Link, input: Edge)
    requires l.input.transfer == UtxoInput && m.input.transfer == UtxoInput
    requires l.output.transfer == UtxoOutput && m.output.transfer == UtxoOutput
    requires l.output.from == l.input.to && m.output.from == m.input.to && l.input.to != m.input.to
    requires input == l.input || input == m.input
    ensures Outputs([l.input, l.output, m.input, m.output], input) == [if input == l.input then l else m]
  {
    OutputsPush(m.output, [], input);
    OutputsPush(m.input, [m.output], input);
    OutputsPush(l.output, [m.input, m.output], input);
    OutputsPush(l.input, [l.output, m.input, m.output], input);
    assert [m.output] + [] == [m.output];
    assert [m.input] + [m.output] == [m.input, m.output];
    assert [l.output] + [m.input, m.output] == [l.output, m.input, m.output];
    assert [l.input] + [l.output, m.input, m.output] == [l.input, l.output, m.input, m.output];
  }

  lemma WalletInputs(x: nat, y: nat, q: Queued)
    requires q == Queued(WALLET, 1, Some(Position(x, 0)))
    ensures Inputs(PaidTwice(x, y)(WALLET).edges, q) == if x < 7 then [ONWARD.input] else []
  {
    Distinguished();
    InputsPush([], ONWARD.input, q);
    InputsPush([ONWARD.input], ONWARD.output, q);
    assert [] + [ONWARD.input] == [ONWARD.input];
    assert [ONWARD.input] + [ONWARD.output] == PaidTwice(x, y)(WALLET).edges;
  }

  lemma PaymentsOne(input: Edge, edges: seq<Edge>)
    ensures Payments([input], edges) == Outputs(edges, input)
  {
    assert [input][1..] == [];
    ConcatEmpty(Outputs(edges, input));
  }

  lemma AddOne(visits: seq<Visit>, p: nat, l: Link)
    requires p < |visits|
    ensures AddAll(visits, p, [l]) == AddLink(visits, p, l)
  {
    assert [l][1..] == [];
  }

  lemma OnwardOutputs()
    ensures Outputs([ONWARD.input, ONWARD.output], ONWARD.input) == [ONWARD]
  {
    OutputsPush(ONWARD.output, [], ONWARD.input);
    OutputsPush(ONWARD.input, [ONWARD.output], ONWARD.input);
    assert [ONWARD.output] + [] == [ONWARD.output];
    assert [ONWARD.input] + [ONWARD.output] == [ONWARD.input, ONWARD.output];
  }

  /** The shop is offered only by a wallet that was paid before block 7. */
  lemma WalletOffers(x: nat, y: nat)
    ensures Offers(PaidTwice(x, y), Queued(WALLET, 1, Some(Position(x, 0)))) == if x < 7 then [ONWARD] else []
  {
    Distinguished();
    WalletInputs(x, y, Queued(WALLET, 1, Some(Position(x, 0))));
    OnwardOutputs();
    PaymentsOne(ONWARD.input, [ONWARD.input, ONWARD.output]);
  }

  lemma ShopOffers(x: nat, y: nat, after: Option<Position>)
    ensures Offers(PaidTwice(x, y), Queued(SHOP, 2, after)) == []
  {
    Distinguished();
  }

  // ----- the visits -----

  function Paid(x: nat): seq<Visit> {
    [Visit(PAYER, 0, None, 0), Visit(WALLET, 1, Some(TakenFirst(x)), 0)]
  }

  /** What the search ends with. */
  function Met(x: nat): seq<Visit> {
    if x < 7 then Paid(x) + [Visit(SHOP, 2, Some(ONWARD), 1)] else Paid(x)
  }

  lemma FirstTurn(x: nat, y: nat)
    ensures Turned(PaidTwice(x, y), 3, 0, [Visit(PAYER, 0, None, 0)]) == Paid(x)
  {
    var start := [Visit(PAYER, 0, None, 0)];
    var l, m := TakenFirst(x), TakenSecond(y);
    Distinguished();
    PayerOffers(x, y);
    assert start[0].address == PAYER && !IsVisited(start, WALLET);
    assert AddLink(start, 0, l) == Paid(x);
    assert Paid(x)[1].address == WALLET && IsVisited(Paid(x), WALLET);
    assert AddLink(Paid(x), 0, m) == Paid(x);
    assert [l, m][1..] == [m];
    AddOne(Paid(x), 0, m);
  }

  lemma SecondTurn(x: nat, y: nat)
    ensures Turned(PaidTwice(x, y), 3, 1, Paid(x)) == Met(x)
  {
    Distinguished();
    WalletOffers(x, y);
    assert Item(Paid(x)[1]) == Queued(WALLET, 1, Some(Position(x, 0)));
    assert !IsVisited(Paid(x), SHOP);
    assert AddLink(Paid(x), 1, ONWARD) == Paid(x) + [Visit(SHOP, 2, Some(ONWARD), 1)];
    AddOne(Paid(x), 1, ONWARD);
  }

  lemma LaterTurn(x: nat, y: nat, n: nat)
    requires n >= 2
    ensures Turned(PaidTwice(x, y), 3, n, Met(x)) == Met(x)
  {
    if n < |Met(x)| {
      ShopOffers(x, y, Some(Position(7, 0)));
    }
  }

  lemma {:induction false} VisitsAre(x: nat, y: nat, n: nat)
    ensures Visits(PaidTwice(x, y), PAYER, 3, n)
         == if n == 0 then [Visit(PAYER, 0, None, 0)] else if n == 1 then Paid(x) else Met(x)
  {
    if n == 1 {
      FirstTurn(x, y);
    } else if n == 2 {
      VisitsAre(x, y, 1);
      SecondTurn(x, y);
    } else if n > 2 {
      VisitsAre(x, y, n - 1);
      LaterTurn(x, y, n - 1);
    }
  }

  // ----- the evidence is small -----

  lemma {:induction false} FewIn<T(!new)>(s: set<T>, list: seq<T>)
    requires forall x :: x in s ==> x in list
    ensures |s| <= |list|
    decreases |list|
  {
    if list == [] {
      assert s == {};
    } else {
      var rest := s - {list[0]};
      HeadTail(list);
      FewIn(rest, list[1..]);
      assert s <= rest + {list[0]};
      SubsetNotLarger(s, rest + {list[0]});
    }
  }

  function NodesOf(x: nat, y: nat): seq<Node> {
    [PAYER, SHOP] + PaidTwice(x, y)(PAYER).nodes + PaidTwice(x, y)(WALLET).nodes
  }

  function IdsOf(edges: seq<Edge>): (r: seq<EdgeId>)
    ensures |r| == |edges|
    ensures forall e :: e in edges ==> e.id in r
  {
    if edges == [] then [] else [edges[0].id] + IdsOf(edges[1..])
  }

  lemma FewNodes(x: nat, y: nat, n: nat, visits: seq<Visit>, graph: Graph)
    requires Supplied(PaidTwice(x, y), PAYER, SHOP, 3, n, visits, graph)
    ensures |graph.nodes| <= 9
  {
    forall v | v in graph.nodes
      ensures v in NodesOf(x, y)
    {
      if v != PAYER && v != SHOP {
        var p: nat :| Expanded(visits, n, 3, p) && v in PaidTwice(x, y)(visits[p].address).nodes;
      }
    }
    FewIn(graph.nodes, NodesOf(x, y));
  }

  function EdgesIn(x: nat, y: nat): seq<Edge> {
    PaidTwice(x, y)(PAYER).edges + PaidTwice(x, y)(WALLET).edges
  }

  lemma FewEdges(x: nat, y: nat, n: nat, visits: seq<Visit>, graph: Graph)
    requires Keyed(graph.edges) && Supplied(PaidTwice(x, y), PAYER, SHOP, 3, n, visits, graph)
    ensures |graph.edges| <= 6
  {
    forall id | id in graph.edges.Keys
      ensures id in IdsOf(EdgesIn(x, y))
    {
      var p: nat :| Expanded(visits, n, 3, p) && graph.edges[id] in PaidTwice(x, y)(visits[p].address).edges;
      assert graph.edges[id] in EdgesIn(x, y);
    }
    FewIn(graph.edges.Keys, IdsOf(EdgesIn(x, y)));
    assert |graph.edges.Keys| == |graph.edges|;
  }

  lemma NothingLost(x: nat, y: nat, a: Node)
    ensures !PartLost(PaidTwice(x, y)(a))
  {
  }

  lemma NotLimited(x: nat, y: nat, n: nat, visits: seq<Visit>, graph: Graph)
    requires |visits| <= 3 && Evidence(PaidTwice(x, y), PAYER, SHOP, 3, 200, n, visits, graph)
    ensures !graph.truncated
  {
    FewNodes(x, y, n, visits, graph);
    FewEdges(x, y, n, visits, graph);
    if p: nat :| Expanded(visits, n, 3, p) && PartLost(PaidTwice(x, y)(visits[p].address)) {
      NothingLost(x, y, visits[p].address);
    }
  }

  lemma NeverFlagged(x: nat, y: nat, n: nat)
    ensures !Gathered(PaidTwice(x, y), PAYER, SHOP, 3, 200, n).truncated
  {
    GatheredRight(PaidTwice(x, y), PAYER, SHOP, 3, 200, n);
    VisitsAre(x, y, n);
    NotLimited(x, y, n, Visits(PaidTwice(x, y), PAYER, 3, n), Gathered(PaidTwice(x, y), PAYER, SHOP, 3, 200, n));
  }

  // ----- the search finds the shop, or misses it -----

  /** Both payments and the later spend make a trail to the shop wherever the payment comes before the spend. */
  lemma TrailsToShop(x: nat, y: nat)
    ensures x < 7 ==> LeadsTo(PaidTwice(x, y), PAYER, SHOP, 3, [TakenFirst(x), ONWARD])
    ensures y < 7 ==> LeadsTo(PaidTwice(x, y), PAYER, SHOP, 3, [TakenSecond(y), ONWARD])
  {
    Distinguished();
    var load := PaidTwice(x, y);
    assert LinkLoaded(load, TakenFirst(x)) && LinkLoaded(load, TakenSecond(y)) && LinkLoaded(load, ONWARD);
  }

  /** The search for the shop: never flagged, and with a path exactly when the payment that is taken first comes before
      the spend. With x == 10 and y == 5 it misses the trail through the second payment; the other way round, with the
      same three transactions but for the texts of two of them, it finds the shop. */
  method FindShop(x: nat, y: nat) returns (r: Answer)
    ensures !r.graph.truncated && (r.paths != [] <==> x < 7)
    ensures x < 7 || y < 7 ==> exists t :: LeadsTo(PaidTwice(x, y), PAYER, SHOP, 3, t)
  {
    ghost var trail, n;
    r, trail, n := FindPath(PAYER, SHOP, 3, 200, PaidTwice(x, y));
    NeverFlagged(x, y, n);
    ShopMet(x, y, n);
    TrailsToShop(x, y);
  }

  lemma ShopMet(x: nat, y: nat, n: nat)
    requires Searched(PaidTwice(x, y), PAYER, SHOP, 3, 200, n)
    ensures IsVisited(Visits(PaidTwice(x, y), PAYER, 3, n), SHOP) <==> x < 7
  {
    Distinguished();
    VisitsAre(x, y, n);
    assert x < 7 ==> Met(x)[2].address == SHOP;
  }
}
