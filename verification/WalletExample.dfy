/**
 A source that paid two addresses, the target first. With one edge per address the query returns only the later
 payment, so the answer is empty and not flagged although the stored edges connect source and target.
 */
module WalletExample {
  import opened Common
  import opened WalletPaths

  const SENDER := Address("sender")
  const MARKET := Address("market")
  const FRIEND := Address("friend")

  const LATER := Edge(EdgeId("1"), SENDER, MARKET, 9)
  const EARLIER := Edge(EdgeId("2"), SENDER, FRIEND, 4)

  /** The stored edges, the latest first. */
  function Payments(a: Address): seq<Edge> {
    if a == SENDER then [LATER, EARLIER]
    else if a == MARKET then [LATER]
    else if a == FRIEND then [EARLIER]
    else []
  }

  const REQUEST: Search := Search(SENDER, FRIEND, Outbound, LimitsOf(None, None, Some(1), 10))

  const START: Trail := Trail([SENDER], [])
  const ASIDE: Trail := Trail([SENDER, MARKET], [LATER.id])
  const DIRECT: Trail := Trail([SENDER, FRIEND], [EARLIER.id])

  lemma Distinguished()
    ensures SENDER != MARKET && SENDER != FRIEND && MARKET != FRIEND && LATER.id != EARLIER.id
  {
    assert SENDER.text[0] == 's' && MARKET.text[0] == 'm' && FRIEND.text[0] == 'f';
    assert LATER.id.text[0] == '1' && EARLIER.id.text[0] == '2';
  }

  lemma OnlyHop(a: Address, id: EdgeId, b: Address)
    requires Joined(Cut(Payments, 1), Outbound, a, id, b)
    ensures a == SENDER && id == LATER.id && b == MARKET
  {
    Distinguished();
    var e :| e in Cut(Payments, 1)(a) && e.id == id && Neighbor(Outbound, e, a) == Some(b);
    assert Cut(Payments, 1)(a) == Payments(a)[..Min(|Payments(a)|, 1)];
  }

  /** Over the loaded edges there are two walks. */
  lemma OnlyWalks(t: Trail)
    requires Walk(REQUEST, Cut(Payments, 1), t)
    ensures t == START || t == ASIDE
  {
    Distinguished();
    if |t.ids| >= 1 {
      OnlyHop(t.addresses[0], t.ids[0], t.addresses[1]);
    }
    if |t.ids| >= 2 {
      OnlyHop(t.addresses[1], t.ids[1], t.addresses[2]);
    }
    assert |t.ids| == 0 ==> t.addresses == [SENDER] && t.ids == [];
    assert |t.ids| == 1 ==> t.addresses == [SENDER, MARKET] && t.ids == [LATER.id];
  }

  lemma NothingConnects(t: Trail)
    ensures !Connects(REQUEST, Cut(Payments, 1), t)
  {
    if Walk(REQUEST, Cut(Payments, 1), t) {
      Distinguished();
      OnlyWalks(t);
    }
  }

  lemma StoredConnect()
    ensures Hidden(REQUEST, Payments, DIRECT)
  {
    Distinguished();
    assert EARLIER in Payments(SENDER);
    if Joined(Cut(Payments, 1), Outbound, SENDER, EARLIER.id, FRIEND) {
      OnlyHop(SENDER, EARLIER.id, FRIEND);
    }
  }

  // ----- no cap is met -----

  lemma FewReachable(a: Address)
    requires Reachable(REQUEST, Cut(Payments, 1), a)
    ensures a == SENDER || a == MARKET
  {
    var t :| Growing(REQUEST, Cut(Payments, 1), t) && Last(t) == a;
    OnlyWalks(t);
  }

  lemma FewWalks(q: seq<Trail>)
    requires Distinct(q) && AllGrowing(REQUEST, Cut(Payments, 1), q)
    ensures |q| <= 2
  {
    DistinctSize(q);
    var walks := set t | t in q;
    forall t | t in walks
      ensures t == START || t == ASIDE
    {
      var i :| 0 <= i < |q| && q[i] == t;
      assert Growing(REQUEST, Cut(Payments, 1), q[i]);
      OnlyWalks(t);
    }
    SubsetNotLarger(walks, {START, ASIDE});
  }

  lemma QueueNotFilled()
    ensures !QueueFilled(REQUEST, Cut(Payments, 1))
  {
    if q: seq<Trail> :| |q| >= MAX_QUEUED && Distinct(q) && AllGrowing(REQUEST, Cut(Payments, 1), q) {
      FewWalks(q);
    }
  }

  lemma OnlyEdge(a: Address, e: Edge)
    requires Reachable(REQUEST, Cut(Payments, 1), a) && e in Cut(Payments, 1)(a)
    ensures e == LATER
  {
    FewReachable(a);
    Distinguished();
    assert Cut(Payments, 1)(a) == Payments(a)[..Min(|Payments(a)|, 1)];
  }

  lemma FewEdges(edges: map<EdgeId, Edge>)
    requires Loaded(REQUEST, Cut(Payments, 1), edges)
    ensures |edges| <= 1
  {
    forall id | id in edges
      ensures id == LATER.id
    {
      var a :| Reachable(REQUEST, Cut(Payments, 1), a) && edges[id] in Cut(Payments, 1)(a);
      OnlyEdge(a, edges[id]);
    }
    SubsetNotLarger(edges.Keys, {LATER.id});
    assert |edges.Keys| == |edges|;
  }

  lemma EdgesNotFilled()
    ensures !EdgesFilled(REQUEST, Cut(Payments, 1))
  {
    if edges: map<EdgeId, Edge> :| |edges| >= 10 && Loaded(REQUEST, Cut(Payments, 1), edges) {
      FewEdges(edges);
    }
  }

  lemma FewExpanded(expanded: nat)
    requires ExpandedReachable(REQUEST, Cut(Payments, 1), expanded)
    ensures expanded <= 2
  {
    var visited: set<Address> :| |visited| == expanded && AllReachable(REQUEST, Cut(Payments, 1), visited);
    forall a | a in visited
      ensures a == SENDER || a == MARKET
    {
      FewReachable(a);
    }
    SubsetNotLarger(visited, {SENDER, MARKET});
  }

  lemma NoPaths(paths: seq<WalletPath>)
    requires AllConnect(REQUEST, Cut(Payments, 1), paths)
    ensures paths == []
  {
    if paths != [] {
      NothingConnects(paths[0].trail);
    }
  }

  /** The answer is empty and not flagged, and not exhaustive over the stored edges. */
  method MissFriend() returns (r: Result<Outcome, ()>)
    ensures r.Ok? && r.value.paths == [] && !r.value.truncated
    ensures Connects(REQUEST, Payments, DIRECT) && !Exhaustive(REQUEST, Payments, r.value)
  {
    Distinguished();
    r := FindPaths(SENDER, FRIEND, None, None, Some(1), Outbound, 10, Payments);
    NoPaths(r.value.paths);
    QueueNotFilled();
    EdgesNotFilled();
    FewExpanded(r.value.expanded);
    StoredConnect();
  }
}
