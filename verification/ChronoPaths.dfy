/**
 The Bitcoin connectivity search: a queue, the set of seen addresses and a parent map show the visits of
 ChronoVisits up to the address cap, and one path is rebuilt backwards from the parent map.
 */
module ChronoPaths {
  import opened Common
  import opened ChronoTrails
  import opened ChronoVisits

  // ----- the evidence graph -----

  predicate Keyed(edges: map<EdgeId, Edge>) {
    forall id :: id in edges ==> edges[id].id == id
  }

  /** Every edge is an old one or comes from the merged neighbourhood. */
  predicate Sourced(edges: map<EdgeId, Edge>, before: map<EdgeId, Edge>, local: seq<Edge>) {
    forall id :: id in edges ==> edges[id] in local || (id in before && edges[id] == before[id])
  }

  /** Nodes are added up to the cap; the flag tells that one was left out. */
  function MergedNodes(nodes: set<Node>, local: seq<Node>, maxNodes: nat): (set<Node>, bool) {
    if local == [] then (nodes, false)
    else
      var (kept, cut) := MergedNodes(nodes, local[..|local| - 1], maxNodes);
      var x := local[|local| - 1];
      if x in kept then (kept, cut) else if |kept| < maxNodes then (kept + {x}, cut) else (kept, true)
  }

  /** Edges between present nodes are added up to the cap. */
  function MergedEdges(nodes: set<Node>, edges: map<EdgeId, Edge>, local: seq<Edge>): (map<EdgeId, Edge>, bool) {
    if local == [] then (edges, false)
    else
      var (kept, cut) := MergedEdges(nodes, edges, local[..|local| - 1]);
      var e := local[|local| - 1];
      if e.from in nodes && e.to in nodes && |kept| < MAX_GRAPH then (kept[e.id := e], cut) else (kept, true)
  }

  function Merged(graph: Graph, local: Local, maxNodes: nat): Graph {
    var (nodes, lost) := MergedNodes(graph.nodes, local.nodes, maxNodes);
    var (edges, cut) := MergedEdges(nodes, graph.edges, local.edges);
    Graph(nodes, edges, graph.truncated || local.truncated || lost || cut)
  }

  method MergeNodes(nodes0: set<Node>, local: seq<Node>, maxNodes: nat) returns (nodes: set<Node>, cut: bool)
    ensures (nodes, cut) == MergedNodes(nodes0, local, maxNodes)
  {
    nodes, cut := nodes0, false;
    for i := 0 to |local|
      invariant (nodes, cut) == MergedNodes(nodes0, local[..i], maxNodes)
    {
      assert local[..i + 1][..i] == local[..i];
      if local[i] !in nodes {
        if |nodes| < maxNodes {
          nodes := nodes + {local[i]};
        } else {
          cut := true;
        }
      }
    }
    assert local[..|local|] == local;
  }

  method MergeEdges(nodes: set<Node>, edges0: map<EdgeId, Edge>, local: seq<Edge>)
    returns (edges: map<EdgeId, Edge>, cut: bool)
    ensures (edges, cut) == MergedEdges(nodes, edges0, local)
  {
    edges, cut := edges0, false;
    for i := 0 to |local|
      invariant (edges, cut) == MergedEdges(nodes, edges0, local[..i])
    {
      assert local[..i + 1][..i] == local[..i];
      var e := local[i];
      if e.from in nodes && e.to in nodes && |edges| < MAX_GRAPH {
        edges := edges[e.id := e];
      } else {
        cut := true;
      }
    }
    assert local[..|local|] == local;
  }

  /** A neighbourhood joins the evidence. */
  method Merge(graph: Graph, local: Local, maxNodes: nat) returns (g: Graph)
    ensures g == Merged(graph, local, maxNodes)
  {
    var nodes, lost := MergeNodes(graph.nodes, local.nodes, maxNodes);
    var edges, cut := MergeEdges(nodes, graph.edges, local.edges);
    g := Graph(nodes, edges, graph.truncated || local.truncated || lost || cut);
  }

  lemma {:induction false} MergedNodesRight(nodes: set<Node>, local: seq<Node>, maxNodes: nat)
    ensures var (kept, cut) := MergedNodes(nodes, local, maxNodes);
            && nodes <= kept && |kept| <= Max(|nodes|, maxNodes)
            && (forall x :: x in kept ==> x in nodes || x in local)
            && (if cut then |kept| >= maxNodes else forall x :: x in local ==> x in kept)
    decreases |local|
  {
    if local != [] {
      var n := |local| - 1;
      MergedNodesRight(nodes, local[..n], maxNodes);
      SplitAt(local, n);
    }
  }

  lemma {:induction false} MergedEdgesRight(nodes: set<Node>, edges: map<EdgeId, Edge>, local: seq<Edge>)
    requires Keyed(edges)
    ensures var (kept, cut) := MergedEdges(nodes, edges, local);
            && Keyed(kept) && Sourced(kept, edges, local)
            && edges.Keys <= kept.Keys && |kept| <= Max(|edges|, MAX_GRAPH)
            && (if cut then |kept| >= MAX_GRAPH || exists e :: e in local && !(e.from in nodes && e.to in nodes)
                else forall e :: e in local ==> e.id in kept)
    decreases |local|
  {
    if local != [] {
      var n := |local| - 1;
      MergedEdgesRight(nodes, edges, local[..n]);
      SplitAt(local, n);
      var (kept, cut) := MergedEdges(nodes, edges, local);
      if cut && |kept| < MAX_GRAPH {
        assert local[n] in local;
      }
    }
  }

  /** Every edge of the neighbourhood joins two of its nodes. */
  predicate Joined(local: Local) {
    forall e :: e in local.edges ==> e.from in local.nodes && e.to in local.nodes
  }

  /** Merging adds only what it is given, drops nothing unless it raises the flag, keeps the caps, and raises the
      flag only for a cap or a neighbourhood that is cut or not joined. */
  lemma MergedRight(graph: Graph, local: Local, maxNodes: nat)
    requires Keyed(graph.edges)
    ensures var g := Merged(graph, local, maxNodes);
            && Keyed(g.edges) && Sourced(g.edges, graph.edges, local.edges) && graph.edges.Keys <= g.edges.Keys
            && graph.nodes <= g.nodes && (forall x :: x in g.nodes ==> x in graph.nodes || x in local.nodes)
            && |g.nodes| <= Max(|graph.nodes|, maxNodes) && |g.edges| <= Max(|graph.edges|, MAX_GRAPH)
            && (if g.truncated then graph.truncated || local.truncated || !Joined(local) || |g.nodes| >= maxNodes
                                    || |g.edges| >= MAX_GRAPH
                else !graph.truncated && !local.truncated && (forall x :: x in local.nodes ==> x in g.nodes)
                     && forall e :: e in local.edges ==> e.id in g.edges)
  {
    var (nodes, lost) := MergedNodes(graph.nodes, local.nodes, maxNodes);
    MergedNodesRight(graph.nodes, local.nodes, maxNodes);
    MergedEdgesRight(nodes, graph.edges, local.edges);
  }

  // ----- the state of the search -----

  /** The first visits, as many as may be seen. */
  function First(visits: seq<Visit>, cap: nat): (r: seq<Visit>)
    ensures r <= visits && |r| == Min(|visits|, Max(cap, 1))
  {
    visits[..Min(|visits|, Max(cap, 1))]
  }

  function ParentOf(l: Link): Parent {
    Parent(l.input.from, [l.input.id, l.output.id], l.input.to)
  }

  function Addresses(kept: seq<Visit>): set<Node> {
    if kept == [] then {} else Addresses(kept[..|kept| - 1]) + {kept[|kept| - 1].address}
  }

  /** The parent map after these visits: one entry for each but the source. */
  function Parents(kept: seq<Visit>): map<Node, Parent> {
    if kept == [] then map[]
    else
      var rest, v := Parents(kept[..|kept| - 1]), kept[|kept| - 1];
      if v.link.None? then rest else rest[v.address := ParentOf(v.link.value)]
  }

  function Items(kept: seq<Visit>): (r: seq<Queued>)
    ensures |r| == |kept|
  {
    if kept == [] then [] else Items(kept[..|kept| - 1]) + [Item(kept[|kept| - 1])]
  }

  /** The search shows these visits, the first n of which have left the queue. */
  predicate Shows(kept: seq<Visit>, n: nat, queue: seq<Queued>, seen: set<Node>, parent: map<Node, Parent>) {
    n <= |kept| && queue == Items(kept)[n..] && seen == Addresses(kept) && parent == Parents(kept)
  }

  lemma {:induction false} AddressesVisited(kept: seq<Visit>, a: Node)
    ensures a in Addresses(kept) <==> IsVisited(kept, a)
    decreases |kept|
  {
    if kept != [] {
      var n := |kept| - 1;
      AddressesVisited(kept[..n], a);
      VisitedMore(kept[..n], kept, a);
      if IsVisited(kept, a) {
        var j :| 0 <= j < |kept| && kept[j].address == a;
        assert j == n || kept[..n][j].address == a;
      }
    }
  }

  lemma {:induction false} AddressesCount(kept: seq<Visit>)
    requires DistinctVisits(kept)
    ensures |Addresses(kept)| == |kept|
    decreases |kept|
  {
    if kept != [] {
      AddressesCount(kept[..|kept| - 1]);
      AddressesVisited(kept[..|kept| - 1], kept[|kept| - 1].address);
    }
  }

  lemma {:induction false} ItemAt(kept: seq<Visit>, k: nat)
    requires k < |kept|
    ensures Items(kept)[k] == Item(kept[k])
    decreases |kept|
  {
    if k < |kept| - 1 {
      ItemAt(kept[..|kept| - 1], k);
    }
  }

  /** In a distinct list only the first visit has no payment: exactly the others have a parent. */
  ghost predicate Paid(kept: seq<Visit>) {
    kept != [] && kept[0].link.None? && forall j {:trigger kept[j]} :: 0 < j < |kept| ==> kept[j].link.Some?
  }

  lemma {:induction false} ParentsKeys(kept: seq<Visit>, a: Node)
    requires DistinctVisits(kept) && Paid(kept)
    ensures a in Parents(kept) <==> a != kept[0].address && IsVisited(kept, a)
    decreases |kept|
  {
    var n := |kept| - 1;
    if n > 0 {
      ParentsKeys(kept[..n], a);
      AddressesVisited(kept[..n], a);
      AddressesVisited(kept, a);
    } else {
      AddressesVisited(kept, a);
    }
  }

  lemma {:induction false} ParentAt(kept: seq<Visit>, k: nat)
    requires DistinctVisits(kept) && Paid(kept) && 0 < k < |kept|
    ensures kept[k].address in Parents(kept) && Parents(kept)[kept[k].address] == ParentOf(kept[k].link.value)
    decreases |kept|
  {
    if k < |kept| - 1 {
      ParentAt(kept[..|kept| - 1], k);
    }
  }

  lemma ShowsMore(kept: seq<Visit>, n: nat, queue: seq<Queued>, seen: set<Node>, parent: map<Node, Parent>, v: Visit)
    requires Shows(kept, n, queue, seen, parent) && v.link.Some?
    ensures Shows(kept + [v], n, queue + [Item(v)], seen + {v.address}, parent[v.address := ParentOf(v.link.value)])
  {
    assert (kept + [v])[..|kept|] == kept;
  }

  lemma FirstAdded(visits: seq<Visit>, p: nat, l: Link, cap: nat)
    requires p < |visits|
    ensures var w := AddLink(visits, p, l);
            First(w, cap) == if |visits| >= Max(cap, 1) then First(visits, cap) else w
    ensures |visits| <= Max(cap, 1) ==> First(visits, cap) == visits
  {
  }

  lemma FirstSame(visits: seq<Visit>, more: seq<Visit>, cap: nat)
    requires visits <= more && |visits| >= Max(cap, 1)
    ensures First(more, cap) == First(visits, cap)
  {
  }

  /** One output of a spending transaction: an unseen address is visited, unless the address cap is met. */
  method TakeOutput(cap: nat, q: Queued, input: Edge, output: Edge, queue0: seq<Queued>, seen0: set<Node>,
                    parent0: map<Node, Parent>, ghost visits: seq<Visit>, ghost p: nat, ghost n: nat)
    returns (queue: seq<Queued>, seen: set<Node>, parent: map<Node, Parent>, full: bool)
    requires p < |visits| && Item(visits[p]) == q && input.from == q.address && DistinctVisits(visits)
    requires Shows(First(visits, cap), n, queue0, seen0, parent0)
    ensures Shows(First(AddLink(visits, p, Link(input, output)), cap), n, queue, seen, parent)
    ensures |AddLink(visits, p, Link(input, output))| > Max(cap, 1) <==> full || |visits| > Max(cap, 1)
  {
    queue, seen, parent, full := queue0, seen0, parent0, false;
    var next := output.to;
    ghost var more := AddLink(visits, p, Link(input, output));
    AddressesVisited(First(visits, cap), next);
    AddressesCount(First(visits, cap));
    VisitedMore(First(visits, cap), visits, next);
    FirstAdded(visits, p, Link(input, output), cap);
    if !next.Script? && next !in seen {
      if |seen| >= cap {
        full := true;
      } else {
        ghost var v := Visit(next, visits[p].depth + 1, Some(Link(input, output)), p);
        ShowsMore(visits, n, queue, seen, parent, v);
        seen := seen + {next};
        parent := parent[next := Parent(q.address, [input.id, output.id], input.to)];
        queue := queue + [Queued(next, q.depth + 1, Some(input.position))];
      }
    }
  }

  /** The outputs of one spending transaction, until the address cap is met. */
  method TakeOutputs(edges: seq<Edge>, cap: nat, q: Queued, input: Edge, queue0: seq<Queued>, seen0: set<Node>,
                     parent0: map<Node, Parent>, ghost visits0: seq<Visit>, ghost p: nat, ghost n: nat)
    returns (queue: seq<Queued>, seen: set<Node>, parent: map<Node, Parent>, full: bool)
    requires p < |visits0| && Item(visits0[p]) == q && input.from == q.address && DistinctVisits(visits0)
    requires Shows(First(visits0, cap), n, queue0, seen0, parent0)
    ensures Shows(First(AddAll(visits0, p, Outputs(edges, input)), cap), n, queue, seen, parent)
    ensures |AddAll(visits0, p, Outputs(edges, input))| > Max(cap, 1) <==> full || |visits0| > Max(cap, 1)
  {
    queue, seen, parent, full := queue0, seen0, parent0, false;
    ghost var visits, all := visits0, AddAll(visits0, p, Outputs(edges, input));
    var i := 0;
    assert edges[0..] == edges;
    while i < |edges| && !full
      invariant i <= |edges| && visits0 <= visits && DistinctVisits(visits)
      invariant AddAll(visits, p, Outputs(edges[i..], input)) == all
      invariant Shows(First(visits, cap), n, queue, seen, parent)
      invariant full ==> |visits| > Max(cap, 1)
      invariant |visits| > Max(cap, 1) ==> full || |visits0| > Max(cap, 1)
    {
      NextOutput(edges, i, input);
      if edges[i].from == input.to && edges[i].transfer == UtxoOutput {
        queue, seen, parent, full := TakeOutput(cap, q, input, edges[i], queue, seen, parent, visits, p, n);
        NextAdded(visits, p, Link(input, edges[i]), Outputs(edges[i + 1..], input));
        visits := AddLink(visits, p, Link(input, edges[i]));
      }
      i := i + 1;
    }
    if full {
      FirstSame(visits, all, cap);
    }
  }

  lemma NextOutput(edges: seq<Edge>, i: nat, input: Edge)
    requires i < |edges|
    ensures Outputs(edges[i..], input)
         == if edges[i].from == input.to && edges[i].transfer == UtxoOutput
            then [Link(input, edges[i])] + Outputs(edges[i + 1..], input) else Outputs(edges[i + 1..], input)
  {
    assert edges[i..][1..] == edges[i + 1..];
  }

  lemma NextAdded(visits: seq<Visit>, p: nat, l: Link, rest: seq<Link>)
    requires p < |visits|
    ensures AddAll(visits, p, [l] + rest) == AddAll(AddLink(visits, p, l), p, rest)
  {
    assert ([l] + rest)[1..] == rest;
  }

  lemma NextPayments(ins: seq<Edge>, edges: seq<Edge>, k: nat)
    requires k < |ins|
    ensures Payments(ins[k..], edges) == Outputs(edges, ins[k]) + Payments(ins[k + 1..], edges)
  {
    assert ins[k..][1..] == ins[k + 1..];
  }

  lemma NextTaken(visits: seq<Visit>, p: nat, ins: seq<Edge>, edges: seq<Edge>, k: nat)
    requires p < |visits| && k < |ins|
    ensures AddAll(visits, p, Payments(ins[k..], edges))
         == AddAll(AddAll(visits, p, Outputs(edges, ins[k])), p, Payments(ins[k + 1..], edges))
  {
    NextPayments(ins, edges, k);
    AddAllConcat(visits, p, Outputs(edges, ins[k]), Payments(ins[k + 1..], edges));
  }

  /** The spending inputs in the order of their transactions: the last one in id order of each, and none missed. */
  method SpendingInputs(edges: seq<Edge>, q: Queued) returns (ins: seq<Edge>)
    ensures ins == Inputs(edges, q)
    ensures LastSpends(edges, q, ins)
  {
    ins := [];
    for i := 0 to |edges|
      invariant ins == Inputs(edges[..i], q)
    {
      assert edges[..i + 1][..i] == edges[..i];
      if Spends(edges[i], q) {
        ins := Put(ins, edges[i]);
      }
    }
    assert edges[..|edges|] == edges;
    InputsRight(edges, q);
  }

  /** The spending transactions one after the other. Once the address cap is met, nothing more is visited. */
  method TakeEach(edges: seq<Edge>, cap: nat, q: Queued, ins: seq<Edge>, queue0: seq<Queued>, seen0: set<Node>,
                  parent0: map<Node, Parent>, ghost visits0: seq<Visit>, ghost p: nat, ghost n: nat)
    returns (queue: seq<Queued>, seen: set<Node>, parent: map<Node, Parent>, full: bool)
    requires p < |visits0| && Item(visits0[p]) == q && DistinctVisits(visits0)
    requires forall k :: 0 <= k < |ins| ==> ins[k].from == q.address
    requires Shows(First(visits0, cap), n, queue0, seen0, parent0)
    ensures Shows(First(AddAll(visits0, p, Payments(ins, edges)), cap), n, queue, seen, parent)
    ensures |AddAll(visits0, p, Payments(ins, edges))| > Max(cap, 1) <==> full || |visits0| > Max(cap, 1)
  {
    queue, seen, parent, full := queue0, seen0, parent0, false;
    ghost var visits := visits0;
    assert ins[0..] == ins;
    for k := 0 to |ins|
      invariant visits0 <= visits && DistinctVisits(visits)
      invariant AddAll(visits, p, Payments(ins[k..], edges)) == AddAll(visits0, p, Payments(ins, edges))
      invariant Shows(First(visits, cap), n, queue, seen, parent)
      invariant |visits| > Max(cap, 1) <==> full || |visits0| > Max(cap, 1)
    {
      NextTaken(visits, p, ins, edges, k);
      AddAllDistinct(visits, p, Outputs(edges, ins[k]));
      var cut;
      queue, seen, parent, cut := TakeOutputs(edges, cap, q, ins[k], queue, seen, parent, visits, p, n);
      full := full || cut;
      visits := AddAll(visits, p, Outputs(edges, ins[k]));
    }
  }

  lemma InputsSpend(edges: seq<Edge>, q: Queued, ins: seq<Edge>)
    requires LastSpends(edges, q, ins)
    ensures forall k :: 0 <= k < |ins| ==> ins[k].from == q.address
  {
    forall k | 0 <= k < |ins|
      ensures ins[k].from == q.address
    {
      assert ins[k] in ins && LastSpend(edges, q, ins[k]);
    }
  }

  /** All later spends of one address: the search shows the visits after all the payments that it offers. */
  method TakeInputs(load: Node -> Local, cap: nat, q: Queued, queue0: seq<Queued>, seen0: set<Node>,
                    parent0: map<Node, Parent>, ghost visits0: seq<Visit>, ghost p: nat, ghost n: nat)
    returns (queue: seq<Queued>, seen: set<Node>, parent: map<Node, Parent>, full: bool)
    requires p < |visits0| && Item(visits0[p]) == q && DistinctVisits(visits0)
    requires Shows(First(visits0, cap), n, queue0, seen0, parent0)
    ensures Shows(First(AddAll(visits0, p, Offers(load, q)), cap), n, queue, seen, parent)
    ensures |AddAll(visits0, p, Offers(load, q))| > Max(cap, 1) <==> full || |visits0| > Max(cap, 1)
  {
    var ins := SpendingInputs(load(q.address).edges, q);
    InputsSpend(load(q.address).edges, q, ins);
    queue, seen, parent, full :=
      TakeEach(load(q.address).edges, cap, q, ins, queue0, seen0, parent0, visits0, p, n);
  }

  // ----- the evidence -----

  /** Nothing of the neighbourhood is missing in the evidence. */
  predicate Whole(local: Local, graph: Graph) {
    !local.truncated && forall e :: e in local.edges ==> e.id in graph.edges
  }

  /** The neighbourhoods of the visits that had their turn are all there. */
  ghost predicate AllWhole(load: Node -> Local, hops: nat, n: nat, visits: seq<Visit>, graph: Graph) {
    forall p: nat {:trigger Expanded(visits, n, hops, p)} ::
      Expanded(visits, n, hops, p) ==> Whole(load(visits[p].address), graph)
  }

  /** The evidence comes from the endpoints and those neighbourhoods. */
  ghost predicate Supplied(load: Node -> Local, source: Node, target: Node, hops: nat, n: nat, visits: seq<Visit>,
                           graph: Graph) {
    && (forall x :: x in graph.nodes ==> x == source || x == target || NodeSupplied(load, hops, n, visits, x))
    && (forall id :: id in graph.edges ==> EdgeSupplied(load, hops, n, visits, graph.edges[id]))
  }

  ghost predicate NodeSupplied(load: Node -> Local, hops: nat, n: nat, visits: seq<Visit>, x: Node) {
    exists p: nat :: Expanded(visits, n, hops, p) && x in load(visits[p].address).nodes
  }

  ghost predicate EdgeSupplied(load: Node -> Local, hops: nat, n: nat, visits: seq<Visit>, e: Edge) {
    exists p: nat :: Expanded(visits, n, hops, p) && e in load(visits[p].address).edges
  }

  /** Something was left out: an address, or a part of the neighbourhood of a visit that had its turn. */
  ghost predicate Limited(load: Node -> Local, hops: nat, cap: nat, n: nat, visits: seq<Visit>, graph: Graph) {
    || |visits| > Max(cap, 1) || |graph.nodes| >= MAX_GRAPH || |graph.edges| >= MAX_GRAPH
    || exists p: nat :: Expanded(visits, n, hops, p) && PartLost(load(visits[p].address))
  }

  predicate PartLost(local: Local) {
    local.truncated || !Joined(local)
  }

  /** The evidence graph and its flag after n turns. */
  ghost predicate Evidence(load: Node -> Local, source: Node, target: Node, hops: nat, cap: nat, n: nat,
                           visits: seq<Visit>, graph: Graph) {
    && Keyed(graph.edges) && Supplied(load, source, target, hops, n, visits, graph)
    && (!graph.truncated ==> |visits| <= Max(cap, 1) && AllWhole(load, hops, n, visits, graph))
    && (graph.truncated ==> Limited(load, hops, cap, n, visits, graph))
  }

  lemma NotFewer(graph0: Graph, graph: Graph)
    requires graph0.nodes <= graph.nodes && graph0.edges.Keys <= graph.edges.Keys
    ensures |graph0.nodes| <= |graph.nodes| && |graph0.edges| <= |graph.edges|
  {
    SubsetNotLarger(graph0.nodes, graph.nodes);
    SubsetNotLarger(graph0.edges.Keys, graph.edges.Keys);
    assert |graph.edges.Keys| == |graph.edges| && |graph0.edges.Keys| == |graph0.edges|;
  }

  lemma SuppliedNext(load: Node -> Local, source: Node, target: Node, hops: nat, n: nat, visits: seq<Visit>,
                     more: seq<Visit>, graph0: Graph, graph: Graph)
    requires visits <= more && Expanded(visits, n + 1, hops, n)
    requires Supplied(load, source, target, hops, n, visits, graph0)
    requires forall x :: x in graph.nodes ==> x in graph0.nodes || x in load(visits[n].address).nodes
    requires Sourced(graph.edges, graph0.edges, load(visits[n].address).edges)
    ensures Supplied(load, source, target, hops, n + 1, more, graph)
  {
    assert Expanded(more, n + 1, hops, n);
    forall x | x in graph.nodes && x != source && x != target
      ensures NodeSupplied(load, hops, n + 1, more, x)
    {
      if x in graph0.nodes {
        var p: nat :| Expanded(visits, n, hops, p) && x in load(visits[p].address).nodes;
        assert Expanded(more, n + 1, hops, p) && x in load(more[p].address).nodes;
      }
    }
    forall id | id in graph.edges
      ensures EdgeSupplied(load, hops, n + 1, more, graph.edges[id])
    {
      if graph.edges[id] !in load(visits[n].address).edges {
        var p: nat :| Expanded(visits, n, hops, p) && graph0.edges[id] in load(visits[p].address).edges;
        assert Expanded(more, n + 1, hops, p) && graph0.edges[id] in load(more[p].address).edges;
      }
    }
  }

  lemma WholeNext(load: Node -> Local, hops: nat, n: nat, visits: seq<Visit>, more: seq<Visit>, graph0: Graph,
                  graph: Graph)
    requires visits <= more && (n < |visits| || more == visits)
    requires AllWhole(load, hops, n, visits, graph0) && graph0.edges.Keys <= graph.edges.Keys
    requires n < |visits| && visits[n].depth < hops ==> Whole(load(visits[n].address), graph)
    ensures AllWhole(load, hops, n + 1, more, graph)
  {
    forall p: nat | Expanded(more, n + 1, hops, p)
      ensures Whole(load(more[p].address), graph)
    {
      if p < n { assert Expanded(visits, n, hops, p); }
    }
  }

  lemma LimitedNext(load: Node -> Local, hops: nat, cap: nat, n: nat, visits: seq<Visit>, more: seq<Visit>,
                    graph0: Graph, graph: Graph)
    requires visits <= more && Limited(load, hops, cap, n, visits, graph0)
    requires graph0.nodes <= graph.nodes && graph0.edges.Keys <= graph.edges.Keys
    ensures Limited(load, hops, cap, n + 1, more, graph)
  {
    NotFewer(graph0, graph);
    if p: nat :| Expanded(visits, n, hops, p) && PartLost(load(visits[p].address)) {
      assert Expanded(more, n + 1, hops, p) && PartLost(load(more[p].address));
    }
  }

  lemma EvidenceIdle(load: Node -> Local, source: Node, target: Node, hops: nat, cap: nat, n: nat,
                     visits: seq<Visit>, graph: Graph)
    requires Evidence(load, source, target, hops, cap, n, visits, graph)
    requires !Expanded(visits, n + 1, hops, n)
    ensures Evidence(load, source, target, hops, cap, n + 1, visits, graph)
  {
    assert forall p: nat :: Expanded(visits, n + 1, hops, p) <==> Expanded(visits, n, hops, p);
    forall x | NodeSupplied(load, hops, n, visits, x)
      ensures NodeSupplied(load, hops, n + 1, visits, x)
    {
      var p: nat :| Expanded(visits, n, hops, p) && x in load(visits[p].address).nodes;
      assert Expanded(visits, n + 1, hops, p);
    }
    forall e | EdgeSupplied(load, hops, n, visits, e)
      ensures EdgeSupplied(load, hops, n + 1, visits, e)
    {
      var p: nat :| Expanded(visits, n, hops, p) && e in load(visits[p].address).edges;
      assert Expanded(visits, n + 1, hops, p);
    }
    if graph.truncated {
      LimitedNext(load, hops, cap, n, visits, visits, graph, graph);
    } else {
      WholeNext(load, hops, n, visits, visits, graph, graph);
    }
  }

  /** The evidence after the turn of the n-th visit. */
  function Recorded(load: Node -> Local, hops: nat, cap: nat, n: nat, visits: seq<Visit>, graph: Graph): Graph {
    if n < |visits| && visits[n].depth < hops then
      Merged(graph.(truncated := graph.truncated || |Turned(load, hops, n, visits)| > Max(cap, 1)),
             load(visits[n].address), MAX_GRAPH)
    else graph
  }

  /** The evidence after n turns. */
  function Gathered(load: Node -> Local, source: Node, target: Node, hops: nat, cap: nat, n: nat): Graph {
    if n == 0 then Graph({source, target}, map[], false)
    else Recorded(load, hops, cap, n - 1, Visits(load, source, hops, n - 1),
                  Gathered(load, source, target, hops, cap, n - 1))
  }

  lemma RecordedRight(load: Node -> Local, source: Node, target: Node, hops: nat, cap: nat, n: nat,
                      visits: seq<Visit>, more: seq<Visit>, flagged: Graph, graph0: Graph)
    requires Evidence(load, source, target, hops, cap, n, visits, graph0)
    requires visits <= more && Expanded(visits, n + 1, hops, n)
    requires flagged == graph0.(truncated := graph0.truncated || |more| > Max(cap, 1))
    ensures Evidence(load, source, target, hops, cap, n + 1, more,
                     Merged(flagged, load(visits[n].address), MAX_GRAPH))
  {
    var graph := Merged(flagged, load(visits[n].address), MAX_GRAPH);
    MergedRight(flagged, load(visits[n].address), MAX_GRAPH);
    SuppliedNext(load, source, target, hops, n, visits, more, graph0, graph);
    if !graph.truncated {
      WholeNext(load, hops, n, visits, more, graph0, graph);
    } else if graph0.truncated {
      LimitedNext(load, hops, cap, n, visits, more, graph0, graph);
    } else {
      assert Expanded(more, n + 1, hops, n) && more[n] == visits[n];
    }
  }

  lemma RecordedKeeps(load: Node -> Local, source: Node, target: Node, hops: nat, cap: nat, n: nat,
                      visits: seq<Visit>, graph: Graph)
    requires Evidence(load, source, target, hops, cap, n, visits, graph)
    ensures Evidence(load, source, target, hops, cap, n + 1, Turned(load, hops, n, visits),
                     Recorded(load, hops, cap, n, visits, graph))
  {
    var more := Turned(load, hops, n, visits);
    if Expanded(visits, n + 1, hops, n) {
      var flagged := graph.(truncated := graph.truncated || |more| > Max(cap, 1));
      RecordedRight(load, source, target, hops, cap, n, visits, more, flagged, graph);
    } else {
      EvidenceIdle(load, source, target, hops, cap, n, visits, graph);
    }
  }

  lemma StartEvidence(load: Node -> Local, source: Node, target: Node, hops: nat, cap: nat)
    ensures Evidence(load, source, target, hops, cap, 0, [Visit(source, 0, None, 0)],
                     Graph({source, target}, map[], false))
  {
  }

  lemma GatheredNext(load: Node -> Local, source: Node, target: Node, hops: nat, cap: nat, n: nat)
    requires Evidence(load, source, target, hops, cap, n, Visits(load, source, hops, n),
                      Gathered(load, source, target, hops, cap, n))
    ensures Evidence(load, source, target, hops, cap, n + 1, Visits(load, source, hops, n + 1),
                     Gathered(load, source, target, hops, cap, n + 1))
  {
    RecordedKeeps(load, source, target, hops, cap, n, Visits(load, source, hops, n),
                  Gathered(load, source, target, hops, cap, n));
  }

  /** The evidence comes from the endpoints and the neighbourhoods of the visits that had their turn, has all of
      them without the flag, and has the flag only where something was left out. */
  lemma {:induction false} GatheredRight(load: Node -> Local, source: Node, target: Node, hops: nat, cap: nat, n: nat)
    ensures Evidence(load, source, target, hops, cap, n, Visits(load, source, hops, n),
                     Gathered(load, source, target, hops, cap, n))
  {
    if n == 0 {
      StartEvidence(load, source, target, hops, cap);
    } else {
      GatheredRight(load, source, target, hops, cap, n - 1);
      GatheredNext(load, source, target, hops, cap, n - 1);
    }
  }

  lemma ShowsPop(kept: seq<Visit>, n: nat, queue: seq<Queued>, seen: set<Node>, parent: map<Node, Parent>)
    requires Shows(kept, n, queue, seen, parent) && n < |kept|
    ensures queue[0] == Item(kept[n])
    ensures Shows(kept, n + 1, queue[1..], seen, parent)
  {
    ItemAt(kept, n);
  }

  /** The first queued address, below the hop limit: its later spends are followed and recorded. */
  method Expand(load: Node -> Local, ghost hops: nat, cap: nat, q: Queued, queue0: seq<Queued>, seen0: set<Node>,
                parent0: map<Node, Parent>, graph0: Graph, ghost n: nat, ghost visits: seq<Visit>)
    returns (queue: seq<Queued>, seen: set<Node>, parent: map<Node, Parent>, graph: Graph)
    requires Expanded(visits, n + 1, hops, n) && q == Item(visits[n]) && DistinctVisits(visits)
    requires Shows(First(visits, cap), n + 1, queue0, seen0, parent0)
    requires |visits| > Max(cap, 1) ==> graph0.truncated
    ensures Shows(First(Turned(load, hops, n, visits), cap), n + 1, queue, seen, parent)
    ensures graph == Recorded(load, hops, cap, n, visits, graph0)
  {
    var full;
    queue, seen, parent, full := TakeInputs(load, cap, q, queue0, seen0, parent0, visits, n, n + 1);
    graph := Merge(graph0.(truncated := graph0.truncated || full), load(q.address), MAX_GRAPH);
  }

  /** The search after some turns: its state shows the first of these visits, and the flag knows the cap. */
  predicate State(cap: nat, n: nat, visits: seq<Visit>, queue: seq<Queued>, seen: set<Node>,
                  parent: map<Node, Parent>, graph: Graph) {
    && Shows(First(visits, cap), n, queue, seen, parent)
    && (|visits| > Max(cap, 1) ==> graph.truncated)
  }

  /** One turn of the search: the first queued address, unless it is already at the hop limit. */
  method Turn(load: Node -> Local, hops: nat, cap: nat, queue0: seq<Queued>, seen0: set<Node>,
              parent0: map<Node, Parent>, graph0: Graph, ghost n: nat, ghost visits: seq<Visit>)
    returns (queue: seq<Queued>, seen: set<Node>, parent: map<Node, Parent>, graph: Graph)
    requires queue0 != [] && DistinctVisits(visits) && State(cap, n, visits, queue0, seen0, parent0, graph0)
    ensures State(cap, n + 1, Turned(load, hops, n, visits), queue, seen, parent, graph)
    ensures graph == Recorded(load, hops, cap, n, visits, graph0)
  {
    ShowsPop(First(visits, cap), n, queue0, seen0, parent0);
    var q := queue0[0];
    if q.depth >= hops {
      queue, seen, parent, graph := queue0[1..], seen0, parent0, graph0;
    } else {
      queue, seen, parent, graph := Expand(load, hops, cap, q, queue0[1..], seen0, parent0, graph0, n, visits);
    }
  }

  // ----- rebuilding -----

  function Reverse<T>(s: seq<T>): (r: seq<T>)
    ensures |r| == |s|
  {
    if s == [] then [] else [s[|s| - 1]] + Reverse(s[..|s| - 1])
  }

  lemma ReversePush<T>(s: seq<T>, x: T)
    ensures Reverse(s + [x]) == [x] + Reverse(s)
  {
    assert (s + [x])[..|s|] == s;
  }

  lemma StepBack(l: Link, rest: seq<Link>, nodes: seq<Node>, edges: seq<EdgeId>, addresses: seq<Node>, cursor: Node)
    requires l.output.to == cursor
    requires Reverse(nodes) == [cursor] + NodeTail(rest)
    requires Reverse(addresses) == [cursor] + AddressTail(rest)
    requires Reverse(edges) == EdgeTail(rest)
    ensures Reverse(nodes + [l.input.to] + [l.input.from]) == [l.input.from] + NodeTail([l] + rest)
    ensures Reverse(addresses + [l.input.from]) == [l.input.from] + AddressTail([l] + rest)
    ensures Reverse(edges + [l.output.id] + [l.input.id]) == EdgeTail([l] + rest)
  {
    assert ([l] + rest)[1..] == rest;
    ReversePush(nodes, l.input.to);
    ReversePush(nodes + [l.input.to], l.input.from);
    assert [l.input.to] + ([cursor] + NodeTail(rest)) == [l.input.to, cursor] + NodeTail(rest);
    ReversePush(addresses, l.input.from);
    ReversePush(edges, l.output.id);
    ReversePush(edges + [l.output.id], l.input.id);
    assert [l.input.id] + ([l.output.id] + EdgeTail(rest)) == [l.input.id, l.output.id] + EdgeTail(rest);
  }

  lemma OrderlyPaid(load: Node -> Local, source: Node, hops: nat, n: nat, visits: seq<Visit>)
    requires Orderly(load, source, hops, n, visits)
    ensures Paid(visits)
  {
    forall j | 0 < j < |visits|
      ensures visits[j].link.Some?
    {
      assert Stemmed(load, hops, n, visits, j);
    }
  }

  /** Walk the parent map from the target to the source, then reverse. */
  method Rebuild(source: Node, target: Node, parent: map<Node, Parent>, ghost load: Node -> Local, ghost hops: nat,
                 ghost n: nat, ghost kept: seq<Visit>, ghost goal: nat) returns (p: Path)
    requires Orderly(load, source, hops, n, kept) && 0 < goal < |kept| && kept[goal].address == target
    requires parent == Parents(kept)
    ensures p == PathOf(source, TrailTo(kept, goal))
  {
    var cursor := target;
    var nodes, edges, addresses := [cursor], [], [cursor];
    ghost var whole := TrailTo(kept, goal);
    ghost var k: nat := goal;
    ghost var rest: seq<Link> := [];
    ReversePush<Node>([], cursor);
    assert [] + [cursor] == [cursor];
    ConcatEmpty(whole);
    while cursor != source
      invariant k < |kept| && kept[k].address == cursor
      invariant whole == TrailTo(kept, k) + rest
      invariant Reverse(nodes) == [cursor] + NodeTail(rest)
      invariant Reverse(addresses) == [cursor] + AddressTail(rest)
      invariant Reverse(edges) == EdgeTail(rest)
      decreases k
    {
      assert Stemmed(load, hops, n, kept, k);
      OrderlyPaid(load, source, hops, n, kept);
      ParentAt(kept, k);
      ghost var l := kept[k].link.value;
      var step := parent[cursor];
      OfferRight(load, Item(kept[kept[k].payer]), l);
      StepBack(l, rest, nodes, edges, addresses, cursor);
      ConcatAssociative(TrailTo(kept, kept[k].payer), [l], rest);
      nodes := nodes + [step.tx] + [step.previous];
      edges := edges + [step.ids[1]] + [step.ids[0]];
      cursor := step.previous;
      addresses := addresses + [cursor];
      rest := [l] + rest;
      k := kept[k].payer;
    }
    assert kept[0].address == kept[k].address;
    ConcatEmpty(rest);
    p := Path(Reverse(addresses), Reverse(nodes), Reverse(edges), |addresses| - 1);
  }

  /** The returned path: from source to target, chronological, without repetition, within the hop limit, and
      with every edge in the evidence graph. */
  ghost predicate PathGood(load: Node -> Local, source: Node, target: Node, hops: nat, trail: seq<Link>, p: Path,
                           graph: Graph) {
    && Chained(load, source, trail) && 1 <= |trail| <= hops && trail[|trail| - 1].output.to == target
    && Follows(p, source, EdgesOf(trail))
    && Distinct(p.addresses) && p.hopCount == |trail|
    && p.addresses[0] == source && p.addresses[|p.addresses| - 1] == target
    && (forall id :: id in p.edges ==> id in graph.edges)
  }

  lemma RebuiltGood(load: Node -> Local, source: Node, target: Node, hops: nat, n: nat, visits: seq<Visit>, goal: nat,
                    graph: Graph)
    requires Orderly(load, source, hops, n, visits) && 0 < goal < |visits| && visits[goal].address == target
    ensures var t := TrailTo(visits, goal);
            && ((forall id :: id in EdgeTail(t) ==> id in graph.edges) ==>
                  PathGood(load, source, target, hops, t, PathOf(source, t), graph))
            && (AllWhole(load, hops, n, visits, graph) ==> forall id :: id in EdgeTail(t) ==> id in graph.edges)
  {
    var t := TrailTo(visits, goal);
    TrailChained(load, source, hops, n, visits, goal);
    TrailDistinct(load, source, hops, n, visits, goal);
    PathFollows(load, source, t);
    if AllWhole(load, hops, n, visits, graph) {
      TrailEvidenced(load, source, hops, n, visits, goal, graph);
    }
  }

  lemma EdgeTailConcat(a: seq<Link>, b: seq<Link>)
    ensures EdgeTail(a + b) == EdgeTail(a) + EdgeTail(b)
    decreases |a|
  {
    if a == [] {
      ConcatEmpty(b);
    } else {
      assert (a + b)[1..] == a[1..] + b;
      EdgeTailConcat(a[1..], b);
      ConcatAssociative([a[0].input.id, a[0].output.id], EdgeTail(a[1..]), EdgeTail(b));
    }
  }

  lemma {:induction false} TrailEvidenced(load: Node -> Local, source: Node, hops: nat, n: nat, visits: seq<Visit>,
                                          j: nat, graph: Graph)
    requires Orderly(load, source, hops, n, visits) && j < |visits|
    requires AllWhole(load, hops, n, visits, graph)
    ensures forall id :: id in EdgeTail(TrailTo(visits, j)) ==> id in graph.edges
    decreases j
  {
    if j > 0 {
      assert Stemmed(load, hops, n, visits, j);
      var p, l := visits[j].payer, visits[j].link.value;
      TrailEvidenced(load, source, hops, n, visits, p, graph);
      OfferRight(load, Item(visits[p]), l);
      assert Expanded(visits, n, hops, p);
      EdgeTailConcat(TrailTo(visits, p), [l]);
      assert EdgeTail([l]) == [l.input.id, l.output.id];
    }
  }

  // ----- the whole search -----

  /** After one turn less the target was not met. */
  ghost predicate Unmet(load: Node -> Local, source: Node, target: Node, hops: nat, cap: nat, n: nat) {
    n > 0 && source != target ==> !IsVisited(First(Visits(load, source, hops, n - 1), cap), target)
  }

  /** The search took n turns: it stopped when the target was met or nothing was left, and not before. */
  ghost predicate Searched(load: Node -> Local, source: Node, target: Node, hops: nat, cap: nat, n: nat) {
    var kept := First(Visits(load, source, hops, n), cap);
    n <= |kept| && (n == |kept| || IsVisited(kept, target)) && Unmet(load, source, target, hops, cap, n)
  }

  lemma FirstOrderly(load: Node -> Local, source: Node, hops: nat, cap: nat, n: nat, visits: seq<Visit>)
    requires Orderly(load, source, hops, n, visits)
    ensures Orderly(load, source, hops, n, First(visits, cap))
  {
    var kept := First(visits, cap);
    forall j | 0 < j < |kept|
      ensures Stemmed(load, hops, n, kept, j)
    {
      assert Stemmed(load, hops, n, visits, j);
    }
  }

  lemma StartState(source: Node, target: Node, cap: nat)
    ensures State(cap, 0, [Visit(source, 0, None, 0)], [Queued(source, 0, None)], {source}, map[],
                  Graph({source, target}, map[], false))
  {
    var visits := [Visit(source, 0, None, 0)];
    assert First(visits, cap) == visits && visits[..0] == [];
  }

  /** The search after n turns. */
  ghost predicate Running(load: Node -> Local, source: Node, target: Node, hops: nat, cap: nat, n: nat,
                          queue: seq<Queued>, seen: set<Node>, parent: map<Node, Parent>, graph: Graph) {
    && State(cap, n, Visits(load, source, hops, n), queue, seen, parent, graph)
    && graph == Gathered(load, source, target, hops, cap, n)
    && Unmet(load, source, target, hops, cap, n)
  }

  lemma StartRunning(load: Node -> Local, source: Node, target: Node, hops: nat, cap: nat)
    ensures Running(load, source, target, hops, cap, 0, [Queued(source, 0, None)], {source}, map[],
                    Graph({source, target}, map[], false))
  {
    StartState(source, target, cap);
  }

  lemma NextUnmet(load: Node -> Local, source: Node, target: Node, hops: nat, cap: nat, n: nat, seen: set<Node>)
    requires seen == Addresses(First(Visits(load, source, hops, n), cap))
    requires source != target ==> target !in seen
    ensures Unmet(load, source, target, hops, cap, n + 1)
  {
    AddressesVisited(First(Visits(load, source, hops, n), cap), target);
  }

  /** The next turn of a search that has not met its target. */
  method NextTurn(load: Node -> Local, ghost source: Node, ghost target: Node, hops: nat, cap: nat,
                  queue0: seq<Queued>, seen0: set<Node>, parent0: map<Node, Parent>, graph0: Graph, ghost n: nat)
    returns (queue: seq<Queued>, seen: set<Node>, parent: map<Node, Parent>, graph: Graph)
    requires queue0 != [] && (source != target ==> target !in seen0)
    requires Running(load, source, target, hops, cap, n, queue0, seen0, parent0, graph0)
    ensures Running(load, source, target, hops, cap, n + 1, queue, seen, parent, graph)
    ensures n < Max(cap, 1)
  {
    ghost var visits := Visits(load, source, hops, n);
    VisitsRight(load, source, hops, n);
    NextUnmet(load, source, target, hops, cap, n, seen0);
    queue, seen, parent, graph := Turn(load, hops, cap, queue0, seen0, parent0, graph0, n, visits);
  }

  lemma StopsHere(load: Node -> Local, source: Node, target: Node, hops: nat, cap: nat, n: nat, queue: seq<Queued>,
                  seen: set<Node>, parent: map<Node, Parent>, graph: Graph)
    requires Running(load, source, target, hops, cap, n, queue, seen, parent, graph) && (queue == [] || target in seen)
    ensures Searched(load, source, target, hops, cap, n)
  {
    AddressesVisited(First(Visits(load, source, hops, n), cap), target);
  }

  /** The loop of the search: turn after turn, until the target is met or nothing is queued. */
  method Search(source: Node, target: Node, hops: nat, cap: nat, load: Node -> Local)
    returns (queue: seq<Queued>, seen: set<Node>, parent: map<Node, Parent>, graph: Graph, ghost n: nat)
    ensures Running(load, source, target, hops, cap, n, queue, seen, parent, graph)
    ensures queue == [] || target in seen
  {
    graph := Graph({source, target}, map[], false);
    queue := [Queued(source, 0, None)];
    seen, parent, n := {source}, map[], 0;
    StartRunning(load, source, target, hops, cap);
    while queue != []
      invariant Running(load, source, target, hops, cap, n, queue, seen, parent, graph)
      invariant source != target ==> target !in seen
      decreases Max(cap, 1) - n
    {
      queue, seen, parent, graph := NextTurn(load, source, target, hops, cap, queue, seen, parent, graph, n);
      n := n + 1;
      if target in seen {
        break;
      }
    }
  }

  /** An unflagged search without the target gave every visit its turn. */
  predicate Finished(load: Node -> Local, source: Node, target: Node, hops: nat, n: nat) {
    |Visits(load, source, hops, n)| <= n && !IsVisited(Visits(load, source, hops, n), target)
  }

  lemma UnflaggedFinishes(load: Node -> Local, source: Node, target: Node, hops: nat, cap: nat, n: nat)
    requires Searched(load, source, target, hops, cap, n)
    requires |Visits(load, source, hops, n)| <= Max(cap, 1) && !IsVisited(Visits(load, source, hops, n), target)
    ensures Finished(load, source, target, hops, n)
  {
    FirstVisited(Visits(load, source, hops, n), cap, target);
  }

  /** One chronological connection between two addresses, if the bounded search meets one. The search sees the
      first visits, as many as the cap admits. Without the flag it saw all of them and their whole
      neighbourhoods; either the target is among them and there is a path, or it is not and every visit had its turn. */
  method FindPath(source: Node, target: Node, hops: nat, cap: nat, load: Node -> Local)
    returns (r: Answer, ghost trail: seq<Link>, ghost n: nat)
    ensures |r.paths| <= 1 && Searched(load, source, target, hops, cap, n)
    ensures r.searched == |First(Visits(load, source, hops, n), cap)|
    ensures r.graph == Gathered(load, source, target, hops, cap, n)
    ensures r.paths != [] ==> source != target && PathGood(load, source, target, hops, trail, r.paths[0], r.graph)
    ensures !r.graph.truncated && source != target ==>
      if r.paths != [] then IsVisited(Visits(load, source, hops, n), target)
      else Finished(load, source, target, hops, n)
  {
    var queue, seen, parent, graph;
    queue, seen, parent, graph, n := Search(source, target, hops, cap, load);
    StopsHere(load, source, target, hops, cap, n, queue, seen, parent, graph);
    VisitsRight(load, source, hops, n);
    GatheredRight(load, source, target, hops, cap, n);
    r, trail := Conclude(load, source, target, hops, cap, seen, parent, graph, n, Visits(load, source, hops, n));
    if !r.graph.truncated && source != target && r.paths == [] {
      UnflaggedFinishes(load, source, target, hops, cap, n);
    }
  }

  /** The trail to the target gives a good path if all its edges are there, and they are unless the flag was raised. */
  lemma TargetReached(load: Node -> Local, source: Node, target: Node, hops: nat, cap: nat, n: nat,
                      visits: seq<Visit>, goal: nat, graph: Graph)
    requires Orderly(load, source, hops, n, visits) && Evidence(load, source, target, hops, cap, n, visits, graph)
    requires 0 < goal < |First(visits, cap)| && visits[goal].address == target
    ensures var t := TrailTo(First(visits, cap), goal);
            && ((forall id :: id in EdgeTail(t) ==> id in graph.edges) ==>
                  PathGood(load, source, target, hops, t, PathOf(source, t), graph))
            && (!graph.truncated ==> forall id :: id in EdgeTail(t) ==> id in graph.edges)
  {
    FirstOrderly(load, source, hops, cap, n, visits);
    RebuiltGood(load, source, target, hops, n, First(visits, cap), goal, graph);
    if !graph.truncated {
      assert First(visits, cap) == visits;
    }
  }

  lemma FirstVisited(visits: seq<Visit>, cap: nat, a: Node)
    ensures IsVisited(First(visits, cap), a) ==> IsVisited(visits, a)
    ensures |visits| <= Max(cap, 1) ==> First(visits, cap) == visits
  {
    VisitedMore(First(visits, cap), visits, a);
  }

  /** The answer after the search: the rebuilt path, if its edges are in the graph. */
  method Conclude(load: Node -> Local, source: Node, target: Node, hops: nat, cap: nat, seen: set<Node>,
                  parent: map<Node, Parent>, graph0: Graph, ghost n: nat, ghost visits: seq<Visit>)
    returns (r: Answer, ghost trail: seq<Link>)
    requires Orderly(load, source, hops, n, visits)
    requires seen == Addresses(First(visits, cap)) && parent == Parents(First(visits, cap))
    requires Evidence(load, source, target, hops, cap, n, visits, graph0)
    ensures |r.paths| <= 1 && r.searched == |First(visits, cap)|
    ensures r.graph == graph0
    ensures r.paths != [] ==> source != target && PathGood(load, source, target, hops, trail, r.paths[0], r.graph)
    ensures !r.graph.truncated ==> (r.paths != [] <==> source != target && IsVisited(visits, target))
  {
    var graph, paths := graph0, [];
    ghost var kept := First(visits, cap);
    FirstOrderly(load, source, hops, cap, n, visits);
    OrderlyPaid(load, source, hops, n, kept);
    ParentsKeys(kept, target);
    AddressesCount(kept);
    FirstVisited(visits, cap, target);
    trail := [];
    if target in parent {
      ghost var goal: nat :| goal < |kept| && kept[goal].address == target;
      TargetReached(load, source, target, hops, cap, n, visits, goal, graph);
      var p := Rebuild(source, target, parent, load, hops, n, kept, goal);
      trail := TrailTo(kept, goal);
      if forall id | id in p.edges :: id in graph.edges {
        paths := [p];
      } else {
        graph := graph.(truncated := true);
        assert graph == graph0;
      }
    }
    r := Answer(graph, paths, |seen|);
  }
}
