/**
 Addresses, transactions and their edges, and the chronological trails that the Bitcoin connectivity
 search looks for.
 */
module ChronoTrails {
  import opened Common

  /** A graph node: an address, a script without address, or a transaction. */
  datatype Node = Address(text: string) | Script(text: string) | Transaction(text: string)
  datatype EdgeId = EdgeId(text: string)
  datatype Transfer = UtxoInput | UtxoOutput | OtherTransfer
  datatype Position = Position(block: nat, index: nat)
  datatype Edge = Edge(id: EdgeId, from: Node, to: Node, transfer: Transfer, position: Position)

  /** The stored neighbourhood of an address: its nodes and its edges in id order. */
  datatype Local = Local(nodes: seq<Node>, edges: seq<Edge>, truncated: bool)

  /** The evidence graph of an answer. */
  datatype Graph = Graph(nodes: set<Node>, edges: map<EdgeId, Edge>, truncated: bool)

  /** How an address was reached: from which address, by which two edges, through which transaction. */
  datatype Parent = Parent(previous: Node, ids: seq<EdgeId>, tx: Node)
  datatype Queued = Queued(address: Node, depth: nat, after: Option<Position>)
  datatype Path = Path(addresses: seq<Node>, nodes: seq<Node>, edges: seq<EdgeId>, hopCount: nat)
  datatype Answer = Answer(graph: Graph, paths: seq<Path>, searched: nat)

  const MAX_GRAPH: nat := 2000

  predicate Before(a: Position, b: Position) {
    a.block < b.block || (a.block == b.block && a.index < b.index)
  }

  /** One hop: an input of a transaction and one of its outputs. */
  datatype Link = Link(input: Edge, output: Edge)

  predicate LinkLoaded(load: Node -> Local, l: Link) {
    && l.input in load(l.input.from).edges && l.output in load(l.input.from).edges
    && l.input.transfer == UtxoInput && l.output.transfer == UtxoOutput
    && l.output.from == l.input.to
  }

  /** A chain of hops from `source`: consecutive, and strictly later transaction after transaction. */
  predicate Chained(load: Node -> Local, source: Node, trail: seq<Link>) {
    && (forall k :: 0 <= k < |trail| ==> LinkLoaded(load, trail[k]))
    && (trail != [] ==> trail[0].input.from == source)
    && (forall k :: 0 < k < |trail| ==> trail[k].input.from == trail[k - 1].output.to)
    && (forall j, k :: 0 <= j < k < |trail| ==> Before(trail[j].input.position, trail[k].input.position))
  }

  /** The address at which the trail stands after k hops. */
  function StopAt(source: Node, trail: seq<Link>, k: nat): Node
    requires k <= |trail|
  {
    if k == 0 then source else trail[k - 1].output.to
  }

  /** The hop goes on from the end of the trail, in a later transaction. */
  predicate Continues(load: Node -> Local, source: Node, trail: seq<Link>, l: Link) {
    && LinkLoaded(load, l) && l.input.from == StopAt(source, trail, |trail|)
    && (trail != [] ==> Before(trail[|trail| - 1].input.position, l.input.position))
  }

  lemma ChainedLonger(load: Node -> Local, source: Node, trail: seq<Link>, l: Link)
    requires Chained(load, source, trail) && Continues(load, source, trail, l)
    ensures Chained(load, source, trail + [l])
  {
    var t := trail + [l];
    forall j, k | 0 <= j < k < |t|
      ensures Before(t[j].input.position, t[k].input.position)
    {
      if k == |trail| && j < |trail| - 1 {
        assert Before(trail[j].input.position, trail[|trail| - 1].input.position);
      }
    }
  }

  // ----- reading a chain as a path -----

  function AddressTail(trail: seq<Link>): (r: seq<Node>)
    ensures |r| == |trail|
    ensures forall k :: 0 <= k < |trail| ==> r[k] == trail[k].output.to
  {
    if trail == [] then [] else [trail[0].output.to] + AddressTail(trail[1..])
  }

  function NodeTail(trail: seq<Link>): (r: seq<Node>)
    ensures |r| == 2 * |trail|
  {
    if trail == [] then [] else [trail[0].input.to, trail[0].output.to] + NodeTail(trail[1..])
  }

  function EdgeTail(trail: seq<Link>): (r: seq<EdgeId>)
    ensures |r| == 2 * |trail|
  {
    if trail == [] then [] else [trail[0].input.id, trail[0].output.id] + EdgeTail(trail[1..])
  }

  /** The edges of a chain: input, output, input, output, ... */
  function EdgesOf(trail: seq<Link>): (r: seq<Edge>)
    ensures |r| == 2 * |trail|
  {
    if trail == [] then [] else [trail[0].input, trail[0].output] + EdgesOf(trail[1..])
  }

  function PathOf(source: Node, trail: seq<Link>): Path {
    Path([source] + AddressTail(trail), [source] + NodeTail(trail), EdgeTail(trail), |trail|)
  }

  /** Edge j of the path is `e` and joins node j and node j + 1; inputs and outputs alternate. */
  predicate JoinsAt(p: Path, j: nat, e: Edge)
    requires j < |p.edges| && |p.nodes| == |p.edges| + 1
  {
    && p.edges[j] == e.id && p.nodes[j] == e.from && p.nodes[j + 1] == e.to
    && e.transfer == if j % 2 == 0 then UtxoInput else UtxoOutput
  }

  /** The path starts at the source, alternates addresses and transactions, and edge j joins node j and node j + 1. */
  predicate Follows(p: Path, source: Node, edges: seq<Edge>) {
    && |p.edges| == |edges| && |p.nodes| == |edges| + 1 && |p.edges| == 2 * p.hopCount
    && |p.addresses| == p.hopCount + 1
    && p.nodes[0] == source
    && (forall j {:trigger JoinsAt(p, j, edges[j])} :: 0 <= j < |edges| ==> JoinsAt(p, j, edges[j]))
    && (forall k :: 0 <= k <= p.hopCount ==> p.addresses[k] == p.nodes[2 * k])
  }

  lemma PathUnfold(source: Node, trail: seq<Link>)
    requires trail != []
    ensures var q := PathOf(trail[0].output.to, trail[1..]);
            PathOf(source, trail) == Path([source] + q.addresses, [source, trail[0].input.to] + q.nodes,
                                          [trail[0].input.id, trail[0].output.id] + q.edges, q.hopCount + 1)
  {
    MoveBracket(source, trail[0].input.to, trail[0].output.to, NodeTail(trail[1..]));
  }

  lemma FollowsStep(p: Path, q: Path, source: Node, l: Link, rest: seq<Edge>)
    requires Follows(q, l.output.to, rest)
    requires l.input.from == source && l.output.from == l.input.to
    requires l.input.transfer == UtxoInput && l.output.transfer == UtxoOutput
    requires p.addresses == [source] + q.addresses && p.nodes == [source, l.input.to] + q.nodes
    requires p.edges == [l.input.id, l.output.id] + q.edges && p.hopCount == q.hopCount + 1
    ensures Follows(p, source, [l.input, l.output] + rest)
  {
    var all := [l.input, l.output] + rest;
    forall j | 0 <= j < |all|
      ensures JoinsAt(p, j, all[j])
    {
      if j >= 2 { assert JoinsAt(q, j - 2, rest[j - 2]); }
    }
    forall k | 0 <= k <= p.hopCount
      ensures p.addresses[k] == p.nodes[2 * k]
    {
      if k > 0 { assert q.addresses[k - 1] == q.nodes[2 * (k - 1)]; }
    }
  }

  lemma {:induction false} PathFollows(load: Node -> Local, source: Node, trail: seq<Link>)
    requires Chained(load, source, trail)
    ensures Follows(PathOf(source, trail), source, EdgesOf(trail))
    decreases |trail|
  {
    if trail != [] {
      var l, rest := trail[0], trail[1..];
      assert LinkLoaded(load, trail[0]) && trail[0].input.from == source;
      forall k | 0 <= k < |rest|
        ensures LinkLoaded(load, rest[k])
        ensures rest[k].input.from == (if k == 0 then l.output.to else rest[k - 1].output.to)
      {
        assert rest[k] == trail[k + 1] && LinkLoaded(load, trail[k + 1]);
        assert trail[k + 1].input.from == trail[k].output.to;
      }
      PathFollows(load, l.output.to, rest);
      PathUnfold(source, trail);
      FollowsStep(PathOf(source, trail), PathOf(l.output.to, rest), source, l, EdgesOf(rest));
    }
  }
}
