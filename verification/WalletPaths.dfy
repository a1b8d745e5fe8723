/**
 The Ethereum path search: breadth-first enumeration of simple paths between two addresses under
 caps on hops, results, expansions, discovered edges and queue length.
 */
module WalletPaths {
  import opened Common

  datatype Address = Address(text: string)
  datatype EdgeId = EdgeId(text: string)
  datatype Edge = Edge(id: EdgeId, from: Address, to: Address, block: nat)
  datatype Direction = Outbound | Both

  /** The edges of an address in the order of the query. */
  type Loader = Address -> seq<Edge>

  /** A walk under construction: its addresses and the ids of the edges between them. */
  datatype Trail = Trail(addresses: seq<Address>, ids: seq<EdgeId>)
  datatype WalletPath = WalletPath(hopCount: nat, trail: Trail)

  datatype Limits = Limits(maxHops: nat, paths: nat, perAddress: nat, expanded: nat, edges: nat, queue: nat)

  datatype Search = Search(source: Address, target: Address, direction: Direction, limits: Limits)

  datatype Outcome = Outcome(
    paths: seq<WalletPath>,
    edges: map<EdgeId, Edge>,
    expanded: nat,
    truncated: bool)

  const MAX_EXPANDED: nat := 2_000
  const MAX_QUEUED: nat := 10_000

  function Clamp(requested: Option<nat>, default: nat, low: nat, high: nat): nat {
    var n := if requested.Some? then requested.value else default;
    if n < low then low else if n > high then high else n
  }

  function LimitsOf(hops: Option<nat>, paths: Option<nat>, perAddress: Option<nat>, maxEdges: nat): Limits {
    Limits(Clamp(hops, 6, 1, 10), Clamp(paths, 5, 1, 25), Clamp(perAddress, 500, 1, 2_000),
           MAX_EXPANDED, maxEdges, MAX_QUEUED)
  }

  function Neighbor(direction: Direction, e: Edge, current: Address): Option<Address> {
    if e.from == current then Some(e.to)
    else if direction == Both && e.to == current then Some(e.from)
    else None
  }

  // ----- what a path is -----

  predicate Joined(load: Loader, direction: Direction, a: Address, id: EdgeId, b: Address) {
    exists e :: e in load(a) && e.id == id && Neighbor(direction, e, a) == Some(b)
  }

  /** A simple walk from the source over loaded edges. */
  predicate Walk(s: Search, load: Loader, t: Trail) {
    && |t.addresses| == |t.ids| + 1
    && t.addresses[0] == s.source
    && Distinct(t.addresses)
    && (forall k :: 0 <= k < |t.ids| ==> Joined(load, s.direction, t.addresses[k], t.ids[k], t.addresses[k + 1]))
  }

  function Last(t: Trail): Address
    requires |t.addresses| > 0
  {
    t.addresses[|t.addresses| - 1]
  }

  /** A simple path from source to target within the hop limit. */
  predicate Connects(s: Search, load: Loader, t: Trail) {
    && Walk(s, load, t)
    && 1 <= |t.ids| <= s.limits.maxHops
    && Last(t) == s.target
  }

  predicate Found(paths: seq<WalletPath>, t: Trail) {
    WalletPath(|t.ids|, t) in paths
  }

  // ----- prefixes -----

  /** `q` is a proper prefix of `t`. */
  predicate Before(q: Trail, t: Trail) {
    && |q.addresses| == |q.ids| + 1
    && |t.addresses| == |t.ids| + 1
    && |q.ids| < |t.ids|
    && q.ids == t.ids[..|q.ids|]
    && q.addresses == t.addresses[..|q.ids| + 1]
  }

  predicate Pending(queue: seq<Trail>, t: Trail) {
    exists i :: 0 <= i < |queue| && Before(queue[i], t)
  }

  function Extend(x: Trail, e: Edge, next: Address): Trail {
    Trail(x.addresses + [next], x.ids + [e.id])
  }

  /** The edges from position `j` on still have to lead from `x` towards `t`. */
  predicate Awaits(direction: Direction, x: Trail, edges: seq<Edge>, j: nat, t: Trail) {
    && Before(x, t)
    && |x.addresses| > 0
    && (exists m :: j <= m < |edges| && Leads(direction, x, edges[m], t))
  }

  predicate Leads(direction: Direction, x: Trail, e: Edge, t: Trail)
    requires Before(x, t) && |x.addresses| > 0
  {
    e.id == t.ids[|x.ids|] && Neighbor(direction, e, Last(x)) == Some(t.addresses[|x.ids| + 1])
  }

  // ----- invariants of the search -----

  /** A queued walk has not reached the target and may still grow. */
  predicate Growing(s: Search, load: Loader, t: Trail) {
    && Walk(s, load, t)
    && s.target !in t.addresses
    && |t.ids| < s.limits.maxHops
  }

  predicate AllGrowing(s: Search, load: Loader, queue: seq<Trail>) {
    forall i {:trigger Growing(s, load, queue[i])} :: 0 <= i < |queue| ==> Growing(s, load, queue[i])
  }

  predicate AllConnect(s: Search, load: Loader, paths: seq<WalletPath>) {
    forall i {:trigger Connects(s, load, paths[i].trail)} :: 0 <= i < |paths| ==>
      paths[i].hopCount == |paths[i].trail.ids| && Connects(s, load, paths[i].trail)
  }

  predicate Ascending(queue: seq<Trail>) {
    forall i, j :: 0 <= i < j < |queue| ==> |queue[i].ids| <= |queue[j].ids|
  }

  predicate PathsAscending(paths: seq<WalletPath>) {
    forall i, j :: 0 <= i < j < |paths| ==> paths[i].hopCount <= paths[j].hopCount
  }

  /** Breadth-first shape at depth `d`: queued lengths ascend within d and d + 1, found ones end by d + 1. */
  predicate Layered(queue: seq<Trail>, paths: seq<WalletPath>, d: nat) {
    && Ascending(queue)
    && PathsAscending(paths)
    && (forall i :: 0 <= i < |queue| ==> d <= |queue[i].ids| <= d + 1)
    && (forall i :: 0 <= i < |paths| ==> paths[i].hopCount <= d + 1)
  }

  predicate Clash(a: Trail, b: Trail) {
    a == b || Before(a, b) || Before(b, a)
  }

  /** No queued walk repeats or continues another, and no found path continues a queued walk. */
  predicate Separate(queue: seq<Trail>, paths: seq<WalletPath>) {
    && (forall i, j {:trigger Clash(queue[i], queue[j])} :: 0 <= i < j < |queue| ==> !Clash(queue[i], queue[j]))
    && (forall i, j {:trigger Clash(queue[i], paths[j].trail)} :: 0 <= i < |queue| && 0 <= j < |paths| ==>
        !Clash(queue[i], paths[j].trail))
    && (forall i, j :: 0 <= i < j < |paths| ==> paths[i] != paths[j])
  }

  predicate Known(edges: map<EdgeId, Edge>, t: Trail) {
    forall k :: 0 <= k < |t.ids| ==> t.ids[k] in edges
  }

  /** Some walk that has not met the target ends at the address. */
  ghost predicate Reachable(s: Search, load: Loader, a: Address) {
    exists t :: Growing(s, load, t) && Last(t) == a
  }

  /** The edges were loaded from addresses that the search can reach. */
  ghost predicate Loaded(s: Search, load: Loader, edges: map<EdgeId, Edge>) {
    forall id :: id in edges ==> edges[id].id == id && exists a :: Reachable(s, load, a) && edges[id] in load(a)
  }

  /** Every edge of a queued or found walk was discovered, and discovered edges were loaded. */
  ghost predicate Evidence(s: Search, load: Loader, queue: seq<Trail>, paths: seq<WalletPath>,
                           edges: map<EdgeId, Edge>) {
    && (forall i {:trigger Known(edges, queue[i])} :: 0 <= i < |queue| ==> Known(edges, queue[i]))
    && (forall i {:trigger Known(edges, paths[i].trail)} :: 0 <= i < |paths| ==> Known(edges, paths[i].trail))
    && Loaded(s, load, edges)
  }

  /** A missing path is pending, or the result limit was hit at least at its length. */
  ghost predicate Complete(s: Search, load: Loader, queue: seq<Trail>, paths: seq<WalletPath>) {
    forall t :: Connects(s, load, t) ==>
      || Found(paths, t)
      || Pending(queue, t)
      || (0 < |paths| && |paths| >= s.limits.paths && paths[|paths| - 1].hopCount <= |t.ids|)
  }

  ghost predicate CompleteFrom(s: Search, load: Loader, queue: seq<Trail>, paths: seq<WalletPath>,
                               x: Trail, edges: seq<Edge>, j: nat) {
    forall t :: Connects(s, load, t) ==>
      Found(paths, t) || Pending(queue, t) || Awaits(s.direction, x, edges, j, t)
  }

  ghost predicate ValidLoader(load: Loader, perAddress: nat) {
    forall a :: |load(a)| <= perAddress && forall i, j :: 0 <= i < j < |load(a)| ==> load(a)[i].id != load(a)[j].id
  }

  // ----- lemmas about one step -----

  lemma WalkExtends(s: Search, load: Loader, x: Trail, e: Edge, next: Address)
    requires Walk(s, load, x)
    requires e in load(Last(x)) && Neighbor(s.direction, e, Last(x)) == Some(next) && next !in x.addresses
    ensures Walk(s, load, Extend(x, e, next))
  {
    var t := Extend(x, e, next);
    forall k | 0 <= k < |t.ids|
      ensures Joined(load, s.direction, t.addresses[k], t.ids[k], t.addresses[k + 1])
    {
      if k < |x.ids| {
        assert Joined(load, s.direction, x.addresses[k], x.ids[k], x.addresses[k + 1]);
      }
    }
  }

  lemma PrefixAwaits(s: Search, load: Loader, x: Trail, t: Trail)
    requires Walk(s, load, x) && Walk(s, load, t) && Before(x, t)
    ensures Awaits(s.direction, x, load(Last(x)), 0, t)
  {
    var k := |x.ids|;
    assert Last(x) == t.addresses[k];
    assert Joined(load, s.direction, t.addresses[k], t.ids[k], t.addresses[k + 1]);
    var e :| e in load(t.addresses[k]) && e.id == t.ids[k]
      && Neighbor(s.direction, e, t.addresses[k]) == Some(t.addresses[k + 1]);
    var m :| 0 <= m < |load(Last(x))| && load(Last(x))[m] == e;
    assert Leads(s.direction, x, load(Last(x))[m], t);
  }

  /** What an edge on the way from `x` to a connecting walk does: it completes that walk or prolongs its prefix. */
  lemma LeadingEdge(s: Search, load: Loader, x: Trail, e: Edge, t: Trail)
    requires Growing(s, load, x) && Connects(s, load, t) && Before(x, t) && Leads(s.direction, x, e, t)
    ensures t.addresses[|x.ids| + 1] !in x.addresses
    ensures t.addresses[|x.ids| + 1] == s.target ==> t == Extend(x, e, s.target)
    ensures t.addresses[|x.ids| + 1] != s.target ==>
              Before(Extend(x, e, t.addresses[|x.ids| + 1]), t) && |x.ids| + 1 < s.limits.maxHops
  {
    var k := |x.ids|;
    var next := t.addresses[k + 1];
    forall i | 0 <= i < |x.addresses|
      ensures x.addresses[i] != next
    {
      assert x.addresses[i] == t.addresses[i];
    }
    assert t.addresses[..k + 2] == x.addresses + [next];
    assert t.ids[..k + 1] == x.ids + [e.id];
    if next == s.target {
      assert k + 1 == |t.addresses| - 1;
      assert t.addresses == t.addresses[..k + 2] && t.ids == t.ids[..k + 1];
    } else {
      assert k + 1 != |t.addresses| - 1;
    }
  }

  lemma PendingGrows(queue: seq<Trail>, y: Trail, t: Trail)
    requires Pending(queue, t) || Before(y, t)
    ensures Pending(queue + [y], t)
  {
    if Pending(queue, t) {
      var i :| 0 <= i < |queue| && Before(queue[i], t);
      assert (queue + [y])[i] == queue[i];
    } else {
      assert (queue + [y])[|queue|] == y;
    }
  }

  /** The extension of a popped walk clashes only with what clashed with the walk itself. */
  lemma ExtensionSeparate(x: Trail, e: Edge, next: Address, q: Trail)
    requires |x.addresses| == |x.ids| + 1 && |q.addresses| == |q.ids| + 1
    requires !Clash(x, q) && |q.ids| <= |x.ids| + 1
    ensures !Clash(Extend(x, e, next), q)
  {
  }

  // ----- termination -----

  function Power(b: nat, n: nat): nat {
    if n == 0 then 1 else b * Power(b, n - 1)
  }

  /** A queued walk of length d weighs base^(maxHops - d): more than all walks it can be replaced by. */
  function Weight(queue: seq<Trail>, base: nat, hops: nat): nat {
    if queue == [] then 0
    else (if |queue[0].ids| <= hops then Power(base, hops - |queue[0].ids|) else 0) + Weight(queue[1..], base, hops)
  }

  lemma {:induction false} WeightAppend(queue: seq<Trail>, y: Trail, base: nat, hops: nat)
    requires |y.ids| <= hops
    ensures Weight(queue + [y], base, hops) == Weight(queue, base, hops) + Power(base, hops - |y.ids|)
    decreases |queue|
  {
    if queue == [] {
      assert (queue + [y])[1..] == [];
    } else {
      assert (queue + [y])[1..] == queue[1..] + [y];
      WeightAppend(queue[1..], y, base, hops);
    }
  }

  lemma {:induction false} PowerPositive(b: nat, n: nat)
    requires b > 0
    ensures Power(b, n) > 0
  {
    if n > 0 { PowerPositive(b, n - 1); }
  }

  /** `count` walks of equal weight. */
  function Repeat(count: nat, unit: nat): nat {
    if count == 0 then 0 else Repeat(count - 1, unit) + unit
  }

  lemma {:induction false} RepeatMonotone(a: nat, b: nat, unit: nat)
    requires a <= b
    ensures Repeat(a, unit) <= Repeat(b, unit)
    decreases b
  {
    if a < b { RepeatMonotone(a, b - 1, unit); }
  }

  lemma {:induction false} RepeatProduct(count: nat, unit: nat)
    ensures Repeat(count, unit) == count * unit
  {
    if count > 0 { RepeatProduct(count - 1, unit); }
  }

  lemma ReplacementLighter(count: nat, limit: nat, n: nat)
    requires count <= limit && n > 0
    ensures Repeat(count, Power(limit + 1, n - 1)) < Power(limit + 1, n)
  {
    var p := Power(limit + 1, n - 1);
    PowerPositive(limit + 1, n - 1);
    RepeatMonotone(count, limit, p);
    RepeatProduct(limit, p);
    assert Power(limit + 1, n) == limit * p + p;
  }

  /** `queue` is `rest` followed by at most `count` walks one edge longer than `x`. */
  predicate Replaces(x: Trail, rest: seq<Trail>, queue: seq<Trail>, count: nat) {
    && rest <= queue && |queue| <= |rest| + count
    && forall i {:trigger queue[i]} :: |rest| <= i < |queue| ==> |queue[i].ids| == |x.ids| + 1
  }

  lemma {:induction false} ReplacedWeight(x: Trail, rest: seq<Trail>, queue: seq<Trail>, count: nat, base: nat,
                                          hops: nat)
    requires Replaces(x, rest, queue, count) && |x.ids| < hops
    ensures Weight(queue, base, hops) == Weight(rest, base, hops) + Repeat(|queue| - |rest|,
                                                                           Power(base, hops - |x.ids| - 1))
    decreases |queue|
  {
    var n := |queue| - 1;
    if |queue| == |rest| {
      assert queue == rest;
    } else {
      var front := queue[..n];
      assert Replaces(x, rest, front, count);
      ReplacedWeight(x, rest, front, count, base, hops);
      WeightAppend(front, queue[n], base, hops);
      assert queue == front + [queue[n]];
    }
  }

  /** What replaces a popped walk weighs less than that walk. */
  lemma ExpansionLighter(x: Trail, rest: seq<Trail>, queue: seq<Trail>, count: nat, limits: Limits)
    requires |x.ids| < limits.maxHops && count <= limits.perAddress && Replaces(x, rest, queue, count)
    ensures Weight(queue, limits.perAddress + 1, limits.maxHops) < Weight([x] + rest, limits.perAddress + 1,
                                                                          limits.maxHops)
  {
    var base, hops := limits.perAddress + 1, limits.maxHops;
    ReplacedWeight(x, rest, queue, count, base, hops);
    ReplacementLighter(|queue| - |rest|, limits.perAddress, hops - |x.ids|);
    assert ([x] + rest)[1..] == rest;
  }

  // ----- results -----

  /** What every answer satisfies, truncated or not. */
  ghost predicate Sound(s: Search, load: Loader, r: Outcome) {
    && AllConnect(s, load, r.paths)
    && PathsAscending(r.paths)
    && Distinct(r.paths)
    && |r.paths| <= s.limits.paths
    && r.expanded <= s.limits.expanded
    && Loaded(s, load, r.edges)
    && (forall i, k :: 0 <= i < |r.paths| && 0 <= k < |r.paths[i].trail.ids| ==> r.paths[i].trail.ids[k] in r.edges)
    && (r.paths != [] ==> forall id :: id in r.edges ==> exists i :: 0 <= i < |r.paths| && id in r.paths[i].trail.ids)
  }

  /** The result limit leaves the path out anyway: it was met, and no returned path is longer. */
  predicate BeyondResults(s: Search, r: Outcome, t: Trail) {
    0 < |r.paths| == s.limits.paths && r.paths[|r.paths| - 1].hopCount <= |t.ids|
  }

  /** Below the result limit every connecting path is returned; at the limit none that is missing is
      shorter than the last one returned. */
  ghost predicate Exhaustive(s: Search, load: Loader, r: Outcome) {
    forall t :: Connects(s, load, t) ==> Found(r.paths, t) || BeyondResults(s, r, t)
  }

  /** As many different walks could be queued as the queue holds. */
  ghost predicate QueueFilled(s: Search, load: Loader) {
    exists q: seq<Trail> :: |q| >= s.limits.queue && Distinct(q) && AllGrowing(s, load, q)
  }

  /** As many different edges could be discovered as the cap allows. */
  ghost predicate EdgesFilled(s: Search, load: Loader) {
    exists edges: map<EdgeId, Edge> :: |edges| >= s.limits.edges && Loaded(s, load, edges)
  }

  /** The count of expanded addresses is one of addresses that can be reached. */
  ghost predicate ExpandedReachable(s: Search, load: Loader, expanded: nat) {
    exists visited: set<Address> :: |visited| == expanded && AllReachable(s, load, visited)
  }

  ghost predicate AllReachable(s: Search, load: Loader, visited: set<Address>) {
    forall a :: a in visited ==> Reachable(s, load, a)
  }

  /** An answer is marked truncated only when one of the three caps was really met. */
  ghost predicate Capped(s: Search, load: Loader, expanded: nat) {
    expanded >= s.limits.expanded || EdgesFilled(s, load) || QueueFilled(s, load)
  }

  // ----- the search -----

  /** The state of the search between two queue items, at breadth-first depth `d`. */
  ghost predicate SearchInv(s: Search, load: Loader, queue: seq<Trail>, paths: seq<WalletPath>,
                            edges: map<EdgeId, Edge>, d: nat) {
    && AllGrowing(s, load, queue)
    && AllConnect(s, load, paths)
    && Layered(queue, paths, d)
    && Separate(queue, paths)
    && Evidence(s, load, queue, paths, edges)
    && |paths| <= s.limits.paths
  }

  lemma QueueIsFull(s: Search, load: Loader, queue: seq<Trail>, paths: seq<WalletPath>, edges: map<EdgeId, Edge>,
                    d: nat)
    requires SearchInv(s, load, queue, paths, edges, d) && |queue| >= s.limits.queue
    ensures QueueFilled(s, load)
  {
    forall i, j | 0 <= i < j < |queue|
      ensures queue[i] != queue[j]
    {
      assert !Clash(queue[i], queue[j]);
    }
  }

  lemma EdgesAreFull(s: Search, load: Loader, queue: seq<Trail>, paths: seq<WalletPath>, edges: map<EdgeId, Edge>,
                     d: nat)
    requires SearchInv(s, load, queue, paths, edges, d) && |edges| >= s.limits.edges
    ensures EdgesFilled(s, load)
  {
    assert Loaded(s, load, edges);
  }

  lemma FirstReachable(s: Search, load: Loader, queue: seq<Trail>)
    requires AllGrowing(s, load, queue) && queue != []
    ensures |queue[0].addresses| > 0 && Reachable(s, load, Last(queue[0]))
  {
    assert Growing(s, load, queue[0]);
  }

  /** One edge of the popped walk `x`: it is skipped, completes a path or queues a longer walk. */
  lemma EdgeCompletes(s: Search, load: Loader, queue: seq<Trail>, paths: seq<WalletPath>,
                      x: Trail, edges: seq<Edge>, j: nat, queue': seq<Trail>, paths': seq<WalletPath>)
    requires Growing(s, load, x)
    requires CompleteFrom(s, load, queue, paths, x, edges, j) && j < |edges|
    requires var n := Neighbor(s.direction, edges[j], Last(x));
             if n.None? || n.value in x.addresses then queue' == queue && paths' == paths
             else if n.value == s.target then
               queue' == queue && paths' == paths + [WalletPath(|x.ids| + 1, Extend(x, edges[j], n.value))]
             else
               paths' == paths && queue' == if |x.ids| + 1 < s.limits.maxHops
                 then queue + [Extend(x, edges[j], n.value)] else queue
    ensures CompleteFrom(s, load, queue', paths', x, edges, j + 1)
  {
    forall t | Connects(s, load, t)
      ensures Found(paths', t) || Pending(queue', t) || Awaits(s.direction, x, edges, j + 1, t)
    {
      if Found(paths, t) {
        assert Found(paths', t);
      } else if Pending(queue, t) {
        if queue' != queue { PendingGrows(queue, queue'[|queue|], t); }
      } else {
        var m :| j <= m < |edges| && Leads(s.direction, x, edges[m], t);
        if m == j {
          LeadingEdge(s, load, x, edges[j], t);
          var next := t.addresses[|x.ids| + 1];
          if next == s.target {
            assert paths'[|paths|] == WalletPath(|t.ids|, t);
          } else {
            PendingGrows(queue, Extend(x, edges[j], next), t);
          }
        }
      }
    }
  }

  lemma InitialInv(s: Search, load: Loader)
    requires s.source != s.target && s.limits.maxHops >= 1
    ensures SearchInv(s, load, [Trail([s.source], [])], [], map[], 0)
    ensures Complete(s, load, [Trail([s.source], [])], [])
  {
    var x := Trail([s.source], []);
    assert Growing(s, load, x);
    forall t | Connects(s, load, t)
      ensures Pending([x], t)
    {
      assert x.addresses == t.addresses[..1] && x.ids == t.ids[..0];
      assert Before([x][0], t);
    }
  }

  lemma PopInv(s: Search, load: Loader, queue: seq<Trail>, paths: seq<WalletPath>, found: map<EdgeId, Edge>, d: nat)
    requires SearchInv(s, load, queue, paths, found, d) && queue != [] && |paths| < s.limits.paths
    ensures |queue[0].addresses| == |queue[0].ids| + 1
    ensures Growing(s, load, queue[0]) && ExpandInv(s, load, queue[0], 0, queue[1..], paths, found)
  {
    var x, rest := queue[0], queue[1..];
    assert Growing(s, load, queue[0]) && Known(found, queue[0]);
    forall i | 0 <= i < |rest|
      ensures Growing(s, load, rest[i]) && Known(found, rest[i]) && !Clash(x, rest[i])
    {
      assert rest[i] == queue[i + 1];
      assert Growing(s, load, queue[i + 1]) && Known(found, queue[i + 1]) && !Clash(queue[0], queue[i + 1]);
    }
    forall i, j | 0 <= i < j < |rest|
      ensures !Clash(rest[i], rest[j])
    {
      assert !Clash(queue[i + 1], queue[j + 1]);
    }
    forall i, j | 0 <= i < |rest| && 0 <= j < |paths|
      ensures !Clash(rest[i], paths[j].trail)
    {
      assert !Clash(queue[i + 1], paths[j].trail);
    }
    forall j | 0 <= j < |paths|
      ensures !Clash(x, paths[j].trail)
    {
      assert !Clash(queue[0], paths[j].trail);
    }
  }

  lemma InitialAwaits(s: Search, load: Loader, x: Trail, rest: seq<Trail>, paths: seq<WalletPath>)
    requires Growing(s, load, x) && |paths| < s.limits.paths
    ensures Complete(s, load, [x] + rest, paths) ==> CompleteFrom(s, load, rest, paths, x, load(Last(x)), 0)
  {
    if Complete(s, load, [x] + rest, paths) {
      forall t | Connects(s, load, t)
        ensures Found(paths, t) || Pending(rest, t) || Awaits(s.direction, x, load(Last(x)), 0, t)
      {
        if !Found(paths, t) {
          var i :| 0 <= i < |[x] + rest| && Before(([x] + rest)[i], t);
          if i == 0 {
            PrefixAwaits(s, load, x, t);
          } else {
            assert Before(rest[i - 1], t);
          }
        }
      }
    }
  }

  predicate Child(x: Trail, edges: seq<Edge>, j: nat, t: Trail)
    requires j <= |edges|
  {
    exists m :: 0 <= m < j && t.ids == x.ids + [edges[m].id]
  }

  /** Everything queued or found beside the popped walk is a child of it or unrelated to it. */
  predicate Fresh(x: Trail, edges: seq<Edge>, j: nat, queue: seq<Trail>, paths: seq<WalletPath>)
    requires j <= |edges|
  {
    && (forall i {:trigger Clash(x, queue[i])} :: 0 <= i < |queue| ==>
        Child(x, edges, j, queue[i]) || !Clash(x, queue[i]))
    && (forall i {:trigger Clash(x, paths[i].trail)} :: 0 <= i < |paths| ==>
        Child(x, edges, j, paths[i].trail) || !Clash(x, paths[i].trail))
  }

  lemma NewcomerClash(x: Trail, edges: seq<Edge>, j: nat, next: Address, q: Trail)
    requires j < |edges| && (forall a, b :: 0 <= a < b < |edges| ==> edges[a].id != edges[b].id)
    requires |x.addresses| == |x.ids| + 1 && |q.addresses| == |q.ids| + 1 && |q.ids| <= |x.ids| + 1
    requires Child(x, edges, j, q) || !Clash(x, q)
    ensures !Clash(Extend(x, edges[j], next), q)
  {
    if Child(x, edges, j, q) {
      var m :| 0 <= m < j && q.ids == x.ids + [edges[m].id];
      assert q.ids[|x.ids|] == edges[m].id && Extend(x, edges[j], next).ids[|x.ids|] == edges[j].id;
    } else {
      ExtensionSeparate(x, edges[j], next, q);
    }
  }

  lemma NewcomerSeparate(s: Search, load: Loader, x: Trail, edges: seq<Edge>, j: nat, next: Address,
                         queue: seq<Trail>, paths: seq<WalletPath>)
    requires j < |edges| && (forall a, b :: 0 <= a < b < |edges| ==> edges[a].id != edges[b].id)
    requires AllGrowing(s, load, queue) && AllConnect(s, load, paths) && Layered(queue, paths, |x.ids|)
    requires |x.addresses| == |x.ids| + 1
    requires Fresh(x, edges, j, queue, paths)
    ensures forall i :: 0 <= i < |queue| ==> !Clash(Extend(x, edges[j], next), queue[i])
    ensures forall i :: 0 <= i < |paths| ==> !Clash(Extend(x, edges[j], next), paths[i].trail)
  {
    forall i | 0 <= i < |queue|
      ensures !Clash(Extend(x, edges[j], next), queue[i])
    {
      assert Growing(s, load, queue[i]);
      assert Child(x, edges, j, queue[i]) || !Clash(x, queue[i]);
      NewcomerClash(x, edges, j, next, queue[i]);
    }
    forall i | 0 <= i < |paths|
      ensures !Clash(Extend(x, edges[j], next), paths[i].trail)
    {
      assert Connects(s, load, paths[i].trail);
      assert Child(x, edges, j, paths[i].trail) || !Clash(x, paths[i].trail);
      NewcomerClash(x, edges, j, next, paths[i].trail);
    }
  }

  lemma FreshGrows(x: Trail, edges: seq<Edge>, j: nat, next: Address, queue: seq<Trail>, paths: seq<WalletPath>)
    requires j < |edges| && Fresh(x, edges, j, queue, paths)
    ensures Child(x, edges, j + 1, Extend(x, edges[j], next))
    ensures Fresh(x, edges, j + 1, queue, paths)
  {
    assert Extend(x, edges[j], next).ids == x.ids + [edges[j].id];
    forall t | Child(x, edges, j, t)
      ensures Child(x, edges, j + 1, t)
    {
    }
  }

  lemma PushQueueInv(s: Search, load: Loader, queue: seq<Trail>, paths: seq<WalletPath>,
                     found: map<EdgeId, Edge>, d: nat, y: Trail)
    requires SearchInv(s, load, queue, paths, found, d)
    requires Growing(s, load, y) && |y.ids| == d + 1 && Known(found, y)
    requires forall i :: 0 <= i < |queue| ==> !Clash(y, queue[i])
    requires forall i :: 0 <= i < |paths| ==> !Clash(y, paths[i].trail)
    ensures SearchInv(s, load, queue + [y], paths, found, d)
  {
    var more := queue + [y];
    forall i | 0 <= i < |more|
      ensures Growing(s, load, more[i]) && Known(found, more[i])
    {
      if i < |queue| {
        assert more[i] == queue[i] && Growing(s, load, queue[i]) && Known(found, queue[i]);
      }
    }
    forall i, j | 0 <= i < j < |more|
      ensures !Clash(more[i], more[j])
    {
      if j < |queue| {
        assert !Clash(queue[i], queue[j]);
      } else {
        assert !Clash(y, queue[i]);
      }
    }
    forall i, j | 0 <= i < |more| && 0 <= j < |paths|
      ensures !Clash(more[i], paths[j].trail)
    {
      if i < |queue| {
        assert !Clash(queue[i], paths[j].trail);
      }
    }
  }

  lemma PushPathInv(s: Search, load: Loader, queue: seq<Trail>, paths: seq<WalletPath>,
                    found: map<EdgeId, Edge>, d: nat, y: Trail)
    requires SearchInv(s, load, queue, paths, found, d) && |paths| < s.limits.paths
    requires Connects(s, load, y) && |y.ids| == d + 1 && Known(found, y)
    requires forall i :: 0 <= i < |queue| ==> !Clash(y, queue[i])
    requires forall i :: 0 <= i < |paths| ==> !Clash(y, paths[i].trail)
    ensures SearchInv(s, load, queue, paths + [WalletPath(d + 1, y)], found, d)
  {
    var more := paths + [WalletPath(d + 1, y)];
    forall i | 0 <= i < |more|
      ensures more[i].hopCount == |more[i].trail.ids| && Connects(s, load, more[i].trail) && Known(found, more[i].trail)
    {
      if i < |paths| {
        assert more[i] == paths[i] && Connects(s, load, paths[i].trail) && Known(found, paths[i].trail);
      }
    }
    forall i, j | 0 <= i < |queue| && 0 <= j < |more|
      ensures !Clash(queue[i], more[j].trail)
    {
      if j < |paths| {
        assert more[j] == paths[j] && !Clash(queue[i], paths[j].trail);
      } else {
        assert !Clash(y, queue[i]);
      }
    }
    forall i | 0 <= i < |paths|
      ensures paths[i] != WalletPath(d + 1, y)
    {
      assert !Clash(y, paths[i].trail);
    }
  }

  lemma DiscoverInv(s: Search, load: Loader, queue: seq<Trail>, paths: seq<WalletPath>,
                    found: map<EdgeId, Edge>, d: nat, e: Edge, a: Address)
    requires SearchInv(s, load, queue, paths, found, d) && Reachable(s, load, a) && e in load(a)
    ensures SearchInv(s, load, queue, paths, if e.id in found then found else found[e.id := e], d)
  {
    var more := if e.id in found then found else found[e.id := e];
    forall t | Known(found, t)
      ensures Known(more, t)
    {
    }
    forall i | 0 <= i < |queue|
      ensures Known(more, queue[i])
    {
      assert Known(found, queue[i]);
    }
    forall i | 0 <= i < |paths|
      ensures Known(more, paths[i].trail)
    {
      assert Known(found, paths[i].trail);
    }
  }

  /** Nothing of the popped walk is left to do, or the result limit was reached at its length. */
  lemma ExpandDone(s: Search, load: Loader, x: Trail, j: nat,
                   queue: seq<Trail>, paths: seq<WalletPath>, found: map<EdgeId, Edge>)
    requires Growing(s, load, x)
    requires ExpandInv(s, load, x, j, queue, paths, found)
    requires CompleteFrom(s, load, queue, paths, x, load(Last(x)), j)
    requires j >= |load(Last(x))| || |paths| >= s.limits.paths
    ensures Complete(s, load, queue, paths)
  {
    forall t | Connects(s, load, t) && !Found(paths, t) && !Pending(queue, t)
      ensures 0 < |paths| && |paths| >= s.limits.paths && paths[|paths| - 1].hopCount <= |t.ids|
    {
      assert Awaits(s.direction, x, load(Last(x)), j, t);
    }
  }

  /** The state while the edges of the popped walk `x` are taken one by one. */
  ghost predicate ExpandInv(s: Search, load: Loader, x: Trail, j: nat,
                            queue: seq<Trail>, paths: seq<WalletPath>, found: map<EdgeId, Edge>)
    requires |x.addresses| > 0
  {
    && Known(found, x)
    && j <= |load(Last(x))|
    && SearchInv(s, load, queue, paths, found, |x.ids|)
    && Fresh(x, load(Last(x)), j, queue, paths)
    && (|paths| >= s.limits.paths ==> 0 < |paths| && paths[|paths| - 1].hopCount == |x.ids| + 1)
  }

  function Noted(found: map<EdgeId, Edge>, e: Edge): map<EdgeId, Edge> {
    if e.id in found then found else found[e.id := e]
  }

  /** The edge at `j` leads from the walk `x` to `next`, which the walk does not contain yet. */
  predicate Opens(s: Search, load: Loader, x: Trail, j: nat, next: Address) {
    && |x.addresses| > 0
    && j < |load(Last(x))|
    && Neighbor(s.direction, load(Last(x))[j], Last(x)) == Some(next)
    && next !in x.addresses
  }

  lemma NewcomerInv(s: Search, load: Loader, x: Trail, j: nat, next: Address,
                    queue: seq<Trail>, paths: seq<WalletPath>, found: map<EdgeId, Edge>)
    requires Growing(s, load, x)
    requires ExpandInv(s, load, x, j, queue, paths, found)
    requires Opens(s, load, x, j, next) && ValidLoader(load, s.limits.perAddress)
    ensures var e := load(Last(x))[j];
            var y := Extend(x, e, next);
            && Walk(s, load, y) && Known(Noted(found, e), y) && Known(Noted(found, e), x)
            && SearchInv(s, load, queue, paths, Noted(found, e), |x.ids|)
            && (forall i :: 0 <= i < |queue| ==> !Clash(y, queue[i]))
            && (forall i :: 0 <= i < |paths| ==> !Clash(y, paths[i].trail))
  {
    var e := load(Last(x))[j];
    WalkExtends(s, load, x, e, next);
    NewcomerSeparate(s, load, x, load(Last(x)), j, next, queue, paths);
    DiscoverInv(s, load, queue, paths, found, |x.ids|, e, Last(x));
  }

  lemma TakePath(s: Search, load: Loader, x: Trail, j: nat,
                 queue: seq<Trail>, paths: seq<WalletPath>, found: map<EdgeId, Edge>)
    requires Growing(s, load, x)
    requires ExpandInv(s, load, x, j, queue, paths, found) && |paths| < s.limits.paths
    requires Opens(s, load, x, j, s.target) && ValidLoader(load, s.limits.perAddress)
    ensures var e := load(Last(x))[j];
            ExpandInv(s, load, x, j + 1, queue, paths + [WalletPath(|x.ids| + 1, Extend(x, e, s.target))],
                      Noted(found, e))
  {
    var edges := load(Last(x));
    var y := Extend(x, edges[j], s.target);
    NewcomerInv(s, load, x, j, s.target, queue, paths, found);
    PushPathInv(s, load, queue, paths, Noted(found, edges[j]), |x.ids|, y);
    FreshGrows(x, edges, j, s.target, queue, paths);
    var more := paths + [WalletPath(|x.ids| + 1, y)];
    forall i | 0 <= i < |more|
      ensures Child(x, edges, j + 1, more[i].trail) || !Clash(x, more[i].trail)
    {
      if i < |paths| {
        assert more[i] == paths[i];
        assert Child(x, edges, j + 1, paths[i].trail) || !Clash(x, paths[i].trail);
      }
    }
  }

  lemma TakeQueue(s: Search, load: Loader, x: Trail, j: nat, next: Address,
                  queue: seq<Trail>, paths: seq<WalletPath>, found: map<EdgeId, Edge>)
    requires Growing(s, load, x)
    requires ExpandInv(s, load, x, j, queue, paths, found)
    requires Opens(s, load, x, j, next) && next != s.target && |x.ids| + 1 < s.limits.maxHops
    requires ValidLoader(load, s.limits.perAddress)
    ensures var e := load(Last(x))[j];
            ExpandInv(s, load, x, j + 1, queue + [Extend(x, e, next)], paths, Noted(found, e))
  {
    var edges := load(Last(x));
    var y := Extend(x, edges[j], next);
    NewcomerInv(s, load, x, j, next, queue, paths, found);
    assert Growing(s, load, y);
    PushQueueInv(s, load, queue, paths, Noted(found, edges[j]), |x.ids|, y);
    FreshGrows(x, edges, j, next, queue, paths);
    var more := queue + [y];
    forall i | 0 <= i < |more|
      ensures Child(x, edges, j + 1, more[i]) || !Clash(x, more[i])
    {
      if i < |queue| {
        assert more[i] == queue[i];
        assert Child(x, edges, j + 1, queue[i]) || !Clash(x, queue[i]);
      }
    }
  }

  /** An edge that is passed over may still be noted as discovered. */
  lemma TakeNothing(s: Search, load: Loader, x: Trail, j: nat,
                    queue: seq<Trail>, paths: seq<WalletPath>, found: map<EdgeId, Edge>)
    requires Growing(s, load, x)
    requires ExpandInv(s, load, x, j, queue, paths, found) && j < |load(Last(x))|
    ensures ExpandInv(s, load, x, j + 1, queue, paths, found)
    ensures ExpandInv(s, load, x, j + 1, queue, paths, Noted(found, load(Last(x))[j]))
  {
    var e := load(Last(x))[j];
    FreshGrows(x, load(Last(x)), j, s.target, queue, paths);
    DiscoverInv(s, load, queue, paths, found, |x.ids|, e, Last(x));
  }

  /** One edge of the popped walk: at most one longer walk is queued. */
  method TakeEdge(s: Search, load: Loader, x: Trail, j: nat, queue0: seq<Trail>, paths0: seq<WalletPath>,
                  found0: map<EdgeId, Edge>)
    returns (queue: seq<Trail>, paths: seq<WalletPath>, found: map<EdgeId, Edge>, truncated: bool)
    requires Growing(s, load, x)
    requires ExpandInv(s, load, x, j, queue0, paths0, found0)
    requires j < |load(Last(x))| && |paths0| < s.limits.paths && ValidLoader(load, s.limits.perAddress)
    ensures ExpandInv(s, load, x, j + 1, queue, paths, found)
    ensures !truncated && CompleteFrom(s, load, queue0, paths0, x, load(Last(x)), j) ==>
              CompleteFrom(s, load, queue, paths, x, load(Last(x)), j + 1)
    ensures truncated ==> |queue| >= s.limits.queue
    ensures queue0 <= queue && |queue| <= Max(|queue0|, Min(|queue0| + 1, s.limits.queue))
    ensures |queue| > |queue0| ==> |queue[|queue0|].ids| == |x.ids| + 1
  {
    queue, paths, found, truncated := queue0, paths0, found0, false;
    var e := load(Last(x))[j];
    var n := Neighbor(s.direction, e, Last(x));
    TakeNothing(s, load, x, j, queue, paths, found);
    if n.Some? && n.value !in x.addresses {
      var y := Extend(x, e, n.value);
      if e.id !in found {
        found := found[e.id := e];
      }
      if n.value == s.target {
        TakePath(s, load, x, j, queue0, paths0, found0);
        paths := paths + [WalletPath(|y.ids|, y)];
      } else if |y.ids| < s.limits.maxHops {
        if |queue| >= s.limits.queue {
          truncated := true;
          return;
        }
        TakeQueue(s, load, x, j, n.value, queue0, paths0, found0);
        queue := queue + [y];
      }
    }
    if CompleteFrom(s, load, queue0, paths0, x, load(Last(x)), j) {
      EdgeCompletes(s, load, queue0, paths0, x, load(Last(x)), j, queue, paths);
    }
  }

  /** The edges of the popped walk `x` in turn, until the queue or the result limit stops them; the first
      `taken` edges were dealt with, each queued at most one longer walk. */
  method TakeEdges(s: Search, load: Loader, x: Trail, rest: seq<Trail>, paths0: seq<WalletPath>,
                   found0: map<EdgeId, Edge>)
    returns (queue: seq<Trail>, paths: seq<WalletPath>, found: map<EdgeId, Edge>, truncated: bool, taken: nat)
    requires ValidLoader(load, s.limits.perAddress)
    requires Growing(s, load, x)
    requires ExpandInv(s, load, x, 0, rest, paths0, found0)
    requires |paths0| < s.limits.paths
    ensures ExpandInv(s, load, x, taken, queue, paths, found)
    ensures truncated || taken == |load(Last(x))| || |paths| >= s.limits.paths
    ensures truncated ==> |queue| >= s.limits.queue
    ensures Replaces(x, rest, queue, taken)
    ensures !truncated && CompleteFrom(s, load, rest, paths0, x, load(Last(x)), 0) ==>
              CompleteFrom(s, load, queue, paths, x, load(Last(x)), taken)
  {
    queue, paths, found, truncated, taken := rest, paths0, found0, false, 0;
    ghost var whole := CompleteFrom(s, load, rest, paths0, x, load(Last(x)), 0);
    var count := |load(Last(x))|;
    while taken < count && !truncated && |paths| < s.limits.paths
      invariant taken <= count
      invariant ExpandInv(s, load, x, taken, queue, paths, found)
      invariant Replaces(x, rest, queue, taken)
      invariant !truncated && whole ==> CompleteFrom(s, load, queue, paths, x, load(Last(x)), taken)
      invariant truncated ==> |queue| >= s.limits.queue
    {
      queue, paths, found, truncated := TakeEdge(s, load, x, taken, queue, paths, found);
      taken := taken + 1;
    }
  }

  /** Replace the popped walk `x` by the walks its edges lead to. */
  method Expand(s: Search, load: Loader, x: Trail, rest: seq<Trail>, paths0: seq<WalletPath>, found0: map<EdgeId, Edge>)
    returns (queue: seq<Trail>, paths: seq<WalletPath>, found: map<EdgeId, Edge>, truncated: bool)
    requires ValidLoader(load, s.limits.perAddress)
    requires Growing(s, load, x)
    requires ExpandInv(s, load, x, 0, rest, paths0, found0)
    requires |paths0| < s.limits.paths
    ensures SearchInv(s, load, queue, paths, found, |x.ids|)
    ensures Weight(queue, s.limits.perAddress + 1, s.limits.maxHops)
            < Weight([x] + rest, s.limits.perAddress + 1, s.limits.maxHops)
    ensures !truncated && Complete(s, load, [x] + rest, paths0) ==> Complete(s, load, queue, paths)
    ensures truncated ==> |queue| >= s.limits.queue
  {
    InitialAwaits(s, load, x, rest, paths0);
    var taken;
    queue, paths, found, truncated, taken := TakeEdges(s, load, x, rest, paths0, found0);
    if !truncated && CompleteFrom(s, load, queue, paths, x, load(Last(x)), taken) {
      ExpandDone(s, load, x, taken, queue, paths, found);
    }
    ExpansionLighter(x, rest, queue, taken, s.limits);
  }

  /** One turn of the search: give up at the expansion caps or expand the first queued walk. */
  method Turn(s: Search, load: Loader, queue0: seq<Trail>, paths0: seq<WalletPath>, found0: map<EdgeId, Edge>,
              ghost d: nat)
    returns (queue: seq<Trail>, paths: seq<WalletPath>, found: map<EdgeId, Edge>, truncated: bool)
    requires ValidLoader(load, s.limits.perAddress)
    requires SearchInv(s, load, queue0, paths0, found0, d) && queue0 != [] && |paths0| < s.limits.paths
    ensures SearchInv(s, load, queue, paths, found, |queue0[0].ids|)
    ensures !truncated && Complete(s, load, queue0, paths0) ==> Complete(s, load, queue, paths)
    ensures truncated ==> QueueFilled(s, load)
    ensures Weight(queue, s.limits.perAddress + 1, s.limits.maxHops) < Weight(queue0, s.limits.perAddress + 1,
                                                                              s.limits.maxHops)
  {
    var x, rest := queue0[0], queue0[1..];
    assert queue0 == [x] + rest;
    PopInv(s, load, queue0, paths0, found0, d);
    queue, paths, found, truncated := Expand(s, load, x, rest, paths0, found0);
    if truncated {
      QueueIsFull(s, load, queue, paths, found, |x.ids|);
    }
  }

  function SelectedIds(paths: seq<WalletPath>): set<EdgeId> {
    set i, k | 0 <= i < |paths| && 0 <= k < |paths[i].trail.ids| :: paths[i].trail.ids[k]
  }

  /** The discovered edges that some returned path uses, or all of them when there is no path. */
  function SelectedEdges(paths: seq<WalletPath>, found: map<EdgeId, Edge>): map<EdgeId, Edge> {
    map id | id in found && (SelectedIds(paths) == {} || id in SelectedIds(paths)) :: found[id]
  }

  lemma AnswerSound(s: Search, load: Loader, queue: seq<Trail>, paths: seq<WalletPath>, found: map<EdgeId, Edge>,
                    d: nat, expanded: nat, truncated: bool)
    requires SearchInv(s, load, queue, paths, found, d) && expanded <= s.limits.expanded
    ensures Sound(s, load, Outcome(paths, SelectedEdges(paths, found), expanded, truncated))
  {
    forall i, k | 0 <= i < |paths| && 0 <= k < |paths[i].trail.ids|
      ensures paths[i].trail.ids[k] in SelectedEdges(paths, found)
    {
      assert Known(found, paths[i].trail);
      assert paths[i].trail.ids[k] in SelectedIds(paths);
    }
    if paths != [] {
      assert Connects(s, load, paths[0].trail);
      assert paths[0].trail.ids[0] in SelectedIds(paths);
    }
  }

  lemma CompleteExhaustive(s: Search, load: Loader, queue: seq<Trail>, paths: seq<WalletPath>, found: map<EdgeId, Edge>,
                           d: nat, r: Outcome)
    requires SearchInv(s, load, queue, paths, found, d) && Complete(s, load, queue, paths)
    requires r.paths == paths && s.limits.paths >= 1
    requires queue == [] || |paths| >= s.limits.paths
    ensures Exhaustive(s, load, r)
  {
    forall t | Connects(s, load, t) && !Found(paths, t)
      ensures 0 < |paths| == s.limits.paths && paths[|paths| - 1].hopCount <= |t.ids|
    {
      if Pending(queue, t) {
        var i :| 0 <= i < |queue| && Before(queue[i], t);
        assert d <= |queue[i].ids| < |t.ids|;
      }
    }
  }

  /** The search of one request, after its limits are clamped. */
  method SearchPaths(s: Search, load: Loader) returns (r: Outcome)
    requires s.source != s.target
    requires s.limits.maxHops >= 1 && s.limits.paths >= 1
    requires ValidLoader(load, s.limits.perAddress)
    ensures Sound(s, load, r)
    ensures !r.truncated ==> Exhaustive(s, load, r)
    ensures ExpandedReachable(s, load, r.expanded)
    ensures r.truncated ==> Capped(s, load, r.expanded)
  {
    var queue := [Trail([s.source], [])];
    var paths: seq<WalletPath> := [];
    var found: map<EdgeId, Edge> := map[];
    var expanded: set<Address> := {};
    var truncated := false;
    ghost var d: nat := 0;
    InitialInv(s, load);
    while queue != []
      invariant SearchInv(s, load, queue, paths, found, d)
      invariant |expanded| <= s.limits.expanded
      invariant !truncated ==> Complete(s, load, queue, paths)
      invariant AllReachable(s, load, expanded)
      invariant truncated ==> Capped(s, load, |expanded|)
      decreases Weight(queue, s.limits.perAddress + 1, s.limits.maxHops)
    {
      if |paths| >= s.limits.paths {
        break;
      }
      if |expanded| >= s.limits.expanded || |found| >= s.limits.edges {
        if |found| >= s.limits.edges {
          EdgesAreFull(s, load, queue, paths, found, d);
        }
        truncated := true;
        break;
      }
      var stopped;
      ghost var depth := |queue[0].ids|;
      PopInv(s, load, queue, paths, found, d);
      FirstReachable(s, load, queue);
      expanded := expanded + {Last(queue[0])};
      queue, paths, found, stopped := Turn(s, load, queue, paths, found, d);
      d := depth;
      truncated := truncated || stopped;
    }
    AnswerSound(s, load, queue, paths, found, d, |expanded|, truncated);
    r := Outcome(paths, SelectedEdges(paths, found), |expanded|, truncated);
    if !truncated {
      CompleteExhaustive(s, load, queue, paths, found, d, r);
    }
  }

  // ----- the limit of the query -----

  /** The first stored edges of each address, in the order of the query. The rest is cut off without a flag. */
  function Cut(stored: Loader, perAddress: nat): Loader {
    (a: Address) => stored(a)[..Min(|stored(a)|, perAddress)]
  }

  ghost predicate UniqueIds(stored: Loader) {
    forall a, i, j :: 0 <= i < j < |stored(a)| ==> stored(a)[i].id != stored(a)[j].id
  }

  /** A path over stored edges with a hop for which every edge is beyond the limit of its address. */
  ghost predicate Hidden(s: Search, stored: Loader, t: Trail) {
    && Connects(s, stored, t)
    && (exists k :: 0 <= k < |t.ids|
          && !Joined(Cut(stored, s.limits.perAddress), s.direction, t.addresses[k], t.ids[k], t.addresses[k + 1]))
  }

  /** An answer that is exhaustive over the loaded edges is so over all stored ones exactly when no path that belongs
      in it uses an edge beyond the limit of the query. */
  lemma ExhaustiveIff(s: Search, stored: Loader, r: Outcome)
    requires Exhaustive(s, Cut(stored, s.limits.perAddress), r)
    requires AllConnect(s, Cut(stored, s.limits.perAddress), r.paths)
    ensures Exhaustive(s, stored, r) <==> forall t :: Hidden(s, stored, t) ==> BeyondResults(s, r, t)
  {
    var load := Cut(stored, s.limits.perAddress);
    forall t | Hidden(s, stored, t)
      ensures Connects(s, stored, t) && !Found(r.paths, t)
    {
      FoundConnects(s, load, r.paths, t);
    }
    forall t | Connects(s, stored, t) && !Hidden(s, stored, t)
      ensures Found(r.paths, t) || BeyondResults(s, r, t)
    {
      assert Connects(s, load, t);
    }
  }

  lemma FoundConnects(s: Search, load: Loader, paths: seq<WalletPath>, t: Trail)
    requires AllConnect(s, load, paths)
    ensures Found(paths, t) ==> Connects(s, load, t)
  {
    if Found(paths, t) {
      var i :| 0 <= i < |paths| && paths[i] == WalletPath(|t.ids|, t);
      assert Connects(s, load, paths[i].trail);
    }
  }

  lemma CutValid(stored: Loader, perAddress: nat)
    requires UniqueIds(stored)
    ensures ValidLoader(Cut(stored, perAddress), perAddress)
  {
    forall a
      ensures |Cut(stored, perAddress)(a)| <= perAddress
      ensures forall i, j :: 0 <= i < j < |Cut(stored, perAddress)(a)| ==>
                Cut(stored, perAddress)(a)[i].id != Cut(stored, perAddress)(a)[j].id
    {
      assert Cut(stored, perAddress)(a) == stored(a)[..Min(|stored(a)|, perAddress)];
    }
  }

  /** A request for paths over the stored edges, of which each query returns the first ones. Equal endpoints are
      refused. */
  method FindPaths(source: Address, target: Address, hops: Option<nat>, paths: Option<nat>, perAddress: Option<nat>,
                   direction: Direction, maxEdges: nat, stored: Loader) returns (r: Result<Outcome, ()>)
    requires UniqueIds(stored)
    ensures source == target <==> r.Err?
    ensures r.Ok? ==>
              var s := Search(source, target, direction, LimitsOf(hops, paths, perAddress, maxEdges));
              var load := Cut(stored, s.limits.perAddress);
              && Sound(s, load, r.value) && ExpandedReachable(s, load, r.value.expanded)
              && (r.value.truncated ==> Capped(s, load, r.value.expanded))
              && (!r.value.truncated ==>
                    && Exhaustive(s, load, r.value)
                    && (Exhaustive(s, stored, r.value)
                        <==> forall t :: Hidden(s, stored, t) ==> BeyondResults(s, r.value, t)))
  {
    if source == target {
      return Err(());
    }
    var s := Search(source, target, direction, LimitsOf(hops, paths, perAddress, maxEdges));
    CutValid(stored, s.limits.perAddress);
    var outcome := SearchPaths(s, Cut(stored, s.limits.perAddress));
    if !outcome.truncated {
      ExhaustiveIff(s, stored, outcome);
    }
    return Ok(outcome);
  }
}
