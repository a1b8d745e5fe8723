/** Temporary and saved investigation snapshots of analytical_node/src/store.rs:
  * each operation as one transaction that happens at once, and the store object. */
module SnapshotStore {
  import opened Common

  const BATCH: nat := 10

  datatype Node = Node(owner: nat, saved: bool, expires: Option<int>, savedAt: Option<int>, created: int,
                       payload: nat, version: nat)

  type Nodes = map<nat, Node>

  /** Can be read and exported. */
  predicate Live(n: Node, now: int) {
    n.saved || (n.expires.Some? && n.expires.value > now)
  }

  /** May be removed. */
  predicate Expired(n: Node, now: int) {
    !n.saved && n.expires.Some? && n.expires.value <= now
  }

  function Deadline(n: Node): int {
    if n.expires.Some? then n.expires.value else 0
  }

  /** The ids of everything that may be removed. */
  function ExpiredIds(nodes: Nodes, now: int): set<nat> {
    set i | i in nodes && Expired(nodes[i], now)
  }

  /** No later than any of the others. */
  predicate Earliest(nodes: Nodes, id: nat, rest: set<nat>) {
    id in nodes && forall j :: j in rest && j in nodes ==> Deadline(nodes[id]) <= Deadline(nodes[j])
  }

  function NewNode(owner: nat, created: int, expires: int, payload: nat): Node {
    Node(owner, false, Some(expires), None, created, payload, 0)
  }

  function ReadAt(nodes: Nodes, id: nat, owner: nat, now: int): Option<Node> {
    if id in nodes && nodes[id].owner == owner && Live(nodes[id], now) then Some(nodes[id]) else None
  }

  function Locked(n: Node): Node {
    n.(version := n.version + 1)
  }

  /** The node after an export: saved for good, since its first export. */
  function Saved(n: Node, now: int): Node {
    n.(saved := true, expires := None, savedAt := if n.savedAt.Some? then n.savedAt else Some(now))
  }

  /** The locked node rechecked and, if it can still be exported, saved; the answer. */
  function ExportOf(n: Node, now: int): (Node, Option<Node>) {
    var m := Locked(n);
    if Live(m, now) then (Saved(m, now), Some(Saved(m, now))) else (m, None)
  }

  /** The export transaction as one step: the new nodes and the answer. */
  function ExportAt(nodes: Nodes, id: nat, owner: nat, now: int): (Nodes, Option<Node>) {
    if id !in nodes || nodes[id].owner != owner then (nodes, None)
    else
      var (n, answer) := ExportOf(nodes[id], now);
      (nodes[id := n], answer)
  }

  /** What a cleanup transaction chooses: the expired nodes, or ten that expired first. */
  ghost predicate Chosen(nodes: Nodes, now: int, ids: set<nat>) {
    && |ids| <= BATCH && ids <= ExpiredIds(nodes, now)
    && (forall i :: i in ids ==> Earliest(nodes, i, ExpiredIds(nodes, now) - ids))
    && (|ids| < BATCH ==> ids == ExpiredIds(nodes, now))
  }

  /** The rest of the cleanup transaction as one step, for the chosen ids: they are
    * locked, and removed if they are expired then. */
  function RemoveExpired(nodes: Nodes, ids: set<nat>, now: int): Nodes {
    map i | i in nodes && !(i in ids && Expired(nodes[i], now)) :: if i in ids then Locked(nodes[i]) else nodes[i]
  }

  // ----- the object -----

  class Store {
    var nodes: Nodes

    constructor ()
      ensures nodes == map[]
    {
      nodes := map[];
    }

    /** Ids are unique among the stored snapshots. */
    method Create(id: nat, owner: nat, created: int, expires: int, payload: nat) returns (ok: bool)
      modifies this
      ensures ok == (id !in old(nodes))
      ensures nodes == if ok then old(nodes)[id := NewNode(owner, created, expires, payload)] else old(nodes)
    {
      ok := id !in nodes;
      if ok {
        nodes := nodes[id := NewNode(owner, created, expires, payload)];
      }
    }

    method Read(id: nat, owner: nat, now: int) returns (r: Option<Node>)
      ensures r == ReadAt(nodes, id, owner, now)
    {
      if id !in nodes || nodes[id].owner != owner {
        return None;
      }
      r := if Live(nodes[id], now) then Some(nodes[id]) else None;
    }

    method Export(id: nat, owner: nat, now: int) returns (r: Option<Node>)
      modifies this
      ensures (nodes, r) == ExportAt(old(nodes), id, owner, now)
    {
      if id !in nodes || nodes[id].owner != owner {
        return None;
      }
      var n := nodes[id];
      n := n.(version := n.version + 1);
      if Live(n, now) {
        n := n.(saved := true, savedAt := if n.savedAt.Some? then n.savedAt else Some(now));
        n := n.(expires := None);
        r := Some(n);
      } else {
        r := None;
      }
      nodes := nodes[id := n];
    }

    method Cleanup(now: int) returns (ids: set<nat>)
      modifies this
      ensures Chosen(old(nodes), now, ids)
      ensures nodes == RemoveExpired(old(nodes), ids, now)
    {
      ids := PickBatch(nodes, now);
      nodes := map i | i in nodes && i !in ids :: nodes[i];
    }
  }

  method PickBatch(nodes: Nodes, now: int) returns (picked: set<nat>)
    ensures Chosen(nodes, now, picked)
  {
    picked := {};
    var rest := ExpiredIds(nodes, now);
    while |picked| < BATCH && rest != {}
      invariant |picked| <= BATCH && picked !! rest
      invariant picked + rest == ExpiredIds(nodes, now)
      invariant forall i :: i in picked ==> Earliest(nodes, i, rest)
      decreases rest
    {
      EarliestExists(nodes, rest);
      var id :| id in rest && Earliest(nodes, id, rest);
      picked, rest := picked + {id}, rest - {id};
    }
    assert ExpiredIds(nodes, now) - picked == rest;
  }

  lemma {:induction false} EarliestExists(nodes: Nodes, rest: set<nat>)
    requires rest != {} && forall i :: i in rest ==> i in nodes
    ensures exists k :: k in rest && Earliest(nodes, k, rest)
    decreases rest
  {
    var x :| x in rest;
    if rest - {x} == {} {
      assert rest == {x};
      assert Earliest(nodes, x, rest);
    } else {
      EarliestExists(nodes, rest - {x});
      var k :| k in rest - {x} && Earliest(nodes, k, rest - {x});
      var m := if Deadline(nodes[k]) <= Deadline(nodes[x]) then k else x;
      forall j | j in rest && j in nodes
        ensures Deadline(nodes[m]) <= Deadline(nodes[j])
      {
        assert j == x || j in rest - {x};
      }
      assert Earliest(nodes, m, rest);
    }
  }
}
