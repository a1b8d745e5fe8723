/** Export and cleanup as match, lock, recheck, write and commit steps of many
  * transactions that interleave freely (analytical_node/src/store.rs), and what the
  * locks are worth: every run has the effect of its operations one after the other. */
module SnapshotRace {
  import opened Common
  import opened SnapshotStore

  /** What became of an operation, in the order in which they took effect. A cleanup removes what is expired among the
    * ids that it locked, of the batch that it had chosen when `at` operations had taken effect. */
  datatype Event =
    | Created(id: nat, owner: nat, created: int, expires: int, payload: nat)
    | Exported(id: nat, owner: nat, now: int, answer: Option<Node>)
    | Cleaned(ids: set<nat>, now: int, at: nat, batch: set<nat>)

  function Do(nodes: Nodes, e: Event): Nodes {
    match e
    case Created(id, owner, created, expires, payload) =>
      if id in nodes then nodes else nodes[id := NewNode(owner, created, expires, payload)]
    case Exported(id, owner, now, _) => ExportAt(nodes, id, owner, now).0
    case Cleaned(ids, now, _, _) => RemoveExpired(nodes, ids, now)
  }

  /** The operations one after the other, each at once. */
  function Replay(h: seq<Event>): Nodes {
    if h == [] then map[] else Do(Replay(h[..|h| - 1]), h[|h| - 1])
  }

  /** The answer is the one the operation gives when it runs alone at that point. */
  predicate AnswerFits(nodes: Nodes, e: Event) {
    e.Exported? ==> e.answer == ExportAt(nodes, e.id, e.owner, e.now).1
  }

  ghost predicate AnswersFit(h: seq<Event>) {
    forall k {:trigger h[k]} :: 0 <= k < |h| ==> AnswerFits(Replay(h[..k]), h[k])
  }

  /** The batch is one that a cleanup chooses when the first `at` operations have taken effect. */
  ghost predicate ChosenAt(h: seq<Event>, at: nat, now: int, batch: set<nat>) {
    at <= |h| && Chosen(Replay(h[..at]), now, batch)
  }

  ghost predicate GoneSince(h: seq<Event>, at: nat, i: nat) {
    exists m :: at <= m <= |h| && i !in Replay(h[..m])
  }

  /** The locked ids belong to the chosen batch, and the others of the batch had gone before they could be locked. */
  ghost predicate BatchRight(h: seq<Event>, ids: set<nat>, now: int, at: nat, batch: set<nat>) {
    && ChosenAt(h, at, now, batch) && ids <= batch
    && forall i :: i in batch - ids ==> GoneSince(h, at, i)
  }

  ghost predicate BatchesRight(h: seq<Event>) {
    forall k {:trigger h[k]} :: 0 <= k < |h| && h[k].Cleaned? ==>
      BatchRight(h[..k], h[k].ids, h[k].now, h[k].at, h[k].batch)
  }

  // ----- transactions -----

  /** How far a transaction got. Drafts are not visible to the others. */
  datatype Tx =
    | ExportMatching(id: nat, owner: nat, now: int)
    | ExportLocking(id: nat, owner: nat, now: int)
    | ExportHolding(id: nat, owner: nat, now: int, draft: Node)
    | ExportWritten(id: nat, owner: nat, now: int, draft: Node, answer: Option<Node>)
    | CleanupMatching(now: int)
    | CleanupRunning(now: int, at: nat, batch: set<nat>, todo: set<nat>, held: set<nat>, checked: set<nat>,
                     doomed: set<nat>)

  datatype State = State(nodes: Nodes, locks: map<nat, nat>, txs: map<nat, Tx>, history: seq<Event>)

  const EMPTY: State := State(map[], map[], map[], [])

  datatype Action =
    | Create(id: nat, owner: nat, created: int, expires: int, payload: nat)
    | Begin(t: nat, tx: Tx)
    | Match(t: nat, ids: set<nat>)
    | Lock(t: nat, i: nat)
    | Recheck(t: nat, j: nat)
    | Commit(t: nat)
    | Abort(t: nat)

  function Set(s: State, t: nat, tx: Tx): State {
    s.(txs := s.txs[t := tx])
  }

  /** The transaction ends and gives its locks back. */
  function Release(s: State, t: nat): State {
    s.(txs := map k | k in s.txs && k != t :: s.txs[k],
       locks := map i | i in s.locks && s.locks[i] != t :: s.locks[i])
  }

  /** The transaction ends with this effect. */
  function Finish(s: State, t: nat, nodes: Nodes, e: Event): State {
    Release(s, t).(nodes := nodes, history := s.history + [e])
  }

  predicate Free(s: State, t: nat, i: nat) {
    i in s.locks ==> s.locks[i] == t
  }

  /** One step of one transaction. An action that is not possible changes nothing. */
  ghost function Apply(s: State, a: Action): State {
    match a
    case Create(id, owner, created, expires, payload) =>
      if id in s.nodes then s
      else s.(nodes := s.nodes[id := NewNode(owner, created, expires, payload)],
              history := s.history + [Created(id, owner, created, expires, payload)])
    case Begin(t, tx) =>
      if t !in s.txs && (tx.ExportMatching? || tx.CleanupMatching?) then Set(s, t, tx) else s
    case Match(t, ids) => if t in s.txs then MatchStep(s, t, s.txs[t], ids) else s
    case Lock(t, i) => if t in s.txs && Free(s, t, i) then LockStep(s, t, s.txs[t], i) else s
    case Recheck(t, j) => if t in s.txs then RecheckStep(s, t, s.txs[t], j) else s
    case Commit(t) => if t in s.txs then CommitStep(s, t, s.txs[t]) else s
    case Abort(t) => if t in s.txs then Release(s, t) else s
  }

  ghost function MatchStep(s: State, t: nat, tx: Tx, ids: set<nat>): State {
    match tx
    case ExportMatching(id, owner, now) =>
      if id in s.nodes && s.nodes[id].owner == owner then Set(s, t, ExportLocking(id, owner, now))
      else Finish(s, t, s.nodes, Exported(id, owner, now, None))
    case CleanupMatching(now) =>
      if Chosen(s.nodes, now, ids) then Set(s, t, CleanupRunning(now, |s.history|, ids, ids, {}, {}, {})) else s
    case _ => s
  }

  /** Taking the lock of a node; it may have gone since it was matched. */
  ghost function LockStep(s: State, t: nat, tx: Tx, i: nat): State {
    match tx
    case ExportLocking(id, owner, now) =>
      if i != id then s
      else if id in s.nodes && s.nodes[id].owner == owner then
        Set(s, t, ExportHolding(id, owner, now, Locked(s.nodes[id]))).(locks := s.locks[id := t])
      else Finish(s, t, s.nodes, Exported(id, owner, now, None))
    case CleanupRunning(now, at, batch, todo, held, checked, doomed) =>
      if i !in todo then s
      else if i in s.nodes then
        Set(s, t, tx.(todo := todo - {i}, held := held + {i})).(locks := s.locks[i := t])
      else Set(s, t, tx.(todo := todo - {i}))
    case _ => s
  }

  ghost function RecheckStep(s: State, t: nat, tx: Tx, j: nat): State {
    match tx
    case ExportHolding(id, owner, now, draft) =>
      if Live(draft, now) then Set(s, t, ExportWritten(id, owner, now, Saved(draft, now), Some(Saved(draft, now))))
      else Set(s, t, ExportWritten(id, owner, now, draft, None))
    case CleanupRunning(now, at, batch, todo, held, checked, doomed) =>
      if j in held && j in s.nodes then
        Set(s, t, tx.(checked := checked + {j}, doomed := if Expired(s.nodes[j], now) then doomed + {j} else doomed))
      else s
    case _ => s
  }

  ghost function CommitStep(s: State, t: nat, tx: Tx): State {
    match tx
    case ExportWritten(id, owner, now, draft, answer) =>
      Finish(s, t, s.nodes[id := draft], Exported(id, owner, now, answer))
    case CleanupRunning(now, at, batch, todo, held, checked, doomed) =>
      if todo == {} && checked == held then
        Finish(s, t, map i | i in s.nodes && i !in doomed :: if i in held then Locked(s.nodes[i]) else s.nodes[i],
               Cleaned(held, now, at, batch))
      else s
    case _ => s
  }

  ghost function Run(s: State, actions: seq<Action>): State
    decreases |actions|
  {
    if actions == [] then s else Run(Apply(s, actions[0]), actions[1..])
  }

  // ----- what every step keeps -----

  predicate Holds(s: State, t: nat, i: nat) {
    i in s.locks && s.locks[i] == t && i in s.nodes
  }

  /** What a transaction relies on about the nodes that it locked. */
  ghost predicate TxInv(s: State, t: nat, tx: Tx) {
    match tx
    case ExportHolding(id, owner, now, draft) =>
      Holds(s, t, id) && s.nodes[id].owner == owner && draft == Locked(s.nodes[id])
    case ExportWritten(id, owner, now, draft, answer) =>
      Holds(s, t, id) && s.nodes[id].owner == owner && (draft, answer) == ExportOf(s.nodes[id], now)
    case CleanupRunning(now, at, batch, todo, held, checked, doomed) =>
      && (forall i :: i in held ==> Holds(s, t, i))
      && checked <= held && BatchRight(s.history, todo + held, now, at, batch)
      && doomed == set i | i in checked && i in s.nodes && Expired(s.nodes[i], now)
    case _ => true
  }

  ghost predicate Inv(s: State) {
    && (forall t {:trigger s.txs[t]} :: t in s.txs ==> TxInv(s, t, s.txs[t]))
    && s.nodes == Replay(s.history)
    && AnswersFit(s.history) && BatchesRight(s.history)
  }

  /** For the nodes that t locked, the two states say the same. */
  predicate SameFor(s: State, u: State, t: nat) {
    forall i :: i in s.locks && s.locks[i] == t && i in s.nodes ==>
      i in u.locks && u.locks[i] == t && i in u.nodes && u.nodes[i] == s.nodes[i]
  }

  lemma TxInvKept(s: State, u: State, t: nat, tx: Tx)
    requires TxInv(s, t, tx) && SameFor(s, u, t) && s.history <= u.history
    ensures TxInv(u, t, tx)
  {
    if tx.CleanupRunning? {
      BatchLater(s.history, u.history, tx.todo + tx.held, tx.now, tx.at, tx.batch);
      assert forall i :: i in tx.checked ==> Holds(s, t, i);
    }
  }

  lemma GoneLater(h: seq<Event>, g: seq<Event>, at: nat, i: nat)
    requires h <= g && GoneSince(h, at, i)
    ensures GoneSince(g, at, i)
  {
    var m :| at <= m <= |h| && i !in Replay(h[..m]);
    assert g[..m] == h[..m];
  }

  lemma BatchLater(h: seq<Event>, g: seq<Event>, ids: set<nat>, now: int, at: nat, batch: set<nat>)
    requires h <= g && BatchRight(h, ids, now, at, batch)
    ensures BatchRight(g, ids, now, at, batch)
  {
    assert g[..at] == h[..at];
    forall i | i in batch - ids
      ensures GoneSince(g, at, i)
    {
      GoneLater(h, g, at, i);
    }
  }

  lemma BatchesGrow(h: seq<Event>, e: Event)
    requires BatchesRight(h) && (e.Cleaned? ==> BatchRight(h, e.ids, e.now, e.at, e.batch))
    ensures BatchesRight(h + [e])
  {
    var g := h + [e];
    assert g[..|h|] == h;
    forall k | 0 <= k < |g| && g[k].Cleaned?
      ensures BatchRight(g[..k], g[k].ids, g[k].now, g[k].at, g[k].batch)
    {
      if k < |h| {
        assert g[..k] == h[..k] && g[k] == h[k];
      }
    }
  }

  lemma AnswersGrow(h: seq<Event>, e: Event)
    requires AnswersFit(h) && AnswerFits(Replay(h), e)
    ensures AnswersFit(h + [e])
  {
    var g := h + [e];
    assert g[..|h|] == h;
    forall k | 0 <= k < |g|
      ensures AnswerFits(Replay(g[..k]), g[k])
    {
      if k < |h| {
        assert g[..k] == h[..k] && g[k] == h[k];
      }
    }
  }

  lemma ReplayPush(h: seq<Event>, e: Event)
    ensures Replay(h + [e]) == Do(Replay(h), e)
  {
    assert (h + [e])[..|h|] == h;
  }

  lemma HistoryGrows(h: seq<Event>, e: Event)
    requires AnswersFit(h) && AnswerFits(Replay(h), e)
    requires BatchesRight(h) && (e.Cleaned? ==> BatchRight(h, e.ids, e.now, e.at, e.batch))
    ensures Replay(h + [e]) == Do(Replay(h), e) && AnswersFit(h + [e]) && BatchesRight(h + [e])
  {
    BatchesGrow(h, e);
    AnswersGrow(h, e);
    ReplayPush(h, e);
  }

  /** A step that ends t with an effect on nodes that nobody else has locked. */
  lemma FinishKeeps(s: State, t: nat, nodes: Nodes, e: Event)
    requires Inv(s) && nodes == Do(s.nodes, e) && AnswerFits(s.nodes, e)
    requires e.Cleaned? ==> BatchRight(s.history, e.ids, e.now, e.at, e.batch)
    requires forall i :: i in s.nodes && i in s.locks && s.locks[i] != t ==> i in nodes && nodes[i] == s.nodes[i]
    ensures Inv(Finish(s, t, nodes, e))
  {
    var u := Finish(s, t, nodes, e);
    HistoryGrows(s.history, e);
    forall k | k in u.txs
      ensures TxInv(u, k, u.txs[k])
    {
      TxInvKept(s, u, k, s.txs[k]);
    }
  }

  /** A step that only moves t on. */
  lemma MoveKeeps(s: State, u: State, t: nat)
    requires Inv(s) && u.nodes == s.nodes && u.history == s.history
    requires u.txs.Keys == s.txs.Keys + {t} && (forall k :: k in s.txs && k != t ==> u.txs[k] == s.txs[k])
    requires forall i :: i in s.locks && s.locks[i] != t ==> i in u.locks && u.locks[i] == s.locks[i]
    requires TxInv(u, t, u.txs[t])
    ensures Inv(u)
  {
    forall k | k in u.txs
      ensures TxInv(u, k, u.txs[k])
    {
      if k != t {
        TxInvKept(s, u, k, s.txs[k]);
      }
    }
  }

  lemma CreateKeeps(s: State, a: Action)
    requires Inv(s) && a.Create?
    ensures Inv(Apply(s, a))
  {
    if a.id !in s.nodes {
      var u := Apply(s, a);
      HistoryGrows(s.history, Created(a.id, a.owner, a.created, a.expires, a.payload));
      forall k | k in u.txs
        ensures TxInv(u, k, u.txs[k])
      {
        TxInvKept(s, u, k, s.txs[k]);
      }
    }
  }

  lemma MatchKeeps(s: State, t: nat, ids: set<nat>)
    requires Inv(s) && t in s.txs
    ensures Inv(MatchStep(s, t, s.txs[t], ids))
  {
    var tx := s.txs[t];
    var u := MatchStep(s, t, tx, ids);
    if tx.ExportMatching? && !(tx.id in s.nodes && s.nodes[tx.id].owner == tx.owner) {
      FinishKeeps(s, t, s.nodes, Exported(tx.id, tx.owner, tx.now, None));
    } else if u != s {
      assert s.history[..|s.history|] == s.history;
      MoveKeeps(s, u, t);
    }
  }

  lemma LockKeeps(s: State, t: nat, i: nat)
    requires Inv(s) && t in s.txs && Free(s, t, i)
    ensures Inv(LockStep(s, t, s.txs[t], i))
  {
    var tx := s.txs[t];
    var u := LockStep(s, t, tx, i);
    assert TxInv(s, t, tx);
    if tx.ExportLocking? && i == tx.id && !(tx.id in s.nodes && s.nodes[tx.id].owner == tx.owner) {
      FinishKeeps(s, t, s.nodes, Exported(tx.id, tx.owner, tx.now, None));
    } else if u != s {
      if tx.CleanupRunning? {
        LockBatch(s, tx, i);
      }
      MoveKeeps(s, u, t);
    }
  }

  /** What is not there to be locked has gone since the batch was chosen. */
  lemma LockBatch(s: State, tx: Tx, i: nat)
    requires tx.CleanupRunning? && i in tx.todo && s.nodes == Replay(s.history)
    requires BatchRight(s.history, tx.todo + tx.held, tx.now, tx.at, tx.batch)
    ensures i !in s.nodes && i !in tx.held ==>
              BatchRight(s.history, tx.todo - {i} + tx.held, tx.now, tx.at, tx.batch)
    ensures i in s.nodes || i in tx.held ==>
              tx.todo - {i} + (tx.held + {i}) == tx.todo + tx.held
    ensures i in tx.held ==> tx.todo - {i} + tx.held == tx.todo + tx.held
  {
    assert s.history[..|s.history|] == s.history;
    if i !in s.nodes && i !in tx.held {
      assert GoneSince(s.history, tx.at, i);
    }
  }

  lemma RecheckKeeps(s: State, t: nat, j: nat)
    requires Inv(s) && t in s.txs
    ensures Inv(RecheckStep(s, t, s.txs[t], j))
  {
    var tx := s.txs[t];
    var u := RecheckStep(s, t, tx, j);
    assert TxInv(s, t, tx);
    if u != s {
      MoveKeeps(s, u, t);
    }
  }

  lemma CommitKeeps(s: State, t: nat)
    requires Inv(s) && t in s.txs
    ensures Inv(CommitStep(s, t, s.txs[t]))
  {
    var tx := s.txs[t];
    assert TxInv(s, t, tx);
    if tx.ExportWritten? {
      FinishKeeps(s, t, s.nodes[tx.id := tx.draft], Exported(tx.id, tx.owner, tx.now, tx.answer));
    } else if tx.CleanupRunning? && tx.todo == {} && tx.checked == tx.held {
      var nodes := map i | i in s.nodes && i !in tx.doomed :: if i in tx.held then Locked(s.nodes[i]) else s.nodes[i];
      assert nodes == RemoveExpired(s.nodes, tx.held, tx.now);
      assert tx.todo + tx.held == tx.held;
      FinishKeeps(s, t, nodes, Cleaned(tx.held, tx.now, tx.at, tx.batch));
    }
  }

  lemma AbortKeeps(s: State, t: nat)
    requires Inv(s)
    ensures Inv(Release(s, t))
  {
    var u := Release(s, t);
    forall k | k in u.txs
      ensures TxInv(u, k, u.txs[k])
    {
      TxInvKept(s, u, k, s.txs[k]);
    }
  }

  lemma ApplyKeeps(s: State, a: Action)
    requires Inv(s)
    ensures Inv(Apply(s, a))
  {
    match a {
      case Create(_, _, _, _, _) => CreateKeeps(s, a);
      case Begin(t, tx) =>
        if Apply(s, a) != s {
          MoveKeeps(s, Apply(s, a), t);
        }
      case Match(t, ids) => if t in s.txs { MatchKeeps(s, t, ids); }
      case Lock(t, i) => if t in s.txs && Free(s, t, i) { LockKeeps(s, t, i); }
      case Recheck(t, j) => if t in s.txs { RecheckKeeps(s, t, j); }
      case Commit(t) => if t in s.txs { CommitKeeps(s, t); }
      case Abort(t) => AbortKeeps(s, t);
    }
  }

  lemma {:induction false} RunKeeps(s: State, actions: seq<Action>)
    requires Inv(s)
    ensures Inv(Run(s, actions))
    decreases |actions|
  {
    if actions != [] {
      ApplyKeeps(s, actions[0]);
      RunKeeps(Apply(s, actions[0]), actions[1..]);
    }
  }

  /** However the steps interleave and whatever is aborted, the store holds what the
    * operations give when they run one after the other in the order in which they
    * finished, and every export was answered as it would have been then. A cleanup
    * takes effect on what it locked; that belongs to a batch that a cleanup had
    * chosen earlier, and what it did not lock of the batch had gone since then. */
  lemma Serializable(actions: seq<Action>)
    ensures var s := Run(EMPTY, actions);
            s.nodes == Replay(s.history) && AnswersFit(s.history) && BatchesRight(s.history)
  {
    RunKeeps(EMPTY, actions);
  }

  // ----- what the order of operations promises -----

  /** An exported snapshot: saved, and never to expire. */
  predicate Kept(nodes: Nodes, id: nat, owner: nat, payload: nat, savedAt: int) {
    && id in nodes && nodes[id].saved && nodes[id].expires.None?
    && nodes[id].owner == owner && nodes[id].payload == payload && nodes[id].savedAt == Some(savedAt)
  }

  lemma DoKeeps(nodes: Nodes, e: Event, id: nat, owner: nat, payload: nat, savedAt: int)
    requires Kept(nodes, id, owner, payload, savedAt)
    ensures Kept(Do(nodes, e), id, owner, payload, savedAt)
  {
  }

  lemma {:induction false} KeptLater(h: seq<Event>, k: nat, m: nat, id: nat, owner: nat, payload: nat, savedAt: int)
    requires k <= m <= |h| && Kept(Replay(h[..k]), id, owner, payload, savedAt)
    ensures Kept(Replay(h[..m]), id, owner, payload, savedAt)
    decreases m
  {
    if k < m {
      KeptLater(h, k, m - 1, id, owner, payload, savedAt);
      assert h[..m][..m - 1] == h[..m - 1];
      DoKeeps(Replay(h[..m - 1]), h[m - 1], id, owner, payload, savedAt);
    }
  }

  lemma ReplayNext(h: seq<Event>, k: nat)
    requires k < |h|
    ensures Replay(h[..k + 1]) == Do(Replay(h[..k]), h[k])
  {
    assert h[..k + 1][..k] == h[..k];
  }

  /** Once an export has succeeded, the snapshot is never removed: in every later
    * state its owner reads it, at any time, with the payload that was answered. */
  lemma ExportIsForever(actions: seq<Action>, k: nat)
    requires k < |Run(EMPTY, actions).history|
    requires Run(EMPTY, actions).history[k].Exported? && Run(EMPTY, actions).history[k].answer.Some?
    ensures var s := Run(EMPTY, actions);
            var e := s.history[k];
            && e.id in s.nodes
            && s.nodes[e.id].saved
            && forall now: int :: var r := ReadAt(s.nodes, e.id, e.owner, now);
                 r.Some? && r.value.payload == e.answer.value.payload && r.value.savedAt == e.answer.value.savedAt
  {
    RunKeeps(EMPTY, actions);
    var s := Run(EMPTY, actions);
    var h, e := s.history, s.history[k];
    ReplayNext(h, k);
    assert AnswerFits(Replay(h[..k]), h[k]);
    var n := e.answer.value;
    assert Kept(Replay(h[..k + 1]), e.id, e.owner, n.payload, n.savedAt.value);
    KeptLater(h, k + 1, |h|, e.id, e.owner, n.payload, n.savedAt.value);
    assert h[..|h|] == h;
  }

  /** Whatever disappears from the store is removed by a cleanup, as a snapshot that
    * was never exported and had expired by the clock of that cleanup. */
  lemma RemovedAfterExpiry(actions: seq<Action>, a: Action, id: nat)
    requires id in Run(EMPTY, actions).nodes && id !in Apply(Run(EMPTY, actions), a).nodes
    ensures var s := Run(EMPTY, actions);
            && a.Commit? && a.t in s.txs && s.txs[a.t].CleanupRunning?
            && Expired(s.nodes[id], s.txs[a.t].now)
            && id in s.locks && s.locks[id] == a.t
  {
    RunKeeps(EMPTY, actions);
    var s := Run(EMPTY, actions);
    if a.Commit? && a.t in s.txs {
      assert TxInv(s, a.t, s.txs[a.t]);
    }
  }

  /** The stored snapshot itself: no step changes its owner, payload or creation. */
  lemma ContentsNeverChange(s: State, a: Action, id: nat)
    requires Inv(s) && id in s.nodes && id in Apply(s, a).nodes
    ensures var n, m := s.nodes[id], Apply(s, a).nodes[id];
            n.owner == m.owner && n.payload == m.payload && n.created == m.created && (n.saved ==> m.saved)
  {
    if a.Commit? && a.t in s.txs {
      assert TxInv(s, a.t, s.txs[a.t]);
    }
  }
}
