/**
 The invariant of a saved worker state, and its preservation by every step of AnalyticsState.
 `analysed` is the record of completed analyses and `started` counts the started ones; neither is ever rolled back.
 */
module AnalyticsInvariant {
  import opened Common
  import opened AnalyticsState

  predicate Shaped(s: State, database: string) {
    && s.contract == VERSION && s.network == NETWORK_ID && s.database == database
    && s.definition.Valid()
    && s.definitionHash == DigestOf(s.definition)
    && |s.queue| <= MAX_QUEUE
    && |s.recent| <= MAX_RECENT
    && !s.phase.OtherPhase?
    && (s.scan.None? ==> s.queue == [])
  }

  /** The attempts of a job fit its status. */
  predicate Sound(job: Job, s: State) {
    && job.id == JobId(s.database, s.definitionHash, job.id.pass, job.address)
    && (match job.status
        case Pending => job.attempts == 0
        case Retry => 1 <= job.attempts < s.definition.maxAttempts
        case Running => 1 <= job.attempts <= s.definition.maxAttempts
        case Failed => job.attempts == s.definition.maxAttempts
        case OtherStatus(_) => false)
  }

  predicate UniqueAddresses(queue: seq<Job>) {
    forall i, j :: 0 <= i < j < |queue| ==> queue[i].address != queue[j].address
  }

  predicate JobsSound(s: State) {
    && UniqueAddresses(s.queue)
    && (forall i :: 0 <= i < |s.queue| ==> Sound(s.queue[i], s))
  }

  /** No job is lost: enqueued = completed + abandoned + queued; the stored counters report it, and the
      stored receipts are the latest ones. */
  predicate Balanced(m: Saved) {
    && m.ledger.enqueued == |m.ledger.receipts| + m.ledger.abandoned + |m.state.queue|
    && m.state.succeeded == Min(|m.ledger.receipts|, U64_MAX)
    && m.state.abandoned == Min(m.ledger.abandoned, U64_MAX)
    && m.state.recent == m.ledger.receipts[Max(0, |m.ledger.receipts| - MAX_RECENT)..]
  }

  function VisitedOf(s: State, canon: Canon): nat {
    if s.scan.None? then 0 else Visited(canon(s.scan.value.key), s.scan.value.after)
  }

  /** Every canonical address the cursor has passed is queued, was analysed since the pass began or was
      dropped by a branch reset that could not begin a pass; of these three, dropped excludes the others. */
  ghost predicate Covered(m: Saved, canon: Canon, analysed: seq<Address>) {
    var s := m.state;
    && m.ledger.passMark <= |analysed|
    && (m.ledger.dropped != {} ==> s.pass >= U64_MAX)
    && (s.scan.Some? ==>
          var c := canon(s.scan.value.key);
          && (forall i :: 0 <= i < VisitedOf(s, canon) ==>
                Holds(s.queue, c[i]) || AnalysedSince(analysed, m.ledger.passMark, c[i]) || c[i] in m.ledger.dropped)
          && (forall a :: a in m.ledger.dropped ==>
                a <= s.scan.value.after && !Holds(s.queue, a) && !AnalysedSince(analysed, m.ledger.passMark, a))
          && (s.scan.value.exhausted ==> VisitedOf(s, canon) == |c|))
  }

  /** The attempts made since the pass began and those still open fit the visited addresses. */
  predicate Bounded(m: Saved, canon: Canon, started: nat) {
    var s := m.state;
    && m.ledger.startMark <= started
    && (s.scan.Some? ==>
          started - m.ledger.startMark + Remaining(s.queue, s.definition.maxAttempts)
          <= s.definition.maxAttempts * (VisitedOf(s, canon) + m.ledger.retries))
  }

  ghost predicate Good(m: Saved, database: string, canon: Canon, analysed: seq<Address>, started: nat) {
    && Shaped(m.state, database)
    && JobsSound(m.state)
    && Balanced(m)
    && Covered(m, canon, analysed)
    && Bounded(m, canon, started)
  }

  // ----- arithmetic of Remaining -----

  lemma {:induction false} RemainingConcat(a: seq<Job>, b: seq<Job>, max: nat)
    ensures Remaining(a + b, max) == Remaining(a, max) + Remaining(b, max)
    decreases |a|
  {
    if a == [] {
      assert a + b == b;
    } else {
      assert (a + b)[1..] == a[1..] + b;
      RemainingConcat(a[1..], b, max);
    }
  }

  lemma RemainingSplit(q: seq<Job>, i: nat, max: nat)
    requires i < |q|
    ensures Remaining(q, max) == Remaining(q[..i], max) + (max - q[i].attempts) + Remaining(q[i + 1..], max)
  {
    assert q == q[..i] + ([q[i]] + q[i + 1..]);
    RemainingConcat(q[..i], [q[i]] + q[i + 1..], max);
    RemainingConcat([q[i]], q[i + 1..], max);
  }

  lemma RemainingUpdate(q: seq<Job>, i: nat, job: Job, max: nat)
    requires i < |q|
    ensures Remaining(q[i := job], max) == Remaining(q, max) + q[i].attempts - job.attempts
  {
    var u := q[i := job];
    RemainingSplit(q, i, max);
    RemainingSplit(u, i, max);
    assert u[..i] == q[..i] && u[i + 1..] == q[i + 1..];
  }

  lemma RemainingRemove(q: seq<Job>, i: nat, max: nat)
    requires i < |q|
    ensures Remaining(q[..i] + q[i + 1..], max) == Remaining(q, max) + q[i].attempts - max
  {
    RemainingSplit(q, i, max);
    RemainingConcat(q[..i], q[i + 1..], max);
  }

  lemma {:induction false} RemainingSameAttempts(a: seq<Job>, b: seq<Job>, max: nat)
    requires |a| == |b|
    requires forall i :: 0 <= i < |a| ==> a[i].attempts == b[i].attempts
    ensures Remaining(a, max) == Remaining(b, max)
    decreases |a|
  {
    if a != [] {
      RemainingSameAttempts(a[1..], b[1..], max);
    }
  }

  lemma {:induction false} RemainingNonNegative(q: seq<Job>, max: nat)
    requires forall i :: 0 <= i < |q| ==> q[i].attempts <= max
    ensures Remaining(q, max) >= 0
    decreases |q|
  {
    if q != [] {
      RemainingNonNegative(q[1..], max);
    }
  }

  lemma {:induction false} RemainingExhausted(q: seq<Job>, max: nat)
    requires forall i :: 0 <= i < |q| ==> q[i].attempts == max
    ensures Remaining(q, max) == 0
    decreases |q|
  {
    if q != [] {
      RemainingExhausted(q[1..], max);
    }
  }

  // ----- the cursor and the page -----

  lemma {:induction false} VisitedSplits(c: seq<Address>, after: Address)
    requires Increasing(c)
    ensures forall i :: 0 <= i < Visited(c, after) ==> c[i] <= after
    ensures forall i :: Visited(c, after) <= i < |c| ==> c[i] > after
    decreases |c|
  {
    if c != [] && c[0] <= after {
      VisitedSplits(c[1..], after);
      forall i | 0 <= i < Visited(c, after)
        ensures c[i] <= after
      {
        if i > 0 { assert c[i] == c[1..][i - 1]; }
      }
      forall i | Visited(c, after) <= i < |c|
        ensures c[i] > after
      {
        assert c[i] == c[1..][i - 1];
      }
    }
  }

  lemma VisitedAt(c: seq<Address>, i: nat)
    requires Increasing(c) && i < |c|
    ensures Visited(c, c[i]) == i + 1
  {
    VisitedSplits(c, c[i]);
  }

  lemma VisitedStart(c: seq<Address>)
    requires Increasing(c)
    ensures Visited(c, 0) == 0
  {
    VisitedSplits(c, 0);
  }

  /** The page is what the query asks for: the least addresses after the cursor, in order, and shorter
      than the limit only when nothing else follows the cursor. */
  lemma PageAnswersQuery(c: seq<Address>, after: Address, limit: nat)
    requires Increasing(c)
    ensures Increasing(Page(c, after, limit))
    ensures forall i :: 0 <= i < |Page(c, after, limit)| ==>
      Page(c, after, limit)[i] in c && Page(c, after, limit)[i] > after
    ensures forall a, i :: a in c && a > after && a !in Page(c, after, limit) && 0 <= i < |Page(c, after, limit)| ==>
      Page(c, after, limit)[i] < a
    ensures |Page(c, after, limit)| < limit ==> forall a :: a in c && a > after ==> a in Page(c, after, limit)
  {
    VisitedSplits(c, after);
    var v := Visited(c, after);
    var p := Page(c, after, limit);
    forall i | 0 <= i < |p|
      ensures p[i] == c[v + i]
    {
    }
    forall a | a in c && a > after
      ensures exists k :: v <= k < |c| && c[k] == a && (k - v < |p| ==> p[k - v] == a)
    {
      var k :| 0 <= k < |c| && c[k] == a;
      assert k - v < |p| ==> p[k - v] == a;
    }
  }

  // ----- membership in a changed queue -----

  lemma HoldsSameAddresses(q: seq<Job>, r: seq<Job>)
    requires |q| == |r|
    requires forall i :: 0 <= i < |q| ==> q[i].address == r[i].address
    ensures forall a :: Holds(q, a) <==> Holds(r, a)
  {
    forall a | Holds(q, a)
      ensures Holds(r, a)
    {
      var i :| 0 <= i < |q| && q[i].address == a;
      assert r[i].address == a;
    }
    forall a | Holds(r, a)
      ensures Holds(q, a)
    {
      var i :| 0 <= i < |r| && r[i].address == a;
      assert q[i].address == a;
    }
  }

  lemma HoldsAfterRemove(q: seq<Job>, i: nat, a: Address)
    requires i < |q| && Holds(q, a) && q[i].address != a
    ensures Holds(q[..i] + q[i + 1..], a)
  {
    var k :| 0 <= k < |q| && q[k].address == a;
    var r := q[..i] + q[i + 1..];
    assert r[if k < i then k else k - 1] == q[k];
  }

  lemma HoldsAfterPush(q: seq<Job>, job: Job)
    ensures Holds(q + [job], job.address)
    ensures forall a :: Holds(q, a) ==> Holds(q + [job], a)
  {
    assert (q + [job])[|q|] == job;
    forall a | Holds(q, a)
      ensures Holds(q + [job], a)
    {
      var k :| 0 <= k < |q| && q[k].address == a;
      assert (q + [job])[k] == q[k];
    }
  }

  // ----- monotonicity in the outside record -----

  lemma GoodMonotone(m: Saved, database: string, canon: Canon, analysed: seq<Address>, more: seq<Address>, started: nat)
    requires Good(m, database, canon, analysed, started) && m.state.pass < U64_MAX
    ensures Good(m, database, canon, analysed + more, started)
  {
    var mark := m.ledger.passMark;
    forall a | AnalysedSince(analysed, mark, a)
      ensures AnalysedSince(analysed + more, mark, a)
    {
      var i :| mark <= i < |analysed| && analysed[i] == a;
      assert (analysed + more)[i] == a;
    }
  }

  // ----- preservation, step by step -----

  /** Steps that keep scan, pass, ledger and the queued addresses, and do not raise the open attempts. */
  lemma SameQueueGood(m: Saved, n: Saved, database: string, canon: Canon, analysed: seq<Address>, started: nat)
    requires Good(m, database, canon, analysed, started)
    requires n.ledger == m.ledger && n.state.scan == m.state.scan && n.state.pass == m.state.pass
    requires n.state.definition == m.state.definition
    requires n.state.succeeded == m.state.succeeded && n.state.abandoned == m.state.abandoned
    requires n.state.recent == m.state.recent
    requires |n.state.queue| == |m.state.queue|
    requires forall i :: 0 <= i < |m.state.queue| ==> n.state.queue[i].address == m.state.queue[i].address
    requires Remaining(n.state.queue, n.state.definition.maxAttempts)
          <= Remaining(m.state.queue, n.state.definition.maxAttempts)
    requires Shaped(n.state, database)
    requires forall i :: 0 <= i < |n.state.queue| ==> Sound(n.state.queue[i], n.state)
    ensures Good(n, database, canon, analysed, started)
  {
    HoldsSameAddresses(m.state.queue, n.state.queue);
    assert VisitedOf(n.state, canon) == VisitedOf(m.state, canon);
  }

  lemma InterruptedGood(m: Saved, note: Note, phase: Phase, reason: Reason,
                        database: string, canon: Canon, analysed: seq<Address>, started: nat)
    requires Good(m, database, canon, analysed, started)
    requires !phase.OtherPhase?
    ensures Good(m.(state := m.state.(queue := InterruptedAll(m.state.queue, m.state.definition.maxAttempts, note),
                                      phase := phase, reason := reason)), database, canon, analysed, started)
  {
    var max := m.state.definition.maxAttempts;
    var q := InterruptedAll(m.state.queue, max, note);
    var n := m.(state := m.state.(queue := q, phase := phase, reason := reason));
    RemainingSameAttempts(q, m.state.queue, max);
    forall i | 0 <= i < |q|
      ensures Sound(q[i], n.state)
    {
      assert Sound(m.state.queue[i], m.state);
    }
    SameQueueGood(m, n, database, canon, analysed, started);
  }

  lemma AbandonBalanced(m: Saved)
    requires Balanced(m)
    ensures Balanced(AbandonQueue(m))
  {
  }

  lemma RedefineGood(m: Saved, config: Config, database: string, canon: Canon, analysed: seq<Address>, started: nat)
    requires Good(m, database, canon, analysed, started)
    requires config.Valid()
    ensures Good(Redefine(m, config), database, canon, analysed, started)
  {
    AbandonBalanced(m);
  }

  lemma ResumeGood(m: Saved, config: Config, database: string, canon: Canon, analysed: seq<Address>, started: nat)
    requires Good(m, database, canon, analysed, started)
    requires config.Valid()
    ensures Good(Resume(m, config), database, canon, analysed, started)
    ensures Resume(m, config).state.definition == config
  {
    var d := if m.state.definitionHash != DigestOf(config) then Redefine(m, config) else m;
    if m.state.definitionHash != DigestOf(config) {
      RedefineGood(m, config, database, canon, analysed, started);
    }
    InterruptedGood(d, InterruptedAttempt, Waiting, StartedOrResumed, database, canon, analysed, started);
  }

  lemma RetryGood(m: Saved, index: nat, database: string, canon: Canon, analysed: seq<Address>, started: nat)
    requires Good(m, database, canon, analysed, started)
    requires index < |m.state.queue| && m.state.queue[index].status == Failed
    ensures Good(RetryJob(m, index), database, canon, analysed, started)
  {
    var s := m.state;
    var max := s.definition.maxAttempts;
    var job := s.queue[index].(attempts := 0, status := Pending, nextAttempt := 0);
    var n := RetryJob(m, index);
    assert Sound(s.queue[index], s);
    RemainingUpdate(s.queue, index, job, max);
    assert max * (VisitedOf(s, canon) + m.ledger.retries + 1) == max * (VisitedOf(s, canon) + m.ledger.retries) + max;
    HoldsSameAddresses(s.queue, n.state.queue);
    forall i | 0 <= i < |n.state.queue|
      ensures Sound(n.state.queue[i], n.state)
    {
      assert Sound(s.queue[i], s);
    }
  }

  lemma StartGood(m: Saved, index: nat, database: string, canon: Canon, analysed: seq<Address>, started: nat)
    requires Good(m, database, canon, analysed, started)
    requires index < |m.state.queue|
    requires m.state.queue[index].status == Pending || m.state.queue[index].status == Retry
    ensures Good(StartAttempt(m, index), database, canon, analysed, started)
    ensures StartAttempt(m, index).state.scan.Some?
    ensures Good(StartAttempt(m, index), database, canon, analysed, started + 1)
  {
    var s := m.state;
    var max := s.definition.maxAttempts;
    var job := s.queue[index].(status := Running, attempts := s.queue[index].attempts + 1);
    var n := StartAttempt(m, index);
    assert Sound(s.queue[index], s);
    RemainingUpdate(s.queue, index, job, max);
    forall i | 0 <= i < |n.state.queue|
      ensures Sound(n.state.queue[i], n.state)
    {
      assert Sound(s.queue[i], s);
    }
    SameQueueGood(m, n, database, canon, analysed, started);
  }

  lemma FinishErrGood(m: Saved, index: nat, config: Config, error: string, now: nat,
                      database: string, canon: Canon, analysed: seq<Address>, started: nat)
    requires Good(m, database, canon, analysed, started)
    requires index < |m.state.queue| && m.state.queue[index].status == Running
    requires config == m.state.definition
    ensures Good(FinishErr(m, index, config, error, now), database, canon, analysed, started)
  {
    var s := m.state;
    var n := FinishErr(m, index, config, error, now);
    assert Sound(s.queue[index], s);
    RemainingUpdate(s.queue, index, n.state.queue[index], s.definition.maxAttempts);
    forall i | 0 <= i < |n.state.queue|
      ensures Sound(n.state.queue[i], n.state)
    {
      assert Sound(s.queue[i], s);
    }
    SameQueueGood(m, n, database, canon, analysed, started);
  }

  lemma RecentIsTail(m: Saved, receipt: Receipt, recent: seq<Receipt>)
    requires Balanced(m)
    requires recent == var r := m.state.recent + [receipt]; if |r| > MAX_RECENT then r[1..] else r
    ensures recent == (m.ledger.receipts + [receipt])[Max(0, |m.ledger.receipts| + 1 - MAX_RECENT)..]
  {
    var all := m.ledger.receipts + [receipt];
    var from := Max(0, |m.ledger.receipts| - MAX_RECENT);
    assert m.state.recent + [receipt] == all[from..];
    if |m.ledger.receipts| >= MAX_RECENT {
      assert all[from..][1..] == all[from + 1..];
    }
  }

  lemma FinishOkBalanced(m: Saved, index: nat, now: nat)
    requires Balanced(m) && index < |m.state.queue|
    ensures Balanced(FinishOk(m, index, now))
  {
    var n := FinishOk(m, index, now);
    RecentIsTail(m, n.ledger.receipts[|m.ledger.receipts|], n.state.recent);
  }

  lemma FinishOkSound(m: Saved, index: nat, now: nat)
    requires JobsSound(m.state) && index < |m.state.queue|
    ensures JobsSound(FinishOk(m, index, now).state)
  {
    var s := m.state;
    var n := FinishOk(m, index, now);
    forall i | 0 <= i < |n.state.queue|
      ensures Sound(n.state.queue[i], n.state)
      ensures n.state.queue[i] == s.queue[if i < index then i else i + 1]
    {
      assert Sound(s.queue[if i < index then i else i + 1], s);
    }
  }

  lemma FinishOkCovered(m: Saved, index: nat, now: nat, canon: Canon, analysed: seq<Address>)
    requires Covered(m, canon, analysed) && index < |m.state.queue|
    ensures Covered(FinishOk(m, index, now), canon, analysed + [m.state.queue[index].address])
  {
    var q := m.state.queue;
    var address := q[index].address;
    var all := analysed + [address];
    var mark := m.ledger.passMark;
    var n := FinishOk(m, index, now);
    assert VisitedOf(n.state, canon) == VisitedOf(m.state, canon);
    assert all[|analysed|] == address;
    forall a | Holds(q, a) || AnalysedSince(analysed, mark, a)
      ensures Holds(n.state.queue, a) || AnalysedSince(all, mark, a)
    {
      if AnalysedSince(analysed, mark, a) {
        var i :| mark <= i < |analysed| && analysed[i] == a;
        assert all[i] == a;
      } else if a != address {
        HoldsAfterRemove(q, index, a);
      }
    }
  }

  lemma FinishOkGood(m: Saved, index: nat, now: nat, database: string, canon: Canon, analysed: seq<Address>,
                     started: nat)
    requires Good(m, database, canon, analysed, started)
    requires index < |m.state.queue|
    ensures Good(FinishOk(m, index, now), database, canon, analysed + [m.state.queue[index].address], started)
  {
    FinishOkBalanced(m, index, now);
    FinishOkSound(m, index, now);
    FinishOkCovered(m, index, now, canon, analysed);
    assert Sound(m.state.queue[index], m.state);
    RemainingRemove(m.state.queue, index, m.state.definition.maxAttempts);
    assert VisitedOf(FinishOk(m, index, now).state, canon) == VisitedOf(m.state, canon);
  }

  lemma BeginPassGood(m: Saved, key: ScanKey, database: string, canon: Canon, analysed: seq<Address>, started: nat)
    requires Good(m, database, canon, analysed, started) && Canonical(canon)
    requires !AnyActive(m.state.queue)
    ensures BeginPass(m, key, |analysed|, started).Some? ==>
              Good(BeginPass(m, key, |analysed|, started).value, database, canon, analysed, started)
  {
    if m.state.pass < U64_MAX {
      var s := m.state;
      var n := BeginPass(m, key, |analysed|, started).value;
      VisitedStart(canon(key));
      forall i | 0 <= i < |s.queue|
        ensures s.queue[i].attempts == s.definition.maxAttempts
        ensures Sound(n.state.queue[i], n.state)
      {
        assert Sound(s.queue[i], s);
        assert s.queue[i].status == Failed;
      }
      RemainingExhausted(s.queue, s.definition.maxAttempts);
    }
  }

  lemma DropCovered(m: Saved, canon: Canon, analysed: seq<Address>)
    requires Covered(m, canon, analysed) && m.state.pass >= U64_MAX
    requires forall key :: Increasing(canon(key))
    requires m.state.scan.None? ==> m.state.queue == []
    ensures Covered(DropQueue(m, analysed), canon, analysed)
  {
    var s, n := m.state, DropQueue(m, analysed);
    if s.scan.Some? {
      var c := canon(s.scan.value.key);
      VisitedSplits(c, s.scan.value.after);
      assert VisitedOf(n.state, canon) == VisitedOf(s, canon);
      forall i | 0 <= i < VisitedOf(s, canon)
        ensures AnalysedSince(analysed, m.ledger.passMark, c[i]) || c[i] in n.ledger.dropped
      {
        if Holds(s.queue, c[i]) {
          var k :| 0 <= k < |s.queue| && s.queue[k].address == c[i];
        }
      }
    }
  }

  lemma AttemptsFit(m: Saved)
    requires JobsSound(m.state)
    ensures forall i :: 0 <= i < |m.state.queue| ==> m.state.queue[i].attempts <= m.state.definition.maxAttempts
  {
    forall i | 0 <= i < |m.state.queue|
      ensures m.state.queue[i].attempts <= m.state.definition.maxAttempts
    {
      assert Sound(m.state.queue[i], m.state);
    }
  }

  /** A branch change: the queue is abandoned, then a pass begins. */
  lemma ResetGood(m: Saved, key: ScanKey, database: string, canon: Canon, analysed: seq<Address>, started: nat)
    requires Good(m, database, canon, analysed, started) && Canonical(canon)
    requires m.state.pass < U64_MAX
    ensures Good(BeginPass(AbandonQueue(m), key, |analysed|, started).value, database, canon, analysed, started)
  {
    AbandonBalanced(m);
    VisitedStart(canon(key));
    assert Remaining([], m.state.definition.maxAttempts) == 0;
  }

  /** At the last pass number the queue is lost without a new pass; what was lost unanalysed is recorded. */
  lemma DropGood(m: Saved, database: string, canon: Canon, analysed: seq<Address>, started: nat)
    requires Good(m, database, canon, analysed, started) && Canonical(canon)
    requires m.state.pass >= U64_MAX
    ensures Good(DropQueue(m, analysed), database, canon, analysed, started)
    ensures DropQueue(m, analysed).ledger.abandoned == m.ledger.abandoned + |m.state.queue|
  {
    AbandonBalanced(m);
    AttemptsFit(m);
    RemainingNonNegative(m.state.queue, m.state.definition.maxAttempts);
    assert Remaining([], m.state.definition.maxAttempts) == 0;
    assert VisitedOf(DropQueue(m, analysed).state, canon) == VisitedOf(m.state, canon);
    DropCovered(m, canon, analysed);
  }

  lemma AbsorbCovered(m: Saved, canon: Canon, analysed: seq<Address>)
    requires Covered(m, canon, analysed) && m.state.scan.Some? && !m.state.scan.value.exhausted
    requires Increasing(canon(m.state.scan.value.key))
    requires VisitedOf(m.state, canon) < |canon(m.state.scan.value.key)|
    ensures var n := Absorb(m, canon(m.state.scan.value.key)[VisitedOf(m.state, canon)]);
            Covered(n, canon, analysed) && VisitedOf(n.state, canon) == VisitedOf(m.state, canon) + 1
  {
    var s := m.state;
    var c, v := canon(s.scan.value.key), VisitedOf(s, canon);
    var n := Absorb(m, c[v]);
    VisitedAt(c, v);
    VisitedSplits(c, s.scan.value.after);
    if !Holds(s.queue, c[v]) {
      HoldsAfterPush(s.queue, n.state.queue[|s.queue|]);
      forall a | Holds(n.state.queue, a) && !Holds(s.queue, a)
        ensures a == c[v]
      {
        var k :| 0 <= k < |n.state.queue| && n.state.queue[k].address == a;
        assert k < |s.queue| ==> s.queue[k].address == a;
      }
    }
  }

  /** One row: the next canonical address after the cursor. */
  lemma AbsorbGood(m: Saved, database: string, canon: Canon, analysed: seq<Address>, started: nat)
    requires Good(m, database, canon, analysed, started) && Canonical(canon)
    requires m.state.scan.Some? && !m.state.scan.value.exhausted && |m.state.queue| < MAX_QUEUE
    requires VisitedOf(m.state, canon) < |canon(m.state.scan.value.key)|
    ensures var n := Absorb(m, canon(m.state.scan.value.key)[VisitedOf(m.state, canon)]);
            && Good(n, database, canon, analysed, started)
            && VisitedOf(n.state, canon) == VisitedOf(m.state, canon) + 1
  {
    var s := m.state;
    var max := s.definition.maxAttempts;
    var c := canon(s.scan.value.key);
    var v := VisitedOf(s, canon);
    var n := Absorb(m, c[v]);
    AbsorbCovered(m, canon, analysed);
    assert max * (v + 1 + m.ledger.retries) == max * (v + m.ledger.retries) + max;
    if !Holds(s.queue, c[v]) {
      var job := n.state.queue[|s.queue|];
      RemainingConcat(s.queue, [job], max);
      assert Remaining([job], max) == max by {
        assert [job][1..] == [];
      }
      forall i | 0 <= i < |n.state.queue|
        ensures Sound(n.state.queue[i], n.state)
      {
        if i < |s.queue| { assert Sound(s.queue[i], s); }
      }
      forall i | 0 <= i < |s.queue|
        ensures s.queue[i].address != c[v]
      {
      }
    } else {
      forall i | 0 <= i < |n.state.queue|
        ensures Sound(n.state.queue[i], n.state)
      {
        assert Sound(s.queue[i], s);
      }
    }
  }

  lemma {:induction false} AbsorbAllGood(m: Saved, rows: seq<Address>,
                                         database: string, canon: Canon, analysed: seq<Address>, started: nat)
    requires Good(m, database, canon, analysed, started) && Canonical(canon)
    requires m.state.scan.Some? && !m.state.scan.value.exhausted && |m.state.queue| + |rows| <= MAX_QUEUE
    requires VisitedOf(m.state, canon) + |rows| <= |canon(m.state.scan.value.key)|
    requires rows == canon(m.state.scan.value.key)[VisitedOf(m.state, canon)..][..|rows|]
    ensures Good(AbsorbAll(m, rows), database, canon, analysed, started)
    ensures VisitedOf(AbsorbAll(m, rows).state, canon) == VisitedOf(m.state, canon) + |rows|
    ensures AbsorbAll(m, rows).state.scan.value.key == m.state.scan.value.key
    ensures AbsorbAll(m, rows).state.definition == m.state.definition
    decreases |rows|
  {
    if rows != [] {
      var c := canon(m.state.scan.value.key);
      var v := VisitedOf(m.state, canon);
      assert rows[0] == c[v];
      AbsorbGood(m, database, canon, analysed, started);
      var n := Absorb(m, rows[0]);
      assert rows[1..] == c[v + 1..][..|rows| - 1];
      AbsorbAllGood(n, rows[1..], database, canon, analysed, started);
    }
  }

  lemma ExhaustedGood(m: Saved, flag: bool, database: string, canon: Canon, analysed: seq<Address>, started: nat)
    requires Good(m, database, canon, analysed, started)
    requires m.state.scan.Some?
    requires flag ==> VisitedOf(m.state, canon) == |canon(m.state.scan.value.key)|
    ensures Good(m.(state := m.state.(scan := Some(m.state.scan.value.(exhausted := flag)))), database, canon, analysed,
                 started)
  {
    var n := m.(state := m.state.(scan := Some(m.state.scan.value.(exhausted := flag))));
    assert VisitedOf(n.state, canon) == VisitedOf(m.state, canon);
    forall i | 0 <= i < |n.state.queue|
      ensures Sound(n.state.queue[i], n.state)
    {
      assert Sound(m.state.queue[i], m.state);
    }
  }

  lemma AbsorbPageGood(m: Saved, rows: seq<Address>, database: string, canon: Canon, analysed: seq<Address>,
                       started: nat)
    requires Good(m, database, canon, analysed, started) && Canonical(canon)
    requires m.state.scan.Some? && !m.state.scan.value.exhausted && |m.state.queue| < MAX_QUEUE
    requires rows == Page(canon(m.state.scan.value.key), m.state.scan.value.after, PageCount(m.state) + 1)
    ensures Good(AbsorbPage(m, rows), database, canon, analysed, started)
    ensures AbsorbPage(m, rows).state.definition == m.state.definition
  {
    var c := canon(m.state.scan.value.key);
    var count := PageCount(m.state);
    var taken := if |rows| <= count then rows else rows[..count];
    assert taken == c[VisitedOf(m.state, canon)..][..|taken|];
    AbsorbAllGood(m, taken, database, canon, analysed, started);
    ExhaustedGood(AbsorbAll(m, taken), |rows| <= count, database, canon, analysed, started);
  }
}
