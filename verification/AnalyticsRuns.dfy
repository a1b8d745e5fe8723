/**
 What holds after every run of the analytics worker, whatever crashes, lost writes, branch changes,
 configuration changes and operator retries it contains.
 */
module AnalyticsRuns {
  import opened Common
  import opened AnalyticsState
  import opened AnalyticsInvariant
  import opened AnalyticsWorld

  ghost predicate GoodSaved(m: Saved, w: World, canon: Canon) {
    Good(m, w.database, canon, w.analysed, w.started)
  }

  /** A pass is begun only together with a write, which counts a generation: the pass number stays below
      the generation as long as generations last. */
  predicate Paced(s: State) {
    && s.generation <= U64_MAX && s.pass <= U64_MAX
    && (s.generation < U64_MAX ==> s.pass < s.generation)
  }

  /** The same between the beginning of a pass and its write. */
  predicate Pacing(s: State) {
    && s.generation <= U64_MAX && s.pass <= U64_MAX
    && (s.generation < U64_MAX ==> s.pass <= s.generation)
  }

  ghost predicate Working(w: World, canon: Canon) {
    w.live && w.config.Valid() && w.mem.state.definition == w.config && GoodSaved(w.mem, w, canon)
  }

  ghost predicate Stored(w: World, canon: Canon) {
    w.disk.Some? ==>
      GoodSaved(w.disk.value, w, canon) && w.disk.value.state.pass < w.disk.value.state.generation <= U64_MAX
  }

  ghost predicate Inv(w: World, canon: Canon) {
    && (w.live ==> Working(w, canon) && Paced(w.mem.state))
    && Stored(w, canon)
  }

  /** Inv of a running worker. */
  ghost predicate Live(w: World, canon: Canon) {
    w.live && Inv(w, canon)
  }

  /** A running worker about to write its memory. */
  ghost predicate Saveable(w: World, canon: Canon) {
    Working(w, canon) && Pacing(w.mem.state) && Stored(w, canon)
  }

  /** Replacing the memory by another good state. */
  lemma MemLive(w: World, m: Saved, canon: Canon)
    requires Live(w, canon)
    requires GoodSaved(m, w, canon) && m.state.definition == w.config && Pacing(m.state)
    ensures Saveable(w.(mem := m), canon)
    ensures Paced(m.state) ==> Live(w.(mem := m), canon)
  {
  }

  lemma LabelsGood(m: Saved, s: State, w: World, canon: Canon)
    requires GoodSaved(m, w, canon)
    requires s == m.state.(generation := s.generation, heartbeat := s.heartbeat, phase := s.phase, reason := s.reason,
                           nextSweep := s.nextSweep)
    requires !s.phase.OtherPhase?
    ensures GoodSaved(m.(state := s), w, canon)
  {
    forall i | 0 <= i < |s.queue|
      ensures Sound(s.queue[i], s)
    {
      assert Sound(m.state.queue[i], m.state);
    }
    SameQueueGood(m, m.(state := s), w.database, canon, w.analysed, w.started);
  }

  lemma SaveLive(w: World, write: Write, canon: Canon)
    requires Saveable(w, canon)
    ensures Live(Save(w, write).world, canon)
    ensures Save(w, write).ok ==> Save(w, write).world.disk == Some(Save(w, write).world.mem)
    ensures Save(w, write).world.config == w.config
  {
    if w.mem.state.generation < U64_MAX {
      var s := w.mem.state.(generation := w.mem.state.generation + 1, heartbeat := write.now);
      LabelsGood(w.mem, s, w, canon);
    }
  }

  lemma NewGood(w: World, config: Config, canon: Canon)
    requires config.Valid()
    ensures GoodSaved(NewSaved(w.database, config), w, canon)
  {
  }

  /** The loader never refuses a state that the invariant describes. */
  lemma GoodAccepted(m: Saved, w: World, canon: Canon)
    requires GoodSaved(m, w, canon)
    ensures Accepted(m.state, w.database)
  {
    forall i | 0 <= i < |m.state.queue|
      ensures JobAccepted(m.state.queue[i])
    {
      assert Sound(m.state.queue[i], m.state);
    }
    forall i, j | 0 <= i < j < |m.state.queue|
      ensures m.state.queue[i].id != m.state.queue[j].id
    {
      assert Sound(m.state.queue[i], m.state) && Sound(m.state.queue[j], m.state);
    }
  }

  lemma OpenInv(w: World, config: Config, write: Write, canon: Canon)
    requires Inv(w, canon)
    ensures Inv(Open(w, config, write).world, canon)
  {
    if w.disk.Some? { GoodAccepted(w.disk.value, w, canon); }
    if !w.live && config.Valid() {
      var m := if w.disk.Some? then w.disk.value else NewSaved(w.database, config);
      NewGood(w, config, canon);
      ResumeGood(m, config, w.database, canon, w.analysed, w.started);
      SaveLive(w.(mem := Resume(m, config), live := true, config := config), write, canon);
    }
  }

  lemma PauseInv(w: World, write: Write, canon: Canon)
    requires Live(w, canon)
    ensures Live(PauseWorker(w, write).world, canon)
  {
    InterruptedGood(w.mem, InterruptedShutdown, Waiting, Stopped, w.database, canon, w.analysed, w.started);
    MemLive(w, Pause(w.mem, w.config), canon);
    SaveLive(w.(mem := Pause(w.mem, w.config)), write, canon);
  }

  lemma RetryInv(w: World, id: JobId, write: Write, canon: Canon)
    requires Live(w, canon)
    ensures Live(RetryWorker(w, id, write).world, canon)
  {
    match FindFailed(w.mem.state.queue, id)
    case None =>
    case Some(index) =>
      RetryGood(w.mem, index, w.database, canon, w.analysed, w.started);
      MemLive(w, RetryJob(w.mem, index), canon);
      SaveLive(w.(mem := RetryJob(w.mem, index)), write, canon);
  }

  lemma PrepareLive(w: World, source: Source, i: CycleInput, canon: Canon)
    requires Live(w, canon) && Canonical(canon)
    ensures Live(Prepare(w, source, i).world, canon)
  {
    if !(HashNeeded(w, source) && i.hashAtScan.HashFailed?) && OffBranch(w, source, i.hashAtScan) {
      var b := Begin(w.(mem := AbandonQueue(w.mem)), source);
      if !b.ok {
        DropGood(w.mem, w.database, canon, w.analysed, w.started);
        MemLive(w, DropQueue(w.mem, w.analysed), canon);
      } else {
        ResetGood(w.mem, KeyOf(source), w.database, canon, w.analysed, w.started);
        var s := b.world.mem.state.(reason := Reason.BranchChanged);
        MemLive(w, b.world.mem, canon);
        LabelsGood(b.world.mem, s, w, canon);
        MemLive(w, b.world.mem.(state := s), canon);
        SaveLive(WithState(b.world, s), i.resetWrite, canon);
      }
    }
  }

  lemma SweepLive(w: World, source: Source, write: Write, now: nat, canon: Canon)
    requires Live(w, canon) && Canonical(canon) && SweepDue(w, now)
    ensures Live(Sweep(w, source, write).world, canon)
    ensures !AnyActive(w.mem.state.queue) && Sweep(w, source, write).world.mem.state.queue == w.mem.state.queue
  {
    BeginPassGood(w.mem, KeyOf(source), w.database, canon, w.analysed, w.started);
    var b := Begin(w, source);
    if b.ok {
      MemLive(w, b.world.mem, canon);
      SaveLive(b.world, write, canon);
    }
  }

  lemma DiscoverLive(w: World, page: PageReply, write: Write, canon: Canon)
    requires Live(w, canon) && Canonical(canon)
    ensures Live(Discover(w, canon, page, write).world, canon)
  {
    var s := w.mem.state;
    if s.scan.Some? && !s.scan.value.exhausted && |s.queue| < MAX_QUEUE && page == PageRead {
      var rows := Page(canon(s.scan.value.key), s.scan.value.after, PageCount(s) + 1);
      AbsorbPageGood(w.mem, rows, w.database, canon, w.analysed, w.started);
      MemLive(w, AbsorbPage(w.mem, rows), canon);
      SaveLive(w.(mem := AbsorbPage(w.mem, rows)), write, canon);
    }
  }

  lemma RefillLive(w: World, source: Source, i: CycleInput, canon: Canon)
    requires Live(w, canon) && Canonical(canon)
    ensures Live(Refill(w, source, canon, i).world, canon)
  {
    if SweepDue(w, i.now) { SweepLive(w, source, i.passWrite, i.now, canon); }
    var swept := if SweepDue(w, i.now) then Sweep(w, source, i.passWrite) else Step(w, true);
    if swept.ok { DiscoverLive(swept.world, i.page, i.pageWrite, canon); }
  }

  lemma {:induction false} HeartbeatsLive(w: World, beats: seq<Write>, canon: Canon)
    requires Live(w, canon)
    ensures Live(Heartbeats(w, beats).world, canon)
    decreases |beats|
  {
    if beats != [] {
      SaveLive(w, beats[0], canon);
      var b := Save(w, beats[0]);
      if b.ok { HeartbeatsLive(b.world, beats[1..], canon); }
    }
  }

  lemma FinishLive(w: World, index: nat, analysis: Analysis, now: nat, canon: Canon)
    requires Live(w, canon)
    requires index < |w.mem.state.queue| && w.mem.state.queue[index].status == Running
    ensures Live(Finish(w, index, analysis, now), canon)
  {
    match analysis
    case Published =>
      FinishOkGood(w.mem, index, now, w.database, canon, w.analysed, w.started);
      if w.disk.Some? {
        GoodMonotone(w.disk.value, w.database, canon, w.analysed, [w.mem.state.queue[index].address], w.started);
      }
    case Refused(error) =>
      FinishErrGood(w.mem, index, w.config, error, now, w.database, canon, w.analysed, w.started);
  }

  /** The start of an attempt is on disk before the analysis is counted, so the count stays within the
      bound that the disk alone justifies. */
  lemma BeginAttemptLive(w: World, index: nat, write: Write, canon: Canon)
    requires Live(w, canon)
    requires index < |w.mem.state.queue|
    requires w.mem.state.queue[index].status == Pending || w.mem.state.queue[index].status == Retry
    ensures Live(BeginAttempt(w, index, write).world, canon)
    ensures BeginAttempt(w, index, write).world.mem.state.queue[index].status == Running
    ensures var b := BeginAttempt(w, index, write);
            && b.world.started == w.started + (if b.ok then 1 else 0)
            && (b.ok ==> b.world.disk == Some(b.world.mem)
                         && b.world.disk.value.state.queue[index].attempts == w.mem.state.queue[index].attempts + 1)
  {
    var m := StartAttempt(w.mem, index);
    StartGood(w.mem, index, w.database, canon, w.analysed, w.started);
    MemLive(w, m, canon);
    SaveLive(w.(mem := m), write, canon);
    var begun := Save(w.(mem := m), write);
    if begun.ok {
      LabelsGood(m, begun.world.mem.state, w.(started := w.started + 1), canon);
    }
  }

  lemma AttemptLive(w: World, index: nat, i: CycleInput, canon: Canon)
    requires Live(w, canon)
    requires index < |w.mem.state.queue|
    requires w.mem.state.queue[index].status == Pending || w.mem.state.queue[index].status == Retry
    ensures Live(Attempt(w, index, i).world, canon)
  {
    BeginAttemptLive(w, index, i.startWrite, canon);
    var begun := BeginAttempt(w, index, i.startWrite);
    HeartbeatsLive(begun.world, i.heartbeats, canon);
    var beaten := Heartbeats(begun.world, i.heartbeats);
    FinishLive(beaten.world, index, i.analysis, i.nowFinish, canon);
    SaveLive(Finish(beaten.world, index, i.analysis, i.nowFinish), i.finishWrite, canon);
  }

  lemma IdleLive(w: World, now: nat, write: Write, canon: Canon)
    requires Live(w, canon)
    ensures Live(Save(WithState(w, IdleState(w.mem.state, w.config, now)), write).world, canon)
  {
    var s := IdleState(w.mem.state, w.config, now);
    LabelsGood(w.mem, s, w, canon);
    MemLive(w, w.mem.(state := s), canon);
    SaveLive(WithState(w, s), write, canon);
  }

  lemma ScheduleLive(w: World, source: Source, i: CycleInput, canon: Canon)
    requires Live(w, canon) && Canonical(canon)
    ensures Live(Schedule(w, source, canon, i).world, canon)
  {
    RefillLive(w, source, i, canon);
    var refilled := Refill(w, source, canon, i);
    if refilled.ok {
      var v := refilled.world;
      match Due(v.mem.state.queue, i.nowDue)
      case None => IdleLive(v, i.now, i.idleWrite, canon);
      case Some(index) => AttemptLive(v, index, i, canon);
    }
  }

  lemma CycleInnerLive(w: World, i: CycleInput, canon: Canon)
    requires Live(w, canon) && Canonical(canon)
    ensures Live(CycleInner(w, canon, i).world, canon)
  {
    if i.source.Some? {
      var source := i.source.value;
      if !source.initialized {
        var s := w.mem.state.(phase := Waiting, reason := WaitingForBlocks);
        LabelsGood(w.mem, s, w, canon);
        MemLive(w, w.mem.(state := s), canon);
        SaveLive(WithState(w, s), i.idleWrite, canon);
      } else {
        PrepareLive(w, source, i, canon);
        var prepared := Prepare(w, source, i);
        if prepared.ok { ScheduleLive(prepared.world, source, i, canon); }
      }
    }
  }

  lemma CycleInv(w: World, i: CycleInput, canon: Canon)
    requires Live(w, canon) && Canonical(canon)
    ensures Live(Cycle(w, canon, i).world, canon)
  {
    CycleInnerLive(w, i, canon);
    var r := CycleInner(w, canon, i);
    if i.sameDatabase && !r.ok {
      var s := r.world.mem.state.(phase := Faulted, reason := SourceUnavailable);
      LabelsGood(r.world.mem, s, r.world, canon);
      MemLive(r.world, r.world.mem.(state := s), canon);
      SaveLive(WithState(r.world, s), i.failureWrite, canon);
    }
  }

  lemma NextInv(w: World, canon: Canon, e: Event)
    requires Inv(w, canon) && Canonical(canon)
    ensures Inv(Next(w, canon, e), canon)
  {
    match e
    case OpenEvent(config, write) => OpenInv(w, config, write, canon);
    case CycleEvent(input) => if w.live { CycleInv(w, input, canon); }
    case PauseEvent(write) => if w.live { PauseInv(w, write, canon); }
    case RetryEvent(id, write) => if w.live { RetryInv(w, id, write, canon); }
    case CrashEvent =>
  }

  lemma {:induction false} RunInv(w: World, canon: Canon, events: seq<Event>)
    requires Inv(w, canon) && Canonical(canon)
    ensures Inv(Run(w, canon, events), canon)
    decreases |events|
  {
    if events != [] {
      NextInv(w, canon, events[0]);
      RunInv(Next(w, canon, events[0]), canon, events[1..]);
    }
  }

  // ----- runs put together -----

  lemma RunFirst(w: World, canon: Canon, e: Event, rest: seq<Event>)
    ensures Run(w, canon, [e] + rest) == Run(Next(w, canon, e), canon, rest)
  {
    assert ([e] + rest)[1..] == rest;
  }

  lemma {:induction false} RunConcat(w: World, canon: Canon, a: seq<Event>, b: seq<Event>)
    ensures Run(w, canon, a + b) == Run(Run(w, canon, a), canon, b)
    decreases |a|
  {
    if a == [] {
      assert a + b == b;
    } else {
      assert (a + b)[1..] == a[1..] + b;
      RunConcat(Next(w, canon, a[0]), canon, a[1..], b);
    }
  }

  lemma RunTwo(w: World, canon: Canon, d: Event, e: Event)
    ensures Run(w, canon, [d, e]) == Next(Next(w, canon, d), canon, e)
  {
    assert [d, e] == [d] + [e];
    RunFirst(w, canon, d, [e]);
    assert [e] == [e] + [];
    RunFirst(Next(w, canon, d), canon, e, []);
  }

  // ----- main results -----

  /** The state of a world that the results speak of: the memory of a running worker or the file. */
  predicate Visible(w: World, m: Saved) {
    (w.live && m == w.mem) || w.disk == Some(m)
  }

  lemma ReachableGood(database: string, config: Config, canon: Canon, events: seq<Event>, m: Saved)
    requires Canonical(canon)
    requires Visible(Run(Boot(database, config), canon, events), m)
    ensures Good(m, Run(Boot(database, config), canon, events).database, canon,
                 Run(Boot(database, config), canon, events).analysed,
                 Run(Boot(database, config), canon, events).started)
    ensures Paced(m.state)
    ensures Run(Boot(database, config), canon, events).disk == Some(m) ==> m.state.pass < m.state.generation
  {
    RunInv(Boot(database, config), canon, events);
  }

  /** The address completed an analysis since the pass of `m` began or holds a failed job. */
  predicate Swept(m: Saved, analysed: seq<Address>, address: Address) {
    || AnalysedSince(analysed, m.ledger.passMark, address)
    || (exists j ::
        0 <= j < |m.state.queue| && m.state.queue[j].address == address && m.state.queue[j].status == Failed)
  }

  /** Sweep coverage, exactly: when a scan is exhausted and no job is active, a canonical address of the scan is
      swept unless a branch reset dropped it without beginning a pass. No such reset can have happened in a
      checkpoint, nor in a worker that can still write one. */
  lemma SweepCoverage(database: string, config: Config, canon: Canon, events: seq<Event>, m: Saved, address: Address)
    requires Canonical(canon)
    requires Visible(Run(Boot(database, config), canon, events), m)
    requires m.state.scan.Some? && m.state.scan.value.exhausted && !AnyActive(m.state.queue)
    requires address in canon(m.state.scan.value.key)
    ensures var w := Run(Boot(database, config), canon, events);
            && (Swept(m, w.analysed, address) <==> address !in m.ledger.dropped)
            && (w.disk == Some(m) || m.state.generation < U64_MAX ==> Swept(m, w.analysed, address))
  {
    var w := Run(Boot(database, config), canon, events);
    ReachableGood(database, config, canon, events, m);
    var c := canon(m.state.scan.value.key);
    var i :| 0 <= i < |c| && c[i] == address;
    assert Holds(m.state.queue, c[i]) || AnalysedSince(w.analysed, m.ledger.passMark, c[i]) || c[i] in m.ledger.dropped;
    if Holds(m.state.queue, address) {
      var j :| 0 <= j < |m.state.queue| && m.state.queue[j].address == address;
      assert m.state.queue[j].status == Failed;
    }
  }

  /** What is dropped is dropped by a reset at the last pass number, which no checkpoint has. */
  lemma DroppedAtTheLimit(database: string, config: Config, canon: Canon, events: seq<Event>, m: Saved)
    requires Canonical(canon)
    requires Visible(Run(Boot(database, config), canon, events), m)
    ensures m.ledger.dropped != {} ==>
              && m.state.pass == m.state.generation == U64_MAX
              && Run(Boot(database, config), canon, events).disk != Some(m)
  {
    ReachableGood(database, config, canon, events, m);
  }

  lemma ScaleLe(k: nat, a: int, b: int)
    requires a <= b
    ensures k * a <= k * b
  {
  }

  lemma BoundedByScan(m: Saved, canon: Canon, started: nat)
    requires Bounded(m, canon, started) && m.state.scan.Some?
    requires forall i :: 0 <= i < |m.state.queue| ==> m.state.queue[i].attempts <= m.state.definition.maxAttempts
    ensures started - m.ledger.startMark
            <= m.state.definition.maxAttempts * (|canon(m.state.scan.value.key)| + m.ledger.retries)
  {
    RemainingNonNegative(m.state.queue, m.state.definition.maxAttempts);
    ScaleLe(m.state.definition.maxAttempts, VisitedOf(m.state, canon) + m.ledger.retries,
            |canon(m.state.scan.value.key)| + m.ledger.retries);
  }

  /** Attempt bound: the analyses started since a pass began, over any crashes, number at most
      `maxAttempts` for each address of the scan and for each operator retry. */
  lemma AttemptBound(database: string, config: Config, canon: Canon, events: seq<Event>, m: Saved)
    requires Canonical(canon)
    requires Visible(Run(Boot(database, config), canon, events), m)
    requires m.state.scan.Some?
    ensures Run(Boot(database, config), canon, events).started - m.ledger.startMark
            <= m.state.definition.maxAttempts * (|canon(m.state.scan.value.key)| + m.ledger.retries)
  {
    ReachableGood(database, config, canon, events, m);
    forall i | 0 <= i < |m.state.queue|
      ensures m.state.queue[i].attempts <= m.state.definition.maxAttempts
    {
      assert Sound(m.state.queue[i], m.state);
    }
    BoundedByScan(m, canon, Run(Boot(database, config), canon, events).started);
  }

  predicate GenerationSpent(w: World) {
    w.disk.Some? && w.disk.value.state.generation >= U64_MAX
  }

  /** Checkpoint self-acceptance: the loader accepts every state on disk and every state the worker could
      save next, so a stopped worker reopens whenever its write succeeds. */
  lemma CheckpointAccepted(database: string, config: Config, canon: Canon, events: seq<Event>, newConfig: Config,
                           write: Write)
    requires Canonical(canon)
    ensures var w := Run(Boot(database, config), canon, events);
            && (w.disk.Some? ==> Accepted(w.disk.value.state, w.database))
            && (w.live ==> Accepted(w.mem.state, w.database))
            && (!w.live && newConfig.Valid() && write.fate == Committed && !GenerationSpent(w) ==>
                  Open(w, newConfig, write).ok)
  {
    var w := Run(Boot(database, config), canon, events);
    RunInv(Boot(database, config), canon, events);
    if w.disk.Some? { GoodAccepted(w.disk.value, w, canon); }
    if w.live { GoodAccepted(w.mem, w, canon); }
  }

  /** Job conservation: jobs ever enqueued are completed, abandoned or still queued, and the stored
      64-bit counters are the exact counts until they saturate; the stored receipts are the latest sixteen. */
  lemma JobConservation(database: string, config: Config, canon: Canon, events: seq<Event>, m: Saved)
    requires Canonical(canon)
    requires Visible(Run(Boot(database, config), canon, events), m)
    ensures m.ledger.enqueued == |m.ledger.receipts| + m.ledger.abandoned + |m.state.queue|
    ensures m.state.succeeded == Min(|m.ledger.receipts|, U64_MAX)
    ensures m.state.abandoned == Min(m.ledger.abandoned, U64_MAX)
    ensures m.state.recent == m.ledger.receipts[Max(0, |m.ledger.receipts| - MAX_RECENT)..]
  {
    ReachableGood(database, config, canon, events, m);
  }

  /** The scheduler's choice is the least eligible job by (retried, due time, position). */
  lemma {:induction false} DueIsLeast(queue: seq<Job>, now: nat)
    ensures Due(queue, now).None? <==> forall i :: 0 <= i < |queue| ==> !Eligible(queue[i], now)
    ensures Due(queue, now).Some? ==>
              var d := Due(queue, now).value;
              forall i :: 0 <= i < |queue| && i != d && Eligible(queue[i], now) ==>
                KeyLess(queue[d], queue[i]) || (!KeyLess(queue[i], queue[d]) && d < i)
    decreases |queue|
  {
    if queue != [] {
      var n := |queue| - 1;
      DueIsLeast(queue[..n], now);
      var before := Due(queue[..n], now);
      if before.Some? {
        assert queue[..n][before.value] == queue[before.value];
      }
      forall i | 0 <= i < n
        ensures queue[..n][i] == queue[i]
      {
      }
    }
  }

  lemma {:induction false} Pow2AtLeastOne(n: nat)
    ensures Pow2(n) >= 1
  {
    if n > 0 { Pow2AtLeastOne(n - 1); }
  }

  lemma {:induction false} Pow2Monotone(a: nat, b: nat)
    requires a <= b
    ensures Pow2(a) <= Pow2(b)
    decreases b
  {
    if a < b { Pow2Monotone(a, b - 1); }
  }

  /** Backoff: never less than the configured delay, never more than an hour, and never shorter after
      more attempts. */
  lemma BackoffBounds(config: Config, a: nat, b: nat)
    requires config.Valid() && a <= b
    ensures config.retrySeconds <= Delay(config, a) <= Delay(config, b) <= 3600
  {
    Pow2AtLeastOne(Min(a, 10));
    Pow2Monotone(Min(a, 10), Min(b, 10));
    ScaleLe(config.retrySeconds, 1, Pow2(Min(a, 10)));
    ScaleLe(config.retrySeconds, Pow2(Min(a, 10)), Pow2(Min(b, 10)));
  }

  /** A failing job never delays a fresh one: while a fresh job is due, the scheduler picks a fresh job. */
  lemma FreshJobsFirst(queue: seq<Job>, now: nat, i: nat)
    requires i < |queue| && Eligible(queue[i], now) && queue[i].attempts == 0
    ensures Due(queue, now).Some? && queue[Due(queue, now).value].attempts == 0
  {
    DueIsLeast(queue, now);
  }
}
