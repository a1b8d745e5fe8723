/**
 The worker itself: an object whose methods update its fields in place and replace the checkpoint
 file. Every method is tied to the step of AnalyticsWorld it performs, so the results of
 AnalyticsRuns are results about these methods.
 */
module AnalyticsWorker {
  import opened Common
  import opened AnalyticsState
  import opened AnalyticsWorld
  import Runs = AnalyticsRuns

  /** The checkpoint file of one database. The ghost fields record what no crash undoes. */
  class CheckpointFile {
    const database: string
    var stored: Option<State>
    ghost var storedLedger: Ledger
    ghost var analysed: seq<Address>
    ghost var started: nat

    constructor (database: string)
      ensures this.database == database && stored == None && analysed == [] && started == 0
    {
      this.database := database;
      stored := None;
      storedLedger := NO_HISTORY;
      analysed := [];
      started := 0;
    }

    ghost function Disk(): Option<Saved>
      reads this
    {
      if stored.None? then None else Some(Saved(stored.value, storedLedger))
    }

    /** The world while no worker is open. */
    ghost function Closed(config: Config): World
      reads this
    {
      World(database, false, config, NewSaved(database, config), Disk(), analysed, started)
    }
  }

  class Worker {
    const file: CheckpointFile
    const canon: Canon
    var config: Config

    var state: State
    ghost var ledger: Ledger

    ghost function Memory(): Saved
      reads this
    {
      Saved(state, ledger)
    }

    ghost function View(): World
      reads this, file
    {
      World(file.database, true, config, Memory(), file.Disk(), file.analysed, file.started)
    }

    constructor FromState(file: CheckpointFile, canon: Canon, config: Config, s: State, ghost l: Ledger)
      ensures this.file == file && this.canon == canon && this.config == config
      ensures state == s && ledger == l
    {
      this.file, this.canon, this.config := file, canon, config;
      state, ledger := s, l;
    }

    /** Every running job becomes a retry, or a failure when no attempt is left. */
    method InterruptRunning(max: nat, note: Note)
      modifies this`state
      ensures state == old(state).(queue := InterruptedAll(old(state).queue, max, note))
    {
      ghost var before := state;
      for i := 0 to |state.queue|
        invariant state == before.(queue := state.queue) && |state.queue| == |before.queue|
        invariant forall k :: 0 <= k < i ==> state.queue[k] == Interrupted(before.queue[k], max, note)
        invariant forall k :: i <= k < |state.queue| ==> state.queue[k] == before.queue[k]
      {
        var j := state.queue[i];
        if j.status == Running {
          var status := if j.attempts >= max then Failed else Retry;
          state := state.(queue := state.queue[i := j.(status := status, nextAttempt := 0, lastError := note)]);
        }
      }
      assert state.queue == InterruptedAll(before.queue, max, note);
    }

    /** Count a generation, stamp the heartbeat and replace the file. */
    method Save(write: Write) returns (ok: bool)
      modifies this`state, file`stored, file`storedLedger
      ensures AnalyticsWorld.Step(View(), ok) == AnalyticsWorld.Save(old(View()), write)
    {
      if state.generation >= U64_MAX {
        return false;
      }
      state := state.(generation := state.generation + 1, heartbeat := write.now);
      if write.fate != Lost {
        file.stored := Some(state);
        file.storedLedger := ledger;
      }
      ok := write.fate == Committed;
    }

    method Pause(write: Write) returns (ok: bool)
      modifies this, file
      ensures AnalyticsWorld.Step(View(), ok) == PauseWorker(old(View()), write)
    {
      InterruptRunning(config.maxAttempts, InterruptedShutdown);
      state := state.(phase := Waiting, reason := Stopped);
      ok := Save(write);
    }

    method FindFailedJob(id: JobId) returns (r: Option<nat>)
      ensures r == FindFailed(state.queue, id)
    {
      var queue := state.queue;
      for i := 0 to |queue|
        invariant FindFailed(queue, id) ==
                  (var rest := FindFailed(queue[i..], id); if rest.Some? then Some(rest.value + i) else None)
      {
        assert queue[i..][1..] == queue[i + 1..];
        if RetryMatches(queue[i], id) {
          return Some(i);
        }
      }
      return None;
    }

    method RetryFailed(id: JobId, write: Write) returns (ok: bool)
      modifies this, file
      ensures AnalyticsWorld.Step(View(), ok) == RetryWorker(old(View()), id, write)
    {
      var found := FindFailedJob(id);
      if found.None? {
        return false;
      }
      var j := state.queue[found.value].(attempts := 0, status := Pending, nextAttempt := 0);
      state := state.(queue := state.queue[found.value := j], reason := ManualRetryQueued);
      ledger := ledger.(retries := ledger.retries + 1);
      ok := Save(write);
    }

    /** The first eligible job that no later eligible job beats. */
    method DueIndex(now: nat) returns (r: Option<nat>)
      ensures r == Due(state.queue, now)
    {
      var queue := state.queue;
      r := None;
      for i := 0 to |queue|
        invariant r == Due(queue[..i], now)
      {
        assert queue[..i + 1][..i] == queue[..i];
        assert queue[..i + 1][i] == queue[i];
        if Eligible(queue[i], now) && (r.None? || KeyLess(queue[i], queue[r.value])) {
          r := Some(i);
        }
      }
      assert queue[..|queue|] == queue;
    }

    method BeginNewPass(source: Source) returns (ok: bool)
      modifies this
      ensures AnalyticsWorld.Step(View(), ok) == Begin(old(View()), source)
    {
      if state.pass >= U64_MAX {
        return false;
      }
      state := state.(pass := state.pass + 1);
      state := state.(scan := Some(Scan(KeyOf(source), 0, false)));
      state := state.(nextSweep := 0, reason := Sweeping);
      ledger := ledger.(retries := 0, passMark := |file.analysed|, startMark := file.started, dropped := {});
      ok := true;
    }

    /** Enqueue the rows of one page and move the cursor behind them. */
    method TakeRows(rows: seq<Address>)
      requires state.scan.Some?
      modifies this`state, this`ledger
      ensures Memory() == AbsorbAll(old(Memory()), rows)
    {
      ghost var before := Memory();
      for i := 0 to |rows|
        invariant state.scan.Some?
        invariant AbsorbAll(Memory(), rows[i..]) == AbsorbAll(before, rows)
      {
        assert rows[i..][0] == rows[i] && rows[i..][1..] == rows[i + 1..];
        ghost var here := Memory();
        var address := rows[i];
        if !Holds(state.queue, address) {
          var id := JobId(state.database, state.definitionHash, state.pass, address);
          state := state.(queue := state.queue + [Job(id, address, Pending, 0, 0, NoError)]);
          ledger := ledger.(enqueued := ledger.enqueued + 1);
        }
        state := state.(scan := Some(state.scan.value.(after := address)));
        assert Memory() == Absorb(here, address);
      }
    }

    method DiscoverPage(page: PageReply, write: Write) returns (ok: bool)
      requires config == state.definition
      modifies this, file
      ensures AnalyticsWorld.Step(View(), ok) == Discover(old(View()), canon, page, write)
    {
      if state.scan.None? {
        return false;
      }
      var scan := state.scan.value;
      if scan.exhausted || |state.queue| >= MAX_QUEUE {
        return true;
      }
      var count := Min(config.pageSize, MAX_QUEUE - |state.queue|);
      if page != PageRead {
        return false;
      }
      var rows := Page(canon(scan.key), scan.after, count + 1);
      TakeRows(if |rows| <= count then rows else rows[..count]);
      state := state.(scan := Some(state.scan.value.(exhausted := |rows| <= count)));
      ok := Save(write);
    }

    method FinishJob(index: nat, analysis: Analysis, now: nat)
      requires index < |state.queue|
      modifies this, file`analysed
      ensures View() == Finish(old(View()), index, analysis, now)
    {
      var job := state.queue[index];
      match analysis {
        case Published =>
          var receipt := Receipt(job.id, job.address, job.attempts, now);
          state := state.(queue := state.queue[..index] + state.queue[index + 1..]);
          state := state.(succeeded := SaturatingAdd(state.succeeded, 1));
          state := state.(recent := state.recent + [receipt]);
          if |state.recent| > MAX_RECENT {
            state := state.(recent := state.recent[1..]);
          }
          state := state.(phase := Idle, reason := JobCompleted);
          ledger := ledger.(receipts := ledger.receipts + [receipt]);
          file.analysed := file.analysed + [job.address];
        case Refused(error) =>
          var j := job.(status := if job.attempts >= config.maxAttempts then Failed else Retry);
          j := j.(lastError := AttemptError(error));
          j := j.(nextAttempt := SaturatingAdd(now, Delay(config, j.attempts) * 1000));
          state := state.(queue := state.queue[index := j]);
          state := state.(failures := SaturatingAdd(state.failures, 1));
          state := state.(phase := Faulted, reason := JobFailed);
      }
    }

    method Heartbeat(beats: seq<Write>) returns (ok: bool)
      modifies this`state, file`stored, file`storedLedger
      ensures AnalyticsWorld.Step(View(), ok) == Heartbeats(old(View()), beats)
    {
      ghost var before := View();
      for i := 0 to |beats|
        invariant Heartbeats(View(), beats[i..]) == Heartbeats(before, beats)
      {
        assert beats[i..][0] == beats[i] && beats[i..][1..] == beats[i + 1..];
        var saved := Save(beats[i]);
        if !saved {
          return false;
        }
      }
      ok := true;
    }

    method MarkRunning(index: nat)
      requires index < |state.queue|
      modifies this`state
      ensures Memory() == StartAttempt(old(Memory()), index)
    {
      var job := state.queue[index];
      state := state.(queue := state.queue[index := job.(status := Running, attempts := job.attempts + 1)]);
      state := state.(phase := Working, reason := Refreshing);
    }

    method StartJob(index: nat, write: Write) returns (ok: bool)
      requires index < |state.queue|
      modifies this, file
      ensures AnalyticsWorld.Step(View(), ok) == BeginAttempt(old(View()), index, write)
    {
      MarkRunning(index);
      ok := Save(write);
      if ok {
        file.started := file.started + 1;
      }
    }

    method EndJob(index: nat, i: CycleInput) returns (ok: bool)
      requires index < |state.queue|
      modifies this, file
      ensures AnalyticsWorld.Step(View(), ok) == EndAttempt(old(View()), index, i)
    {
      ok := Heartbeat(i.heartbeats);
      if ok {
        FinishJob(index, i.analysis, i.nowFinish);
        ok := Save(i.finishWrite);
      }
    }

    method RunAttempt(index: nat, i: CycleInput) returns (ok: bool)
      requires index < |state.queue|
      modifies this, file
      ensures AnalyticsWorld.Step(View(), ok) == Attempt(old(View()), index, i)
    {
      ok := StartJob(index, i.startWrite);
      if ok {
        ok := EndJob(index, i);
      }
    }

    method AbandonJobs()
      modifies this`state, this`ledger
      ensures Memory() == AbandonQueue(old(Memory()))
    {
      state := state.(abandoned := SaturatingAdd(state.abandoned, |state.queue|));
      ledger := ledger.(abandoned := ledger.abandoned + |state.queue|);
      state := state.(queue := []);
    }

    /** Abandon everything when the scanned block left the source's branch. */
    method PrepareScan(source: Source, i: CycleInput) returns (ok: bool)
      modifies this, file
      ensures AnalyticsWorld.Step(View(), ok) == Prepare(old(View()), source, i)
    {
      var reset := false;
      if state.scan.Some? {
        var key := state.scan.value.key;
        if source.startHeight != key.start || source.tipHeight < key.height {
          reset := true;
        } else if i.hashAtScan.HashFailed? {
          return false;
        } else {
          reset := i.hashAtScan.hash != Some(key.hash);
        }
      }
      if !reset {
        return true;
      }
      ghost var lost := Unanalysed(Memory(), file.analysed);
      AbandonJobs();
      ok := BeginNewPass(source);
      if ok {
        state := state.(reason := Reason.BranchChanged);
        ok := Save(i.resetWrite);
      } else {
        ledger := ledger.(dropped := ledger.dropped + lost);
      }
    }

    method RefillQueue(source: Source, i: CycleInput) returns (ok: bool)
      requires config == state.definition
      modifies this, file
      ensures AnalyticsWorld.Step(View(), ok) == Refill(old(View()), source, canon, i)
    {
      ok := true;
      var scan := state.scan;
      if scan.None?
        || (scan.value.exhausted && !AnyActive(state.queue) && state.nextSweep > 0 && i.now >= state.nextSweep) {
        ok := BeginNewPass(source);
        if ok {
          ok := Save(i.passWrite);
        }
        if !ok {
          return;
        }
      }
      var due := DueIndex(i.now);
      if due.None? {
        ok := DiscoverPage(i.page, i.pageWrite);
      }
    }

    method RecordIdle(now: nat, write: Write) returns (ok: bool)
      modifies this, file
      ensures AnalyticsWorld.Step(View(), ok) ==
              AnalyticsWorld.Save(WithState(old(View()), IdleState(old(state), config, now)), write)
    {
      var exhausted := state.scan.Some? && state.scan.value.exhausted;
      var active := AnyActive(state.queue);
      if exhausted && !active && state.nextSweep == 0 {
        state := state.(nextSweep := SaturatingAdd(now, config.refreshSeconds * 1000));
      }
      state := state.(phase := if AnyFailed(state.queue) then Faulted else if active then Waiting else Idle);
      state := state.(reason := if |state.queue| >= MAX_QUEUE then QueueFull
                                else if active then RetryBackoff
                                else if exhausted then AwaitingNextSweep
                                else DiscoveryPending);
      ok := Save(write);
    }

    method RunSchedule(source: Source, i: CycleInput) returns (ok: bool)
      requires config == state.definition
      modifies this, file
      ensures AnalyticsWorld.Step(View(), ok) == Schedule(old(View()), source, canon, i)
    {
      ok := RefillQueue(source, i);
      if !ok {
        return;
      }
      var due := DueIndex(i.nowDue);
      if due.None? {
        ok := RecordIdle(i.now, i.idleWrite);
      } else {
        ok := RunAttempt(due.value, i);
      }
    }

    method CycleBody(i: CycleInput) returns (ok: bool)
      requires config == state.definition
      modifies this, file
      ensures AnalyticsWorld.Step(View(), ok) == CycleInner(old(View()), canon, i)
    {
      if i.source.None? {
        return false;
      }
      if !i.source.value.initialized {
        state := state.(phase := Waiting, reason := WaitingForBlocks);
        ok := Save(i.idleWrite);
        return;
      }
      ok := PrepareScan(i.source.value, i);
      if ok {
        ok := RunSchedule(i.source.value, i);
      }
    }

    /** One durable job attempt, or one discovery or wait step. */
    method CycleOnce(i: CycleInput) returns (ok: bool)
      requires config == state.definition
      modifies this, file
      ensures AnalyticsWorld.Step(View(), ok) == Cycle(old(View()), canon, i)
    {
      if !i.sameDatabase {
        return false;
      }
      ok := CycleBody(i);
      if !ok {
        state := state.(phase := Faulted, reason := SourceUnavailable);
        var ignored := Save(i.failureWrite);
      }
    }
  }

  /** The checkpoint, when the file holds one that the loader accepts. */
  method Load(file: CheckpointFile) returns (r: Result<Option<State>, ()>)
    ensures r == if file.stored.Some? && !Accepted(file.stored.value, file.database) then Err(()) else Ok(file.stored)
  {
    if file.stored.None? {
      return Ok(None);
    }
    var s := file.stored.value;
    var valid := s.contract == VERSION && s.network == NETWORK_ID && s.database == file.database
                 && |s.queue| <= MAX_QUEUE && |s.recent| <= MAX_RECENT
                 && s.definitionHash == DigestOf(s.definition) && !s.phase.OtherPhase?;
    if !valid {
      return Err(());
    }
    var ids: set<JobId> := {};
    for k := 0 to |s.queue|
      invariant forall id :: id in ids <==> exists i :: 0 <= i < k && s.queue[i].id == id
      invariant forall i, j :: 0 <= i < j < k ==> s.queue[i].id != s.queue[j].id
      invariant forall i :: 0 <= i < k ==> JobAccepted(s.queue[i])
    {
      var job := s.queue[k];
      if job.id in ids || job.status.OtherStatus? || job.attempts > 20 {
        return Err(());
      }
      ids := ids + {job.id};
    }
    return Ok(Some(s));
  }

  /** Start a worker from the checkpoint file: null when it cannot start. */
  method OpenWorker(file: CheckpointFile, canon: Canon, config: Config, write: Write) returns (w: Worker?)
    modifies file
    ensures (w != null) == Open(old(file.Closed(config)), config, write).ok
    ensures w != null ==> fresh(w) && w.file == file && w.canon == canon
    ensures w != null ==> w.View() == Open(old(file.Closed(config)), config, write).world
    ensures w == null ==> file.Disk() == Open(old(file.Closed(config)), config, write).world.disk
    ensures file.analysed == old(file.analysed) && file.started == old(file.started)
  {
    if !config.Valid() {
      return null;
    }
    var loaded := Load(file);
    if loaded.Err? {
      return null;
    }
    var s := if loaded.value.Some? then loaded.value.value else NewState(file.database, config);
    ghost var l := if loaded.value.Some? then file.storedLedger else NO_HISTORY;
    var worker := new Worker.FromState(file, canon, config, s, l);
    if worker.state.definitionHash != DigestOf(config) {
      worker.AbandonJobs();
      worker.state := worker.state.(scan := None, nextSweep := 0, definition := config,
                                    definitionHash := DigestOf(config));
    }
    worker.InterruptRunning(config.maxAttempts, InterruptedAttempt);
    worker.state := worker.state.(phase := Waiting, reason := StartedOrResumed);
    assert worker.Memory() == Resume(Saved(s, l), config);
    var saved := worker.Save(write);
    w := if saved then worker else null;
  }

  // ----- whole runs -----

  /** What can be seen of a world: the file and its record, and the worker while one is open. */
  ghost predicate Shows(file: CheckpointFile, canon: Canon, w: Worker?, v: World)
    reads file, w
  {
    && v.database == file.database && v.disk == file.Disk() && v.analysed == file.analysed && v.started == file.started
    && (v.live <==> w != null)
    && (w != null ==> w.file == file && w.canon == canon && w.View() == v)
  }

  /** Opening depends on what a closed world shows and on nothing else. */
  lemma OpenSame(u: World, v: World, config: Config, write: Write)
    requires !u.live && !v.live
    requires u.database == v.database && u.disk == v.disk && u.analysed == v.analysed && u.started == v.started
    ensures var a, b := Open(u, config, write), Open(v, config, write);
            && a.ok == b.ok && a.world.live == b.world.live && (a.ok ==> a.world == b.world)
            && (!a.ok ==> !a.world.live)
            && a.world.database == b.world.database && a.world.disk == b.world.disk
            && a.world.analysed == u.analysed && a.world.started == u.started
            && b.world.analysed == u.analysed && b.world.started == u.started
  {
  }

  lemma RunNext(w: World, canon: Canon, events: seq<Event>, k: nat)
    requires k < |events|
    ensures Run(w, canon, events[..k + 1]) == Next(Run(w, canon, events[..k]), canon, events[k])
  {
    assert events[..k + 1] == events[..k] + [events[k]];
    Runs.RunConcat(w, canon, events[..k], [events[k]]);
    assert [events[k]] == [events[k]] + [];
    Runs.RunFirst(Run(w, canon, events[..k]), canon, events[k], []);
  }

  /** One event, performed on the objects. */
  method Perform(file: CheckpointFile, canon: Canon, w0: Worker?, e: Event, ghost v: World) returns (w: Worker?)
    requires Shows(file, canon, w0, v) && Canonical(canon) && Runs.Inv(v, canon)
    modifies file, w0
    ensures w == w0 || w == null || fresh(w)
    ensures Shows(file, canon, w, Next(v, canon, e))
  {
    w := w0;
    match e {
      case OpenEvent(config, write) =>
        if w == null {
          OpenSame(file.Closed(config), v, config, write);
          w := OpenWorker(file, canon, config, write);
        }
      case CycleEvent(input) =>
        if w != null {
          var ok := w.CycleOnce(input);
        }
      case PauseEvent(write) =>
        if w != null {
          var ok := w.Pause(write);
        }
      case RetryEvent(id, write) =>
        if w != null {
          var ok := w.RetryFailed(id, write);
        }
      case CrashEvent =>
        w := null;
    }
  }

  /** A whole history on a new file: the objects go through the worlds of the run, so what is proved of runs is
      proved of them. */
  method Drive(file: CheckpointFile, canon: Canon, config: Config, events: seq<Event>) returns (w: Worker?)
    requires Canonical(canon) && file.Closed(config) == Boot(file.database, config)
    modifies file
    ensures Shows(file, canon, w, Run(Boot(file.database, config), canon, events))
  {
    w := null;
    ghost var boot := Boot(file.database, config);
    assert events[..0] == [];
    for k := 0 to |events|
      invariant w == null || fresh(w)
      invariant Shows(file, canon, w, Run(boot, canon, events[..k]))
    {
      Runs.RunInv(boot, canon, events[..k]);
      RunNext(boot, canon, events, k);
      w := Perform(file, canon, w, events[k], Run(boot, canon, events[..k]));
    }
    assert events[..|events|] == events;
  }
}
