/**
 The next sweep: a cycle that finds nothing to do on a drained scan schedules it, and any cycle from that
 time on, with the source on the scanned branch, begins it and has it on disk whatever happens afterwards.
 */
module AnalyticsSweeps {
  import opened Common
  import opened AnalyticsState
  import opened AnalyticsWorld
  import opened AnalyticsRuns

  predicate Drained(s: State) {
    s.scan.Some? && s.scan.value.exhausted && !AnyActive(s.queue)
  }

  /** Memory and file are in this pass over this scan. */
  predicate InPass(w: World, pass: nat, key: ScanKey) {
    && w.mem.state.pass == pass && w.mem.state.scan.Some? && w.mem.state.scan.value.key == key
    && w.disk.Some? && w.disk.value.state.pass == pass
    && w.disk.value.state.scan.Some? && w.disk.value.state.scan.value.key == key
  }

  lemma SaveInPass(w: World, write: Write, pass: nat, key: ScanKey)
    requires InPass(w, pass, key)
    ensures InPass(Save(w, write).world, pass, key)
  {
  }

  lemma DiscoverInPass(w: World, canon: Canon, page: PageReply, write: Write, pass: nat, key: ScanKey)
    requires InPass(w, pass, key)
    ensures InPass(Discover(w, canon, page, write).world, pass, key)
  {
  }

  lemma {:induction false} HeartbeatsInPass(w: World, beats: seq<Write>, pass: nat, key: ScanKey)
    requires InPass(w, pass, key)
    ensures InPass(Heartbeats(w, beats).world, pass, key)
    decreases |beats|
  {
    if beats != [] {
      SaveInPass(w, beats[0], pass, key);
      var b := Save(w, beats[0]);
      if b.ok { HeartbeatsInPass(b.world, beats[1..], pass, key); }
    }
  }

  lemma AttemptInPass(w: World, index: nat, i: CycleInput, pass: nat, key: ScanKey)
    requires InPass(w, pass, key) && index < |w.mem.state.queue|
    ensures InPass(Attempt(w, index, i).world, pass, key)
  {
    var marked := w.(mem := StartAttempt(w.mem, index));
    SaveInPass(marked, i.startWrite, pass, key);
    var begun := BeginAttempt(w, index, i.startWrite);
    if begun.ok {
      HeartbeatsInPass(begun.world, i.heartbeats, pass, key);
      var beaten := Heartbeats(begun.world, i.heartbeats);
      if beaten.ok {
        SaveInPass(Finish(beaten.world, index, i.analysis, i.nowFinish), i.finishWrite, pass, key);
      }
    }
  }

  /** What follows the beginning of a pass in the same cycle stays in that pass. */
  lemma AfterSweep(w: World, source: Source, canon: Canon, i: CycleInput, pass: nat, key: ScanKey)
    requires SweepDue(w, i.now) && InPass(Sweep(w, source, i.passWrite).world, pass, key)
    ensures InPass(Schedule(w, source, canon, i).world, pass, key)
  {
    var swept := Sweep(w, source, i.passWrite);
    if swept.ok {
      DiscoverInPass(swept.world, canon, i.page, i.pageWrite, pass, key);
    }
    var refilled := Refill(w, source, canon, i);
    if refilled.ok {
      var v := refilled.world;
      match Due(v.mem.state.queue, i.nowDue)
      case None => SaveInPass(WithState(v, IdleState(v.mem.state, v.config, i.now)), i.idleWrite, pass, key);
      case Some(index) => AttemptInPass(v, index, i, pass, key);
    }
  }

  /** The source is on the branch of the scan, at its height or beyond. */
  predicate OnBranch(s: State, i: CycleInput) {
    && s.scan.Some? && i.source.Some? && i.source.value.initialized
    && i.source.value.startHeight == s.scan.value.key.start
    && i.source.value.tipHeight >= s.scan.value.key.height
    && i.hashAtScan == HashIs(Some(s.scan.value.key.hash))
  }

  /** From the scheduled time on, a cycle begins the next sweep, and only the write of its beginning has to reach
      the disk. */
  lemma SweepBeginsWhenDue(w: World, canon: Canon, j: CycleInput)
    requires w.live && Inv(w, canon) && Drained(w.mem.state)
    requires 0 < w.mem.state.nextSweep <= j.now && w.mem.state.generation < U64_MAX
    requires j.sameDatabase && OnBranch(w.mem.state, j) && j.passWrite.fate != Lost
    ensures InPass(Next(w, canon, CycleEvent(j)), w.mem.state.pass + 1, KeyOf(j.source.value))
  {
    var source := j.source.value;
    var pass, key := w.mem.state.pass + 1, KeyOf(source);
    assert Prepare(w, source, j) == Step(w, true);
    assert InPass(Sweep(w, source, j.passWrite).world, pass, key);
    AfterSweep(w, source, canon, j, pass, key);
    var r := CycleInner(w, canon, j);
    if !r.ok {
      var failed := WithState(r.world, r.world.mem.state.(phase := Faulted, reason := SourceUnavailable));
      SaveInPass(failed, j.failureWrite, pass, key);
    }
  }

  /** Before that time a cycle on the same branch stays in the pass. */
  lemma NoSweepBeforeDue(w: World, canon: Canon, j: CycleInput)
    requires w.live && Inv(w, canon) && Drained(w.mem.state)
    requires w.mem.state.nextSweep == 0 || j.now < w.mem.state.nextSweep
    requires j.sameDatabase && OnBranch(w.mem.state, j)
    requires w.disk.Some? && InPass(w, w.mem.state.pass, w.mem.state.scan.value.key)
    ensures InPass(Next(w, canon, CycleEvent(j)), w.mem.state.pass, w.mem.state.scan.value.key)
  {
    var pass, key := w.mem.state.pass, w.mem.state.scan.value.key;
    assert !SweepDue(w, j.now);
    IdleCycle(w, canon, j);
    SaveInPass(WithState(w, IdleState(w.mem.state, w.config, j.now)), j.idleWrite, pass, key);
    var r := CycleInner(w, canon, j);
    if !r.ok {
      var failed := WithState(r.world, r.world.mem.state.(phase := Faulted, reason := SourceUnavailable));
      SaveInPass(failed, j.failureWrite, pass, key);
    }
  }

  /** A drained scan whose next sweep is not due has nothing to refill and nothing to run. */
  lemma DrainedIdles(w: World, source: Source, canon: Canon, i: CycleInput)
    requires Drained(w.mem.state) && !SweepDue(w, i.now)
    ensures Schedule(w, source, canon, i)
         == Save(WithState(w, IdleState(w.mem.state, w.config, i.now)), i.idleWrite)
  {
    DueIsLeast(w.mem.state.queue, i.now);
    DueIsLeast(w.mem.state.queue, i.nowDue);
  }

  /** The two states are at the same point of the same pass; a write counts at most one generation. */
  predicate SameSweep(s: State, t: State) {
    && t.queue == s.queue && t.scan == s.scan && t.pass == s.pass && t.nextSweep == s.nextSweep
    && s.generation <= t.generation <= Max(s.generation, Min(s.generation + 1, U64_MAX))
  }

  lemma SaveSame(w: World, write: Write)
    ensures SameSweep(w.mem.state, Save(w, write).world.mem.state)
    ensures Save(w, write).world.live == w.live
  {
  }

  lemma IdleCycle(w: World, canon: Canon, i: CycleInput)
    requires Drained(w.mem.state) && !SweepDue(w, i.now) && i.sameDatabase && OnBranch(w.mem.state, i)
    ensures CycleInner(w, canon, i) == Save(WithState(w, IdleState(w.mem.state, w.config, i.now)), i.idleWrite)
  {
    assert Prepare(w, i.source.value, i) == Step(w, true);
    DrainedIdles(w, i.source.value, canon, i);
  }

  /** A cycle that idles on a drained scan leaves the time of the next sweep: the one already set, or one refresh
      interval after the cycle, and never zero. */
  lemma IdleSchedulesSweep(w: World, canon: Canon, i: CycleInput)
    requires w.live && Inv(w, canon) && Drained(w.mem.state) && !SweepDue(w, i.now)
    requires i.sameDatabase && OnBranch(w.mem.state, i)
    ensures var v := Next(w, canon, CycleEvent(i));
            && v.live && Drained(v.mem.state) && v.mem.state.scan == w.mem.state.scan
            && v.mem.state.pass == w.mem.state.pass && v.mem.state.queue == w.mem.state.queue
            && v.mem.state.nextSweep > 0
            && v.mem.state.nextSweep == (if w.mem.state.nextSweep > 0 then w.mem.state.nextSweep
                                         else Min(i.now + w.config.refreshSeconds * 1000, U64_MAX))
            && v.mem.state.generation <= Min(w.mem.state.generation + 2, U64_MAX)
  {
    IdleCycle(w, canon, i);
    var idle := WithState(w, IdleState(w.mem.state, w.config, i.now));
    SaveSame(idle, i.idleWrite);
    var r := Save(idle, i.idleWrite);
    if !r.ok {
      SaveSame(WithState(r.world, r.world.mem.state.(phase := Faulted, reason := SourceUnavailable)), i.failureWrite);
    }
  }

  /** In every run: after a cycle that idles on a drained scan, any later cycle at or after the scheduled time, on the
      same branch, leaves on disk the next pass with a scan of the source's tip. */
  lemma DrainedSweepRestarts(database: string, config: Config, canon: Canon, events: seq<Event>, i: CycleInput,
                             j: CycleInput)
    requires Canonical(canon)
    requires var w := Run(Boot(database, config), canon, events);
             && w.live && Drained(w.mem.state) && !SweepDue(w, i.now) && w.mem.state.generation + 2 < U64_MAX
             && i.sameDatabase && OnBranch(w.mem.state, i)
             && j.sameDatabase && OnBranch(w.mem.state, j) && j.passWrite.fate != Lost
             && Next(w, canon, CycleEvent(i)).mem.state.nextSweep <= j.now
    ensures var w := Run(Boot(database, config), canon, events);
            InPass(Run(w, canon, [CycleEvent(i), CycleEvent(j)]), w.mem.state.pass + 1, KeyOf(j.source.value))
  {
    var w := Run(Boot(database, config), canon, events);
    RunInv(Boot(database, config), canon, events);
    IdleSchedulesSweep(w, canon, i);
    var v := Next(w, canon, CycleEvent(i));
    NextInv(w, canon, CycleEvent(i));
    SweepBeginsWhenDue(v, canon, j);
    RunTwo(w, canon, CycleEvent(i), CycleEvent(j));
  }
}
