/**
 The analytics worker with its checkpoint file: opening, pausing, operator retry, one scheduling
 cycle and crashes. Everything the worker cannot control is an input of a step: clock readings,
 database replies, the result of the analysis and the fate of every checkpoint write. A crash
 inside a cycle is a cycle whose later writes are lost, followed by a crash; a cycle that is
 cancelled is one whose awaited reply fails.
 */
module AnalyticsWorld {
  import opened Common
  import opened AnalyticsState

  /** `mem` is the worker's memory, meaningful while `live`; `disk` is the checkpoint file.
      `analysed` lists every completed analysis and `started` counts every started one. */
  datatype World = World(
    database: string,
    live: bool,
    config: Config,
    mem: Saved,
    disk: Option<Saved>,
    analysed: seq<Address>,
    started: nat)

  /** The fate of one checkpoint write: on disk and reported, not on disk and reported as an error,
      or on disk although an error is reported (the final directory sync failed). */
  datatype WriteFate = Committed | Lost | Unsynced
  datatype Write = Write(now: nat, fate: WriteFate)

  /** A world after a fallible step. */
  datatype Step = Step(world: World, ok: bool)

  datatype Source = Source(initialized: bool, startHeight: nat, tipHeight: nat, tipHash: BlockHash)
  datatype HashReply = HashFailed | HashIs(hash: Option<BlockHash>)
  datatype PageReply = PageFailed | SourceMoved | PageRead
  datatype Analysis = Published | Refused(error: string)

  datatype CycleInput = CycleInput(
    sameDatabase: bool,
    source: Option<Source>,
    hashAtScan: HashReply,
    page: PageReply,
    now: nat,
    nowDue: nat,
    nowFinish: nat,
    analysis: Analysis,
    resetWrite: Write,
    passWrite: Write,
    pageWrite: Write,
    idleWrite: Write,
    startWrite: Write,
    heartbeats: seq<Write>,
    finishWrite: Write,
    failureWrite: Write)

  function WithState(w: World, s: State): World {
    w.(mem := w.mem.(state := s))
  }

  // ----- checkpoint writes -----

  function Save(w: World, write: Write): (r: Step)
    ensures r.world.mem.state.queue == w.mem.state.queue
  {
    if w.mem.state.generation >= U64_MAX then Step(w, false)
    else
      var v := WithState(w, w.mem.state.(generation := w.mem.state.generation + 1, heartbeat := write.now));
      match write.fate
      case Committed => Step(v.(disk := Some(v.mem)), true)
      case Lost => Step(v, false)
      case Unsynced => Step(v.(disk := Some(v.mem)), false)
  }

  // ----- opening, pausing, operator retry -----

  /** Opening fails without effect on a live worker (it holds the lock), on an invalid configuration
      and on a checkpoint that the loader refuses. */
  function Open(w: World, config: Config, write: Write): Step {
    if w.live || !config.Valid() then Step(w, false)
    else if w.disk.Some? && !Accepted(w.disk.value.state, w.database) then Step(w, false)
    else
      var m := if w.disk.Some? then w.disk.value else NewSaved(w.database, config);
      var saved := Save(w.(mem := Resume(m, config), live := true, config := config), write);
      Step(saved.world.(live := saved.ok), saved.ok)
  }

  function PauseWorker(w: World, write: Write): Step {
    Save(w.(mem := Pause(w.mem, w.config)), write)
  }

  function RetryWorker(w: World, id: JobId, write: Write): Step {
    match FindFailed(w.mem.state.queue, id)
    case None => Step(w, false)
    case Some(index) => Save(w.(mem := RetryJob(w.mem, index)), write)
  }

  // ----- one scheduling cycle -----

  function KeyOf(source: Source): ScanKey {
    ScanKey(source.tipHeight, source.tipHash, source.startHeight)
  }

  function Begin(w: World, source: Source): Step {
    match BeginPass(w.mem, KeyOf(source), |w.analysed|, w.started)
    case None => Step(w, false)
    case Some(m) => Step(w.(mem := m), true)
  }

  predicate HashNeeded(w: World, source: Source) {
    && w.mem.state.scan.Some?
    && source.startHeight == w.mem.state.scan.value.key.start
    && source.tipHeight >= w.mem.state.scan.value.key.height
  }

  predicate OffBranch(w: World, source: Source, hash: HashReply) {
    && w.mem.state.scan.Some?
    && (HashNeeded(w, source) ==> hash.HashIs? && hash.hash != Some(w.mem.state.scan.value.key.hash))
  }

  /** Abandon the queue and sweep the source's current branch. */
  function Reset(w: World, source: Source, write: Write): Step {
    var b := Begin(w.(mem := AbandonQueue(w.mem)), source);
    if !b.ok then Step(w.(mem := DropQueue(w.mem, w.analysed)), false)
    else Save(WithState(b.world, b.world.mem.state.(reason := Reason.BranchChanged)), write)
  }

  predicate SweepDue(w: World, now: nat) {
    var s := w.mem.state;
    || s.scan.None?
    || (s.scan.value.exhausted && !AnyActive(s.queue) && s.nextSweep > 0 && now >= s.nextSweep)
  }

  function Sweep(w: World, source: Source, write: Write): Step {
    var b := Begin(w, source);
    if !b.ok then b else Save(b.world, write)
  }

  function Discover(w: World, canon: Canon, page: PageReply, write: Write): Step {
    var s := w.mem.state;
    if s.scan.None? then Step(w, false)
    else if s.scan.value.exhausted || |s.queue| >= MAX_QUEUE then Step(w, true)
    else if page != PageRead then Step(w, false)
    else
      var rows := Page(canon(s.scan.value.key), s.scan.value.after, PageCount(s) + 1);
      Save(w.(mem := AbsorbPage(w.mem, rows)), write)
  }

  function IdleState(s: State, config: Config, now: nat): State {
    var exhausted := s.scan.Some? && s.scan.value.exhausted;
    var active := AnyActive(s.queue);
    s.(nextSweep := if exhausted && !active && s.nextSweep == 0
                    then SaturatingAdd(now, config.refreshSeconds * 1000) else s.nextSweep,
       phase := if AnyFailed(s.queue) then Faulted else if active then Waiting else Idle,
       reason := if |s.queue| >= MAX_QUEUE then QueueFull
                 else if active then RetryBackoff
                 else if exhausted then AwaitingNextSweep
                 else DiscoveryPending)
  }

  function Heartbeats(w: World, beats: seq<Write>): (r: Step)
    ensures r.world.mem.state.queue == w.mem.state.queue
    decreases |beats|
  {
    if beats == [] then Step(w, true)
    else
      var b := Save(w, beats[0]);
      if b.ok then Heartbeats(b.world, beats[1..]) else b
  }

  function Finish(w: World, index: nat, analysis: Analysis, now: nat): World
    requires index < |w.mem.state.queue|
  {
    match analysis
    case Published =>
      w.(mem := FinishOk(w.mem, index, now), analysed := w.analysed + [w.mem.state.queue[index].address])
    case Refused(error) =>
      w.(mem := FinishErr(w.mem, index, w.config, error, now))
  }

  /** Put the start of an attempt on disk; only then does the analysis start. */
  function BeginAttempt(w: World, index: nat, write: Write): (r: Step)
    requires index < |w.mem.state.queue|
    ensures |r.world.mem.state.queue| == |w.mem.state.queue|
  {
    var begun := Save(w.(mem := StartAttempt(w.mem, index)), write);
    Step(begun.world.(started := begun.world.started + if begun.ok then 1 else 0), begun.ok)
  }

  /** The analysis runs under heartbeats; a failed heartbeat write drops it with the job still running. */
  function EndAttempt(w: World, index: nat, i: CycleInput): Step
    requires index < |w.mem.state.queue|
  {
    var beaten := Heartbeats(w, i.heartbeats);
    if beaten.ok then Save(Finish(beaten.world, index, i.analysis, i.nowFinish), i.finishWrite) else beaten
  }

  function Attempt(w: World, index: nat, i: CycleInput): Step
    requires index < |w.mem.state.queue|
  {
    var begun := BeginAttempt(w, index, i.startWrite);
    if begun.ok then EndAttempt(begun.world, index, i) else begun
  }

  function Prepare(w: World, source: Source, i: CycleInput): Step {
    if HashNeeded(w, source) && i.hashAtScan.HashFailed? then Step(w, false)
    else if OffBranch(w, source, i.hashAtScan) then Reset(w, source, i.resetWrite)
    else Step(w, true)
  }

  function Refill(w: World, source: Source, canon: Canon, i: CycleInput): Step {
    var swept := if SweepDue(w, i.now) then Sweep(w, source, i.passWrite) else Step(w, true);
    if !swept.ok then swept
    else if Due(swept.world.mem.state.queue, i.now).None? then
      Discover(swept.world, canon, i.page, i.pageWrite)
    else swept
  }

  /** Refill the queue, then run one due job or record that there is none. */
  function Schedule(w: World, source: Source, canon: Canon, i: CycleInput): Step {
    var refilled := Refill(w, source, canon, i);
    if !refilled.ok then refilled
    else
      var v := refilled.world;
      match Due(v.mem.state.queue, i.nowDue)
      case None => Save(WithState(v, IdleState(v.mem.state, v.config, i.now)), i.idleWrite)
      case Some(index) => Attempt(v, index, i)
  }

  function CycleInner(w: World, canon: Canon, i: CycleInput): Step {
    match i.source
    case None => Step(w, false)
    case Some(source) =>
      if !source.initialized then
        Save(WithState(w, w.mem.state.(phase := Waiting, reason := WaitingForBlocks)), i.idleWrite)
      else
        var prepared := Prepare(w, source, i);
        if prepared.ok then Schedule(prepared.world, source, canon, i) else prepared
  }

  /** A failed cycle keeps the cursor and records the failure. */
  function Cycle(w: World, canon: Canon, i: CycleInput): Step {
    if !i.sameDatabase then Step(w, false)
    else
      var r := CycleInner(w, canon, i);
      if r.ok then r
      else
        var failed := WithState(r.world, r.world.mem.state.(phase := Faulted, reason := SourceUnavailable));
        Step(Save(failed, i.failureWrite).world, false)
  }

  // ----- runs -----

  datatype Event =
    | OpenEvent(config: Config, write: Write)
    | CycleEvent(input: CycleInput)
    | PauseEvent(write: Write)
    | RetryEvent(id: JobId, write: Write)
    | CrashEvent

  function Next(w: World, canon: Canon, e: Event): World {
    match e
    case OpenEvent(config, write) => Open(w, config, write).world
    case CycleEvent(input) => if w.live then Cycle(w, canon, input).world else w
    case PauseEvent(write) => if w.live then PauseWorker(w, write).world else w
    case RetryEvent(id, write) => if w.live then RetryWorker(w, id, write).world else w
    case CrashEvent => w.(live := false)
  }

  function Run(w: World, canon: Canon, events: seq<Event>): World
    decreases |events|
  {
    if events == [] then w else Run(Next(w, canon, events[0]), canon, events[1..])
  }

  /** Nothing on disk, no worker. */
  function Boot(database: string, config: Config): World {
    World(database, false, config, NewSaved(database, config), None, [], 0)
  }
}
