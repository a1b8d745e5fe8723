/**
 The persistent state of the Bitcoin analytics worker and the steps that change it.
 Each function here is the effect of one piece of the worker on the state that the
 checkpoint file stores. A saved state carries a ledger: exact counts of what happened
 in the history that led to that state. A crash rolls state and ledger back together.
 */
module AnalyticsState {
  import opened Common

  const MAX_QUEUE: nat := 128
  const MAX_RECENT: nat := 16

  // An address stands for its rank in the database's string order; 0 is the empty string.
  type Address = nat
  type BlockHash = string

  datatype Config = Config(
    pageSize: nat,
    pollSeconds: nat,
    refreshSeconds: nat,
    jobTimeoutSeconds: nat,
    retrySeconds: nat,
    maxAttempts: nat)
  {
    predicate Valid() {
      && 1 <= pageSize <= 100
      && 1 <= pollSeconds <= 60
      && 10 <= refreshSeconds <= 86400
      && 1 <= jobTimeoutSeconds <= 600
      && 1 <= retrySeconds <= 3600
      && 1 <= maxAttempts <= 20
    }
  }

  // Digests are free constructors: equal digests come from equal content.
  datatype DefinitionHash = DigestOf(definition: Config)
  datatype JobId = JobId(database: string, definition: DefinitionHash, pass: nat, address: Address)

  // A checkpoint stores the status and the phase as text; `Other` is any text the worker never writes.
  datatype Status = Pending | Running | Retry | Failed | OtherStatus(text: string)
  datatype Phase = Waiting | Working | Idle | Faulted | OtherPhase(text: string)

  datatype Reason =
    | Starting | StartedOrResumed | Stopped | ManualRetryQueued | Sweeping | BranchChanged
    | SourceUnavailable | WaitingForBlocks | QueueFull | RetryBackoff | AwaitingNextSweep
    | DiscoveryPending | Refreshing | JobCompleted | JobFailed

  datatype Note = NoError | InterruptedAttempt | InterruptedShutdown | AttemptError(text: string)

  datatype Job = Job(
    id: JobId,
    address: Address,
    status: Status,
    attempts: nat,
    nextAttempt: nat,
    lastError: Note)

  datatype ScanKey = ScanKey(height: nat, hash: BlockHash, start: nat)
  datatype Scan = Scan(key: ScanKey, after: Address, exhausted: bool)

  datatype Receipt = Receipt(jobId: JobId, address: Address, attempts: nat, completedAt: nat)

  datatype State = State(
    contract: string,
    network: string,
    database: string,
    definition: Config,
    definitionHash: DefinitionHash,
    generation: nat,
    pass: nat,
    phase: Phase,
    reason: Reason,
    heartbeat: nat,
    nextSweep: nat,
    scan: Option<Scan>,
    queue: seq<Job>,
    recent: seq<Receipt>,
    succeeded: nat,
    failures: nat,
    abandoned: nat)

  const VERSION := "bitcoin_analytics_worker_v1"
  const NETWORK_ID := "bip122:000000000019d6689c085ae165831e93"

  /** Exact history of one saved state: jobs ever enqueued and abandoned, the receipts of all completed
      jobs, operator retries since the pass began, how long the record of completed analyses and the
      count of started analyses were when the pass began, and the swept addresses that a branch reset
      without a new pass has dropped unanalysed since then. */
  datatype Ledger = Ledger(
    enqueued: nat,
    receipts: seq<Receipt>,
    abandoned: nat,
    retries: nat,
    passMark: nat,
    startMark: nat,
    dropped: set<Address>)

  const NO_HISTORY: Ledger := Ledger(0, [], 0, 0, 0, 0, {})

  datatype Saved = Saved(state: State, ledger: Ledger)

  function NewState(database: string, config: Config): State {
    State(VERSION, NETWORK_ID, database, config, DigestOf(config), 0, 0, Waiting, Starting, 0, 0,
          None, [], [], 0, 0, 0)
  }

  function NewSaved(database: string, config: Config): Saved {
    Saved(NewState(database, config), NO_HISTORY)
  }

  // ----- what the checkpoint loader accepts -----

  predicate JobAccepted(job: Job) {
    && !job.status.OtherStatus?
    && job.attempts <= 20
  }

  predicate Accepted(s: State, database: string) {
    && s.contract == VERSION && s.network == NETWORK_ID && s.database == database
    && |s.queue| <= MAX_QUEUE && |s.recent| <= MAX_RECENT
    && s.definitionHash == DigestOf(s.definition)
    && !s.phase.OtherPhase?
    && (forall i, j :: 0 <= i < j < |s.queue| ==> s.queue[i].id != s.queue[j].id)
    && (forall i :: 0 <= i < |s.queue| ==> JobAccepted(s.queue[i]))
  }

  // ----- the queue -----

  predicate Holds(queue: seq<Job>, address: Address) {
    exists i :: 0 <= i < |queue| && queue[i].address == address
  }

  predicate AnyActive(queue: seq<Job>) {
    exists i :: 0 <= i < |queue| && queue[i].status != Failed
  }

  predicate AnyFailed(queue: seq<Job>) {
    exists i :: 0 <= i < |queue| && queue[i].status == Failed
  }

  predicate Eligible(job: Job, now: nat) {
    (job.status == Pending || job.status == Retry) && job.nextAttempt <= now
  }

  /** The key the scheduler minimises: fresh jobs before retried ones, then the earliest due time.
      Ties go to the earlier position. */
  predicate KeyLess(a: Job, b: Job) {
    if (a.attempts > 0) != (b.attempts > 0) then b.attempts > 0
    else a.nextAttempt < b.nextAttempt
  }

  function Due(queue: seq<Job>, now: nat): (r: Option<nat>)
    ensures r.Some? ==> r.value < |queue| && Eligible(queue[r.value], now)
  {
    if queue == [] then None
    else
      var n := |queue| - 1;
      var before := Due(queue[..n], now);
      if !Eligible(queue[n], now) then before
      else if before.Some? && !KeyLess(queue[n], queue[before.value]) then before
      else Some(n)
  }

  /** Attempts that the jobs of a queue may still make. */
  function Remaining(queue: seq<Job>, max: nat): int {
    if queue == [] then 0 else max - queue[0].attempts + Remaining(queue[1..], max)
  }

  // ----- steps on a saved state -----

  /** An interrupted attempt becomes a retry, or a failure when no attempt is left. */
  function Interrupted(job: Job, max: nat, note: Note): Job {
    if job.status != Running then job
    else job.(status := if job.attempts >= max then Failed else Retry, nextAttempt := 0, lastError := note)
  }

  function InterruptedAll(queue: seq<Job>, max: nat, note: Note): (r: seq<Job>)
    ensures |r| == |queue|
    ensures forall i :: 0 <= i < |queue| ==> r[i] == Interrupted(queue[i], max, note)
  {
    if queue == [] then [] else [Interrupted(queue[0], max, note)] + InterruptedAll(queue[1..], max, note)
  }

  /** Every queued job is dropped and counted as abandoned. */
  function AbandonQueue(m: Saved): Saved {
    var s := m.state;
    Saved(s.(abandoned := SaturatingAdd(s.abandoned, |s.queue|), queue := []),
          m.ledger.(abandoned := m.ledger.abandoned + |s.queue|))
  }

  /** The record of completed analyses lists the address from the mark on. */
  predicate AnalysedSince(analysed: seq<Address>, mark: nat, address: Address) {
    exists i :: mark <= i < |analysed| && analysed[i] == address
  }

  /** The queued addresses behind the cursor that were not analysed since the pass began. */
  function Unanalysed(m: Saved, analysed: seq<Address>): set<Address> {
    var s := m.state;
    set i | 0 <= i < |s.queue| && s.scan.Some? && s.queue[i].address <= s.scan.value.after
            && !AnalysedSince(analysed, m.ledger.passMark, s.queue[i].address) :: s.queue[i].address
  }

  /** The queue is abandoned, but no new pass follows: the scan stays as it is. */
  function DropQueue(m: Saved, analysed: seq<Address>): Saved {
    var a := AbandonQueue(m);
    a.(ledger := a.ledger.(dropped := m.ledger.dropped + Unanalysed(m, analysed)))
  }

  function Redefine(m: Saved, config: Config): Saved {
    var a := AbandonQueue(m);
    a.(state := a.state.(scan := None, nextSweep := 0, definition := config, definitionHash := DigestOf(config)))
  }

  function Resume(m: Saved, config: Config): Saved {
    var d := if m.state.definitionHash != DigestOf(config) then Redefine(m, config) else m;
    d.(state := d.state.(queue := InterruptedAll(d.state.queue, config.maxAttempts, InterruptedAttempt),
                         phase := Waiting, reason := StartedOrResumed))
  }

  function Pause(m: Saved, config: Config): Saved {
    m.(state := m.state.(queue := InterruptedAll(m.state.queue, config.maxAttempts, InterruptedShutdown),
                         phase := Waiting, reason := Stopped))
  }

  predicate RetryMatches(job: Job, id: JobId) {
    job.id == id && job.status == Failed
  }

  /** The first failed job with this id. */
  function FindFailed(queue: seq<Job>, id: JobId): (r: Option<nat>)
    ensures r.Some? ==> r.value < |queue| && RetryMatches(queue[r.value], id)
    ensures r.None? ==> forall i :: 0 <= i < |queue| ==> !RetryMatches(queue[i], id)
  {
    if queue == [] then None
    else if RetryMatches(queue[0], id) then Some(0)
    else
      var rest := FindFailed(queue[1..], id);
      if rest.Some? then Some(rest.value + 1) else None
  }

  function RetryJob(m: Saved, index: nat): Saved
    requires index < |m.state.queue|
  {
    var s := m.state;
    Saved(s.(queue := s.queue[index := s.queue[index].(attempts := 0, status := Pending, nextAttempt := 0)],
             reason := ManualRetryQueued),
          m.ledger.(retries := m.ledger.retries + 1))
  }

  /** None when the 64-bit pass counter is exhausted. `completed` and `started` are the lengths of
      the analysis record at this moment. */
  function BeginPass(m: Saved, key: ScanKey, completed: nat, started: nat): Option<Saved> {
    if m.state.pass >= U64_MAX then None
    else Some(Saved(
      m.state.(pass := m.state.pass + 1, scan := Some(Scan(key, 0, false)), nextSweep := 0, reason := Sweeping),
      m.ledger.(retries := 0, passMark := completed, startMark := started, dropped := {})))
  }

  /** One discovered row: enqueue the address unless a job holds it, then move the cursor. */
  function Absorb(m: Saved, address: Address): Saved
    requires m.state.scan.Some?
  {
    var s := m.state;
    var scan := Some(s.scan.value.(after := address));
    if Holds(s.queue, address) then m.(state := s.(scan := scan))
    else
      var id := JobId(s.database, s.definitionHash, s.pass, address);
      Saved(s.(queue := s.queue + [Job(id, address, Pending, 0, 0, NoError)], scan := scan),
            m.ledger.(enqueued := m.ledger.enqueued + 1))
  }

  function AbsorbAll(m: Saved, rows: seq<Address>): (r: Saved)
    requires m.state.scan.Some?
    ensures r.state.scan.Some? && r.state.scan.value.key == m.state.scan.value.key
    ensures r.state.pass == m.state.pass && r.state.generation == m.state.generation
    decreases |rows|
  {
    if rows == [] then m else AbsorbAll(Absorb(m, rows[0]), rows[1..])
  }

  function PageCount(s: State): (r: nat)
    requires |s.queue| < MAX_QUEUE
  {
    Min(s.definition.pageSize, MAX_QUEUE - |s.queue|)
  }

  /** One page of discovered rows; `rows` is the database reply, one row longer than the page when more exist. */
  function AbsorbPage(m: Saved, rows: seq<Address>): (r: Saved)
    requires m.state.scan.Some? && |m.state.queue| < MAX_QUEUE
    ensures r.state.scan.Some? && r.state.scan.value.key == m.state.scan.value.key
    ensures r.state.pass == m.state.pass && r.state.generation == m.state.generation
  {
    var count := PageCount(m.state);
    var a := AbsorbAll(m, if |rows| <= count then rows else rows[..count]);
    a.(state := a.state.(scan := Some(a.state.scan.value.(exhausted := |rows| <= count))))
  }

  function StartAttempt(m: Saved, index: nat): Saved
    requires index < |m.state.queue|
  {
    var s := m.state;
    var job := s.queue[index];
    m.(state := s.(queue := s.queue[index := job.(status := Running, attempts := job.attempts + 1)],
                   phase := Working, reason := Refreshing))
  }

  function FinishOk(m: Saved, index: nat, now: nat): Saved
    requires index < |m.state.queue|
  {
    var s := m.state;
    var job := s.queue[index];
    var receipt := Receipt(job.id, job.address, job.attempts, now);
    var recent := s.recent + [receipt];
    Saved(s.(queue := s.queue[..index] + s.queue[index + 1..],
             succeeded := SaturatingAdd(s.succeeded, 1),
             recent := if |recent| > MAX_RECENT then recent[1..] else recent,
             phase := Idle, reason := JobCompleted),
          m.ledger.(receipts := m.ledger.receipts + [receipt]))
  }

  function Pow2(n: nat): nat {
    if n == 0 then 1 else 2 * Pow2(n - 1)
  }

  /** Seconds to wait after a failed attempt: doubled per attempt, never more than one hour. */
  function Delay(config: Config, attempts: nat): nat {
    Min(Min(config.retrySeconds * Pow2(Min(attempts, 10)), U64_MAX), 3600)
  }

  function FinishErr(m: Saved, index: nat, config: Config, error: string, now: nat): Saved
    requires index < |m.state.queue|
  {
    var s := m.state;
    var job := s.queue[index];
    var next := job.(
      status := if job.attempts >= config.maxAttempts then Failed else Retry,
      lastError := AttemptError(error),
      nextAttempt := SaturatingAdd(now, Delay(config, job.attempts) * 1000));
    m.(state := s.(queue := s.queue[index := next],
                   failures := SaturatingAdd(s.failures, 1),
                   phase := Faulted, reason := JobFailed))
  }

  // ----- the canonical addresses of a scan -----

  predicate Increasing(c: seq<Address>) {
    && (forall i :: 0 <= i < |c| ==> c[i] > 0)
    && (forall i, j :: 0 <= i < j < |c| ==> c[i] < c[j])
  }

  /** The canonical addresses of each scan key, in database order. */
  type Canon = ScanKey -> seq<Address>

  ghost predicate Canonical(canon: Canon) {
    forall key :: Increasing(canon(key))
  }

  /** How many canonical addresses are at or before the cursor. */
  function Visited(c: seq<Address>, after: Address): (n: nat)
    ensures n <= |c|
  {
    if c == [] || c[0] > after then 0 else 1 + Visited(c[1..], after)
  }

  /** The database reply to "addresses after the cursor, in order, at most `limit`". */
  function Page(c: seq<Address>, after: Address, limit: nat): (rows: seq<Address>)
    ensures |rows| <= limit
  {
    var v := Visited(c, after);
    c[v..Min(v + limit, |c|)]
  }
}
