/**
 A run of the analytics worker that reaches the last pass number and there loses an address: the file
 cannot be written any more, and every further cycle only changes the memory of the worker.
 */
module AnalyticsLimit {
  import opened Common
  import opened AnalyticsState
  import opened AnalyticsWorld
  import opened AnalyticsRuns

  const NO_WRITE: Write := Write(0, Lost)

  /** A cycle in which the source starts at this height and every query but the branch check fails. */
  function Restarted(start: nat): CycleInput {
    CycleInput(true, Some(Source(true, start, 0, "")), HashFailed, PageFailed, 0, 0, 0, Published,
               NO_WRITE, NO_WRITE, NO_WRITE, NO_WRITE, NO_WRITE, [], NO_WRITE, NO_WRITE)
  }

  /** A cycle on the scanned branch that reads one page. */
  function Paged(start: nat): CycleInput {
    Restarted(start).(hashAtScan := HashIs(Some("")), page := PageRead)
  }

  const ONE_ADDRESS: Canon := (key: ScanKey) => [1]

  function Other(start: nat): nat {
    if start == 0 then 1 else 0
  }

  /** A worker with nothing queued and nothing analysed. */
  predicate Bare(w: World, config: Config) {
    && w.live && w.config == config && w.mem.state.definition == config
    && w.mem.state.queue == [] && w.analysed == [] && w.mem.ledger.passMark == 0 && w.mem.ledger.dropped == {}
  }

  lemma PauseSpends(w: World, config: Config, canon: Canon) returns (e: Event)
    requires Bare(w, config) && w.mem.state.generation < U64_MAX
    ensures var v := Next(w, canon, e);
            && Bare(v, config) && v.mem.state.generation == w.mem.state.generation + 1
            && v.mem.state.pass == w.mem.state.pass && v.mem.state.scan == w.mem.state.scan
  {
    e := PauseEvent(Write(0, Committed));
  }

  /** Pauses count generations and nothing else. */
  lemma {:induction false} PausesSpend(w: World, config: Config, canon: Canon, k: nat) returns (events: seq<Event>)
    requires Bare(w, config) && w.mem.state.generation + k <= U64_MAX
    ensures var v := Run(w, canon, events);
            && Bare(v, config) && v.mem.state.generation == w.mem.state.generation + k
            && v.mem.state.pass == w.mem.state.pass && v.mem.state.scan == w.mem.state.scan
    decreases k
  {
    events := [];
    if k > 0 {
      var e := PauseSpends(w, config, canon);
      var rest := PausesSpend(Next(w, canon, e), config, canon, k - 1);
      RunFirst(w, canon, e, rest);
      events := [e] + rest;
    }
  }

  /** The generations are spent, and pass p has begun on the branch that starts at this height. */
  predicate Spent(w: World, config: Config, p: nat, start: nat) {
    && Bare(w, config) && w.mem.state.generation == U64_MAX && w.mem.state.pass == p && start <= 1
    && w.mem.state.scan == (if p == 0 then None else Some(Scan(ScanKey(0, "", start), 0, false)))
  }

  lemma SweepBegins(w: World, config: Config, canon: Canon, start: nat)
    requires Spent(w, config, 0, start)
    ensures Spent(Next(w, canon, CycleEvent(Restarted(Other(start)))), config, 1, Other(start))
  {
    var i := Restarted(Other(start));
    assert Prepare(w, i.source.value, i) == Step(w, true);
  }

  lemma ResetBegins(w: World, config: Config, canon: Canon, p: nat, start: nat)
    requires Spent(w, config, p, start) && 0 < p < U64_MAX
    ensures Spent(Next(w, canon, CycleEvent(Restarted(Other(start)))), config, p + 1, Other(start))
  {
    assert OffBranch(w, Restarted(Other(start)).source.value, HashFailed);
    assert AbandonQueue(w.mem).state.queue == [];
  }

  lemma TurnBegins(w: World, config: Config, canon: Canon, p: nat, start: nat) returns (e: Event)
    requires Spent(w, config, p, start) && p < U64_MAX
    ensures Spent(Next(w, canon, e), config, p + 1, Other(start))
  {
    e := CycleEvent(Restarted(Other(start)));
    if p > 0 {
      ResetBegins(w, config, canon, p, start);
    } else {
      SweepBegins(w, config, canon, start);
    }
  }

  /** Cycles on changing branches begin passes in memory alone. */
  lemma {:induction false} TurnsBegin(w: World, config: Config, canon: Canon, p: nat, start: nat, k: nat)
      returns (events: seq<Event>, last: nat)
    requires Spent(w, config, p, start) && p + k <= U64_MAX
    ensures Spent(Run(w, canon, events), config, p + k, last)
    decreases k
  {
    events, last := [], start;
    if k > 0 {
      var e := TurnBegins(w, config, canon, p, start);
      var rest;
      rest, last := TurnsBegin(Next(w, canon, e), config, canon, p + 1, Other(start), k - 1);
      RunFirst(w, canon, e, rest);
      events := [e] + rest;
    }
  }

  /** The only address is queued behind the cursor, in memory alone. */
  predicate Discovered(w: World, start: nat) {
    && w.live && w.mem.state.generation == U64_MAX && w.mem.state.pass == U64_MAX && w.analysed == []
    && w.mem.state.scan == Some(Scan(ScanKey(0, "", start), 1, true))
    && |w.mem.state.queue| == 1 && w.mem.state.queue[0].address == 1
    && w.mem.ledger.passMark == 0 && w.mem.ledger.dropped == {}
  }

  lemma PageDiscovers(w: World, config: Config, start: nat)
    requires Spent(w, config, U64_MAX, start) && config.Valid()
    ensures Discovered(Next(w, ONE_ADDRESS, CycleEvent(Paged(start))), start)
  {
    var s := w.mem.state;
    assert Prepare(w, Paged(start).source.value, Paged(start)) == Step(w, true);
    assert !SweepDue(w, 0) && Due(s.queue, 0) == None;
    assert Visited([1], 0) == 0;
    assert Page([1], 0, PageCount(s) + 1) == [1];
    assert AbsorbAll(w.mem, [1]) == Absorb(w.mem, 1) by {
      assert [1][1..] == [];
    }
    assert !Holds(s.queue, 1);
  }

  lemma ResetDrops(w: World, start: nat)
    requires Discovered(w, start)
    ensures var v := Next(w, ONE_ADDRESS, CycleEvent(Restarted(Other(start))));
            && v.live && v.mem.state.scan == w.mem.state.scan && v.mem.state.queue == []
            && v.analysed == [] && v.mem.ledger.dropped == {1}
  {
    assert OffBranch(w, Restarted(Other(start)).source.value, HashFailed);
    assert Unanalysed(w.mem, w.analysed) == {1} by {
      assert w.mem.state.queue[0].address == 1;
    }
  }

  /** A worker that has finished its sweep without the address 1, neither analysed nor kept as failed. */
  predicate LosesOne(w: World) {
    && w.live && w.mem.state.scan.Some? && w.mem.state.scan.value.exhausted && !AnyActive(w.mem.state.queue)
    && !Swept(w.mem, w.analysed, 1)
  }

  function LastTwo(start: nat): seq<Event> {
    [CycleEvent(Paged(start)), CycleEvent(Restarted(Other(start)))]
  }

  lemma LastTwoLose(w: World, config: Config, start: nat)
    requires Spent(w, config, U64_MAX, start) && config.Valid()
    ensures LosesOne(Run(w, ONE_ADDRESS, LastTwo(start)))
  {
    PageDiscovers(w, config, start);
    ResetDrops(Next(w, ONE_ADDRESS, CycleEvent(Paged(start))), start);
    RunTwo(w, ONE_ADDRESS, CycleEvent(Paged(start)), CycleEvent(Restarted(Other(start))));
  }

  /** From a fresh worker: spend n generations, begin p passes, then discover the address and drop it. */
  lemma SpendAndDrop(w: World, config: Config, n: nat, p: nat) returns (rest: seq<Event>)
    requires Bare(w, config) && config.Valid() && w.mem.state.pass == 0 && w.mem.state.scan == None
    requires w.mem.state.generation + n == U64_MAX && p == U64_MAX
    ensures LosesOne(Run(w, ONE_ADDRESS, rest))
  {
    var pauses := PausesSpend(w, config, ONE_ADDRESS, n);
    var b := Run(w, ONE_ADDRESS, pauses);
    var turns, last := TurnsBegin(b, config, ONE_ADDRESS, 0, 0, p);
    LastTwoLose(Run(b, ONE_ADDRESS, turns), config, last);
    RunConcat(b, ONE_ADDRESS, turns, LastTwo(last));
    RunConcat(w, ONE_ADDRESS, pauses, turns + LastTwo(last));
    rest := pauses + (turns + LastTwo(last));
  }

  lemma OpensBare(database: string, config: Config)
    requires config.Valid()
    ensures var w := Next(Boot(database, config), ONE_ADDRESS, OpenEvent(config, Write(0, Committed)));
            Bare(w, config) && w.mem.state.generation == 1 && w.mem.state.pass == 0 && w.mem.state.scan == None
  {
  }

  lemma OneAddress()
    ensures Canonical(ONE_ADDRESS) && forall key :: ONE_ADDRESS(key) == [1]
  {
  }

  /** The limit is reached: for every configuration there is a run after which a worker has finished its sweep
      without its only address, which it neither analysed nor keeps as failed. */
  lemma LimitIsReached(database: string, config: Config) returns (canon: Canon, events: seq<Event>)
    requires config.Valid()
    ensures Canonical(canon) && forall key :: canon(key) == [1]
    ensures LosesOne(Run(Boot(database, config), canon, events))
  {
    OneAddress();
    canon := ONE_ADDRESS;
    var open := OpenEvent(config, Write(0, Committed));
    OpensBare(database, config);
    var rest := SpendAndDrop(Next(Boot(database, config), canon, open), config, U64_MAX - 1, U64_MAX);
    RunFirst(Boot(database, config), canon, open, rest);
    events := [open] + rest;
  }
}
