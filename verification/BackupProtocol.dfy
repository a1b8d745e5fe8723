/** The native backup and isolated restore of scripts/warehouse_backup.py: the
  * manifest on disk, the server commands, and what one invocation of the tool
  * does to both. Every query, command and file write may fail, may be lost or
  * may be the last thing the process does. */
module BackupProtocol {
  import opened Common
  import ViewOrder

  datatype Engine = View | MaterializedView | Table(kind: nat)

  /** An object of a snapshot; `needs` are the names that its definition mentions,
    * `data` is the digest of the rows, absent in a schema-only snapshot and for views. */
  datatype Obj = Obj(name: nat, engine: Engine, ddl: nat, needs: set<nat>, columns: nat, data: Option<nat>)

  predicate Physical(o: Obj) {
    o.engine.Table?
  }

  /** `sha` stands for the digest of `objects`, by the digested value itself. */
  datatype Snapshot = Snapshot(server: nat, network: nat, identity: nat, binding: nat,
                               objects: seq<Obj>, sha: seq<Obj>)

  /** What the server answers to the queries of one snapshot. */
  datatype Scan = Scan(server: nat, identity: nat, binding: nat, objects: seq<Obj>)

  function SnapshotOf(scan: Scan, network: nat): Snapshot {
    Snapshot(scan.server, network, scan.identity, scan.binding, scan.objects, scan.objects)
  }

  datatype Status = Prepared | Dispatched | Running | Verified | Rejected
  datatype Phase = Structure | Data
  datatype Reason = SourceChanged | ServerRejected | ServerOperationFailed | RestoredContentDiffers
  datatype Merges = Untouched | PausedForVerification | Resumed
  datatype JobStatus = BackupCreated | Restored | BackupFailed | RestoreFailed | Unfinished(code: nat)
  datatype Archive = Archive(network: nat, id: nat)

  /** The part of a manifest that is written once. `receipt` stands for the digest
    * of the backup manifest, by that manifest itself. */
  datatype Job =
    | BackupOf(id: nat, endpoint: nat, database: nat, network: nat, archive: Archive,
               source: Snapshot, parts: nat)
    | RestoreOf(id: nat, endpoint: nat, database: nat, network: nat, archive: Archive,
                source: Snapshot, backupId: nat, backupDatabase: nat, dataId: nat, receipt: Manifest)

  /** The part that the operations rewrite; `phase` and `merges` mean something
    * for a restore only. */
  datatype Progress = Progress(status: Status, phase: Phase, merges: Merges, reason: Option<Reason>,
                               serverStatus: Option<JobStatus>, verifiedSha: Option<seq<Obj>>,
                               actualSha: Option<seq<Obj>>)

  datatype Manifest = Manifest(job: Job, progress: Progress)

  const NEW_PROGRESS: Progress := Progress(Prepared, Structure, Untouched, None, None, None, None)

  function WithStatus(m: Manifest, s: Status): Manifest {
    m.(progress := m.progress.(status := s))
  }

  function RejectedFor(m: Manifest, why: Reason): Manifest {
    m.(progress := m.progress.(status := Rejected, reason := Some(why)))
  }

  /** A restore whose structure was accepted goes on with its data. */
  function IntoData(m: Manifest): Manifest {
    m.(progress := m.progress.(status := Dispatched, phase := Data, merges := PausedForVerification))
  }

  predicate Final(m: Manifest) {
    m.progress.status == Verified || m.progress.status == Rejected
  }

  function ActiveId(m: Manifest): nat {
    if m.job.RestoreOf? && m.progress.phase == Data then m.job.dataId else m.job.id
  }

  /** The checks of `load` that the fields of the model can fail. */
  predicate Acceptable(m: Manifest) {
    && m.job.source.network == m.job.network
    && m.job.source.sha == m.job.source.objects
    && m.job.archive == Archive(m.job.network, if m.job.BackupOf? then m.job.id else m.job.backupId)
    && (m.progress.status == Verified ==> m.progress.verifiedSha == Some(m.job.source.sha))
  }

  function Load(file: Option<Manifest>): Option<Manifest> {
    match file
    case None => None
    case Some(m) => if Acceptable(m) then Some(m) else None
  }

  // ----- the world outside one process -----

  datatype Command =
    | BackupCommand(database: nat, archive: Archive, id: nat)
    | RestoreCommand(backupDatabase: nat, database: nat, archive: Archive, id: nat, structureOnly: bool)

  function CommandOf(m: Manifest): Command {
    match m.job
    case BackupOf(id, _, database, _, archive, _, _) => BackupCommand(database, archive, id)
    case RestoreOf(_, _, database, _, archive, _, _, backupDatabase, _, _) =>
      RestoreCommand(backupDatabase, database, archive, ActiveId(m), m.progress.phase == Structure)
  }

  /** A query is answered or the call ends there, by an exception or a crash. */
  datatype Reply<+T> = Got(value: T) | Failed

  /** A command is accepted, refused by the server, met by a connection error
    * (the server may have it or not), or the process dies around it. */
  datatype Sent = Accepted | Refused | Unreachable | Killed

  /** A file write replaces the file or not, and the process may die after it. */
  datatype Written = Stored | StoredThenKilled | NotStored

  datatype Event =
    | DiskAsked(disk: Reply<bool>)
    | JobAsked(id: nat, job: Reply<Option<JobStatus>>)
    | PartsAsked(database: nat, parts: Reply<nat>)
    | Scanned(database: nat, scan: Reply<Scan>)
    | SchemaRead(database: nat, schema: Reply<seq<Obj>>)
    | ServerAsked(server: Reply<nat>)
    | TargetAsked(database: nat, exists_: Reply<bool>)
    | Counted(database: nat, table: nat, rows: Reply<nat>)
    | MergesStopped(database: nat, table: nat, sent: Sent)
    | MergesStarted(database: nat, table: nat, sent: Sent)
    | ViewDropped(database: nat, view: nat, sent: Sent)
    | ViewRebuilt(database: nat, view: nat, sent: Sent)
    | Issued(command: Command, sent: Sent)
    | Wrote(manifest: Manifest)
    | WriteFailed

  /** The answers the environment has ready for one interaction, whatever it is. */
  datatype Answer = Answer(disk: Reply<bool>, job: Reply<Option<JobStatus>>, parts: Reply<nat>,
                           scan: Reply<Scan>, schema: Reply<seq<Obj>>, server: Reply<nat>,
                           target: Reply<bool>, rows: Reply<nat>, sent: Sent, written: Written)

  /** The n-th interaction of a history is answered by `env(n)`: any behaviour of
    * server, network, disk and process is one such function. */
  type Env = nat -> Answer

  /** The manifest file and everything that happened so far, over all processes. */
  datatype World = World(file: Option<Manifest>, trace: seq<Event>)

  datatype Outcome = Returned(manifest: Manifest) | Raised

  datatype Step = Step(world: World, outcome: Outcome)

  function Now(w: World, env: Env): Answer {
    env(|w.trace|)
  }

  function Note(w: World, e: Event): World {
    w.(trace := w.trace + [e])
  }

  function Write(w: World, env: Env, m: Manifest): World {
    if Now(w, env).written == NotStored
    then Note(w, WriteFailed)
    else World(Some(m), w.trace + [Wrote(m)])
  }

  function Save(w: World, env: Env, m: Manifest): Step {
    Step(Write(w, env, m), if Now(w, env).written == Stored then Returned(m) else Raised)
  }

  function Raise(w: World): Step {
    Step(w, Raised)
  }

  /** `stable_snapshot`: the snapshot, if the parts did not change around it. */
  function StableScan(w: World, env: Env, database: nat, network: nat): (World, Option<Snapshot>) {
    var before := Now(w, env).parts;
    var w1 := Note(w, PartsAsked(database, before));
    if before.Failed? then (w1, None) else
    var scan := Now(w1, env).scan;
    var w2 := Note(w1, Scanned(database, scan));
    if scan.Failed? then (w2, None) else
    var after := Now(w2, env).parts;
    var w3 := Note(w2, PartsAsked(database, after));
    (w3, if after == before then Some(SnapshotOf(scan.value, network)) else None)
  }

  // ----- before the data restore -----

  function WithoutData(o: Obj): Obj {
    o.(data := None)
  }

  function Schema(objects: seq<Obj>): (r: seq<Obj>)
    ensures |r| == |objects|
    ensures forall i :: 0 <= i < |r| ==> r[i] == WithoutData(objects[i])
  {
    seq(|objects|, i requires 0 <= i < |objects| => WithoutData(objects[i]))
  }

  /** The object a name-keyed dictionary of the list holds: the last one of that name. */
  function Lookup(objects: seq<Obj>, name: nat): Option<Obj> {
    if objects == [] then None
    else if objects[|objects| - 1].name == name then Some(objects[|objects| - 1])
    else Lookup(objects[..|objects| - 1], name)
  }

  predicate Names(objects: seq<Obj>, name: nat) {
    exists j :: 0 <= j < |objects| && objects[j].name == name
  }

  predicate NoStrangers(restored: seq<Obj>, expected: seq<Obj>) {
    forall i :: 0 <= i < |restored| ==> Names(expected, restored[i].name)
  }

  predicate TableFits(expected: Obj, restored: Option<Obj>) {
    && (Physical(expected) ==> restored == Some(expected))
    && (restored.Some? ==> restored.value.columns == expected.columns && restored.value.engine == expected.engine)
  }

  predicate AllFit(expected: seq<Obj>, restored: seq<Obj>) {
    forall i :: 0 <= i < |expected| ==> TableFits(expected[i], Lookup(restored, expected[i].name))
  }

  /** Every physical table from position i on: empty, then its merges stopped. */
  function FreezeTables(w: World, env: Env, database: nat, expected: seq<Obj>, i: nat): (World, bool)
    requires i <= |expected|
    decreases |expected| - i
  {
    if i == |expected| then (w, true)
    else if !Physical(expected[i]) then FreezeTables(w, env, database, expected, i + 1)
    else
      var rows := Now(w, env).rows;
      var w1 := Note(w, Counted(database, expected[i].name, rows));
      if rows != Got(0) then (w1, false) else
      var sent := Now(w1, env).sent;
      var w2 := Note(w1, MergesStopped(database, expected[i].name, sent));
      if sent != Accepted then (w2, false) else FreezeTables(w2, env, database, expected, i + 1)
  }

  function ViewNames(objects: seq<Obj>): set<nat> {
    set i | 0 <= i < |objects| && !Physical(objects[i]) :: objects[i].name
  }

  function Views(objects: seq<Obj>): seq<Obj> {
    if objects == [] then []
    else (if Physical(objects[0]) then [] else [objects[0]]) + Views(objects[1..])
  }

  /** Which views each view depends on, by name. */
  function DependenciesOf(objects: seq<Obj>): ViewOrder.Dependencies {
    map n | n in ViewNames(objects) ::
      match Lookup(Views(objects), n)
      case None => {}
      case Some(o) => o.needs * ViewNames(objects)
  }

  lemma DependenciesClosed(objects: seq<Obj>)
    ensures ViewOrder.Closed(DependenciesOf(objects))
  {
  }

  predicate Materialized(objects: seq<Obj>, name: nat) {
    var o := Lookup(Views(objects), name);
    o.Some? && o.value.engine.MaterializedView?
  }

  /** The views of the list from position i on are created again from the captured source; a materialized view
    * that is there is dropped first. */
  function RebuildViews(w: World, env: Env, database: nat, restored: seq<Obj>, expected: seq<Obj>, order: seq<nat>,
                        i: nat)
      : (World, bool)
    requires i <= |order|
    decreases |order| - i
  {
    if i == |order| then (w, true)
    else
      var (w1, dropped) :=
        if Materialized(expected, order[i]) && Names(restored, order[i])
        then (Note(w, ViewDropped(database, order[i], Now(w, env).sent)), Now(w, env).sent == Accepted)
        else (w, true);
      if !dropped then (w1, false) else
      var sent := Now(w1, env).sent;
      var w2 := Note(w1, ViewRebuilt(database, order[i], sent));
      if sent != Accepted then (w2, false) else RebuildViews(w2, env, database, restored, expected, order, i + 1)
  }

  function PrepareRestoreData(w: World, env: Env, m: Manifest): (World, bool) {
    var first := Now(w, env).schema;
    var w1 := Note(w, SchemaRead(m.job.database, first));
    var expected := Schema(m.job.source.objects);
    if first.Failed? || !NoStrangers(first.value, expected) then (w1, false) else
    var order := ViewOrder.Rounds(DependenciesOf(expected));
    if order.Err? || !AllFit(expected, first.value) then (w1, false)
    else PrepareTables(w1, env, m, first.value, order.value)
  }

  /** The physical tables, then the views. */
  function PrepareTables(w: World, env: Env, m: Manifest, restored: seq<Obj>, order: seq<nat>): (World, bool) {
    var (w1, frozen) := FreezeTables(w, env, m.job.database, Schema(m.job.source.objects), 0);
    if !frozen then (w1, false) else PrepareViews(w1, env, m, restored, order)
  }

  /** The views, then the last look at the schema. */
  function PrepareViews(w: World, env: Env, m: Manifest, restored: seq<Obj>, order: seq<nat>): (World, bool) {
    var expected := Schema(m.job.source.objects);
    var (w1, rebuilt) := RebuildViews(w, env, m.job.database, restored, expected, order, 0);
    if !rebuilt then (w1, false) else
    var last := Now(w1, env).schema;
    (Note(w1, SchemaRead(m.job.database, last)), last == Got(expected))
  }

  // ----- the operations -----

  function Rank(w: World): nat {
    if w.file.Some? && w.file.value.job.RestoreOf? && w.file.value.progress.phase == Structure then 1 else 0
  }

  /** Sends the command of a manifest already saved as dispatched. */
  function Send(w: World, env: Env, url: nat, m: Manifest): Step
    decreases Rank(w), 1
  {
    var sent := Now(w, env).sent;
    var w1 := Note(w, Issued(CommandOf(m), sent));
    match sent
    case Accepted => Refresh(w1, env, url)
    case Unreachable => Step(w1, Returned(m))
    case Killed => Raise(w1)
    case Refused =>
      var job := Now(w1, env).job;
      var w2 := Note(w1, JobAsked(ActiveId(m), job));
      if job.Failed? then Raise(w2)
      else if job.value.None? then Save(w2, env, RejectedFor(m, ServerRejected))
      else Refresh(w2, env, url)
  }

  /** The manifest after its server job finished and the contents were read again. */
  function Judge(m: Manifest, actual: Snapshot, changedParts: bool): Manifest {
    if actual != m.job.source || changedParts
    then m.(progress := m.progress.(status := Rejected, actualSha := Some(actual.sha),
              reason := Some(if m.job.BackupOf? then SourceChanged else RestoredContentDiffers)))
    else m.(progress := m.progress.(status := Verified, verifiedSha := Some(actual.sha)))
  }

  function Confirm(w: World, env: Env, m: Manifest): Step {
    var (w1, actual) := StableScan(w, env, m.job.database, m.job.network);
    if actual.None? then Raise(w1)
    else if m.job.RestoreOf? then Save(w1, env, Judge(m, actual.value, false))
    else
      var parts := Now(w1, env).parts;
      var w2 := Note(w1, PartsAsked(m.job.database, parts));
      if parts.Failed? then Raise(w2) else Save(w2, env, Judge(m, actual.value, parts.value != m.job.parts))
  }

  function Refresh(w: World, env: Env, url: nat): Step
    decreases Rank(w), 0
  {
    var loaded := Load(w.file);
    if loaded.None? || loaded.value.job.endpoint != url then Raise(w)
    else if Final(loaded.value) then Step(w, Returned(loaded.value))
    else
      var job := Now(w, env).job;
      var w1 := Note(w, JobAsked(ActiveId(loaded.value), job));
      if job.Failed? || job.value.None? then Raise(w1)
      else
        var m := loaded.value.(progress := loaded.value.progress.(serverStatus := job.value));
        match job.value.value
        case BackupFailed => Save(w1, env, RejectedFor(m, ServerOperationFailed))
        case RestoreFailed => Save(w1, env, RejectedFor(m, ServerOperationFailed))
        case Unfinished(_) => Save(w1, env, WithStatus(m, Running))
        case _ =>
          if m.job.RestoreOf? && m.progress.phase == Structure then
            var (w2, ready) := PrepareRestoreData(w1, env, m);
            if !ready then Raise(w2) else
            var d := IntoData(m);
            var w3 := Write(w2, env, d);
            if Now(w2, env).written != Stored then Raise(w3) else Send(w3, env, url, d)
          else Confirm(w1, env, m)
  }

  datatype BackupCall = BackupCall(url: nat, database: nat, network: nat, newId: nat, paused: bool, resume: bool)

  function Backup(w: World, env: Env, c: BackupCall): Step {
    if !c.paused then Raise(w)
    else if w.file.Some? then
      var m := w.file.value;
      if !c.resume || !Acceptable(m) || !m.job.BackupOf? || m.job.database != c.database || m.job.network != c.network
        || m.job.endpoint != c.url then Raise(w)
      else if Final(m) then Step(w, Returned(m))
      else StartBackup(w, env, c.url, m)
    else
      var disk := Now(w, env).disk;
      var w1 := Note(w, DiskAsked(disk));
      if disk != Got(true) then Raise(w1) else
      var guard := Now(w1, env).parts;
      var w2 := Note(w1, PartsAsked(c.database, guard));
      if guard.Failed? then Raise(w2) else
      var (w3, source) := StableScan(w2, env, c.database, c.network);
      if source.None? then Raise(w3) else
      var again := Now(w3, env).parts;
      var w4 := Note(w3, PartsAsked(c.database, again));
      if again != guard then Raise(w4) else
      var m := NewBackup(c, source.value, guard.value);
      var w5 := Write(w4, env, m);
      if Now(w4, env).written != Stored then Raise(w5) else StartBackup(w5, env, c.url, m)
  }

  function NewBackup(c: BackupCall, source: Snapshot, parts: nat): Manifest {
    Manifest(BackupOf(c.newId, c.url, c.database, c.network, Archive(c.network, c.newId), source, parts), NEW_PROGRESS)
  }

  function StartBackup(w: World, env: Env, url: nat, m: Manifest): Step
    requires m.job.BackupOf?
  {
    var job := Now(w, env).job;
    var w1 := Note(w, JobAsked(m.job.id, job));
    if job.Failed? then Raise(w1)
    else if job.value.Some? then Refresh(w1, env, url)
    else if m.progress.status != Prepared then Raise(w1)
    else
      var parts := Now(w1, env).parts;
      var w2 := Note(w1, PartsAsked(m.job.database, parts));
      if parts.Failed? then Raise(w2)
      else if parts.value != m.job.parts then Save(w2, env, RejectedFor(m, SourceChanged))
      else
        var d := WithStatus(m, Dispatched);
        var w3 := Write(w2, env, d);
        if Now(w2, env).written != Stored then Raise(w3) else Send(w3, env, url, d)
  }

  /** `receipt` is what the file of the backup manifest holds at the call. */
  datatype RestoreCall = RestoreCall(url: nat, receipt: Option<Manifest>, target: nat,
                                     newId: nat, newDataId: nat, resume: bool)

  function NewRestore(c: RestoreCall, b: Manifest): Manifest
    requires b.job.BackupOf?
  {
    Manifest(RestoreOf(c.newId, c.url, c.target, b.job.network, b.job.archive, b.job.source, b.job.id, b.job.database,
                       c.newDataId, b),
             NEW_PROGRESS.(status := Dispatched))
  }

  function Restore(w: World, env: Env, c: RestoreCall): Step {
    var loaded := Load(c.receipt);
    if loaded.None? || !loaded.value.job.BackupOf? || loaded.value.progress.status != Verified then Raise(w)
    else
      var b := loaded.value;
      if w.file.Some? then
        var m := w.file.value;
        if !c.resume || !Acceptable(m) || !m.job.RestoreOf? || m.job.database != c.target || m.job.endpoint != c.url
          || m.job.receipt != b then Raise(w)
        else Refresh(w, env, c.url)
      else
        var server := Now(w, env).server;
        var w1 := Note(w, ServerAsked(server));
        if server != Got(b.job.source.server) then Raise(w1) else
        var taken := Now(w1, env).target;
        var w2 := Note(w1, TargetAsked(c.target, taken));
        if taken != Got(false) then Raise(w2) else
        var m := NewRestore(c, b);
        var w3 := Write(w2, env, m);
        if Now(w2, env).written != Stored then Raise(w3) else Send(w3, env, c.url, m)
  }

  /** Every table with data from position i on has its merges started. */
  function StartMerges(w: World, env: Env, database: nat, objects: seq<Obj>, i: nat): (World, bool)
    requires i <= |objects|
    decreases |objects| - i
  {
    if i == |objects| then (w, true)
    else if objects[i].data.None? then StartMerges(w, env, database, objects, i + 1)
    else
      var sent := Now(w, env).sent;
      var w1 := Note(w, MergesStarted(database, objects[i].name, sent));
      if sent != Accepted then (w1, false) else StartMerges(w1, env, database, objects, i + 1)
  }

  function Release(w: World, env: Env, url: nat): Step {
    var loaded := Load(w.file);
    if loaded.None? || !loaded.value.job.RestoreOf? || loaded.value.progress.status != Verified
      || loaded.value.job.endpoint != url then Raise(w)
    else
      var m := loaded.value;
      if m.progress.merges == Resumed then Step(w, Returned(m)) else
      var (w1, actual) := StableScan(w, env, m.job.database, m.job.network);
      if actual != Some(m.job.source) then Raise(w1) else
      var (w2, started) := StartMerges(w1, env, m.job.database, m.job.source.objects, 0);
      if !started then Raise(w2) else Save(w2, env, m.(progress := m.progress.(merges := Resumed)))
  }

  /** `compare_receipts`: the two files certify one restored backup. */
  predicate ReceiptsAgree(backup: Option<Manifest>, restore: Option<Manifest>) {
    var b, r := Load(backup), Load(restore);
    && b.Some? && r.Some? && b.value.job.BackupOf? && r.value.job.RestoreOf?
    && b.value.progress.status == Verified && r.value.progress.status == Verified
    && r.value.job.receipt == b.value && b.value.job.source == r.value.job.source
  }

  // ----- runs -----

  datatype Op =
    | DoBackup(backup: BackupCall)
    | DoRestore(restore: RestoreCall)
    | DoRefresh(url: nat)
    | DoRelease(url: nat)

  function Apply(w: World, env: Env, op: Op): Step {
    match op
    case DoBackup(c) => Backup(w, env, c)
    case DoRestore(c) => Restore(w, env, c)
    case DoRefresh(url) => Refresh(w, env, url)
    case DoRelease(url) => Release(w, env, url)
  }

  /** Invocations of the tool on one manifest path, one after the other. */
  function Run(w: World, env: Env, ops: seq<Op>): World
    decreases |ops|
  {
    if ops == [] then w else Run(Apply(w, env, ops[0]).world, env, ops[1..])
  }

  const BLANK: World := World(None, [])
}
